/**
 * The client's user list: search, add and delete over the in-memory lists
 * `apiUsers` (everything loaded) and `users` (what the table shows).
 */
module ClientApp {
  import opened Wrappers
  import opened Sequences

  // ---------------------------------------------------------------------------
  // Text: ASCII lower-casing and substring search (`toLowerCase`, `includes`)
  // ---------------------------------------------------------------------------

  function LowerChar(c: char): char {
    if 'A' <= c <= 'Z' then (c as int + 32) as char else c
  }

  /** `s.toLowerCase()`, restricted to ASCII letters. */
  function Lower(s: string): (r: string)
    ensures |r| == |s|
    ensures forall i :: 0 <= i < |r| ==> !('A' <= r[i] <= 'Z')
    ensures forall i :: 0 <= i < |s| && !('A' <= s[i] <= 'Z') ==> r[i] == s[i]
    ensures forall i :: 0 <= i < |s| && 'A' <= s[i] <= 'Z' ==> r[i] as int == s[i] as int + 32
  {
    seq(|s|, i requires 0 <= i < |s| => LowerChar(s[i]))
  }

  /** Two strings that differ only in the case of their letters. */
  ghost predicate Recased(a: string, b: string) {
    |a| == |b| && forall i :: 0 <= i < |a| ==> LowerChar(a[i]) == LowerChar(b[i])
  }

  /** `s.includes(q)`: some window of `s` equals `q`. */
  function Includes(s: string, q: string): (b: bool)
    ensures q == [] ==> b
    ensures b ==> |q| <= |s|
    decreases |s|
  {
    if q <= s then true
    else if s == [] then false
    else Includes(s[1..], q)
  }

  /** `q` starts at position `i` of `s`. */
  ghost predicate OccursAt(q: string, s: string, i: int) {
    0 <= i <= |s| - |q| && s[i..i + |q|] == q
  }

  /** Reference definition of "q occurs in s", by an explicit position. */
  ghost predicate Occurs(q: string, s: string) {
    exists i :: OccursAt(q, s, i)
  }

  lemma {:induction false} IncludesOccurs(s: string, q: string)
    ensures Includes(s, q) <==> Occurs(q, s)
    decreases |s|
  {
    if q <= s {
      assert OccursAt(q, s, 0);
    } else if s == [] {
    } else {
      IncludesOccurs(s[1..], q);
      if Occurs(q, s[1..]) {
        var i :| OccursAt(q, s[1..], i);
        var inS, inTail := s[i + 1..i + 1 + |q|], s[1..][i..i + |q|];
        forall k | 0 <= k < |q|
          ensures inS[k] == inTail[k]
        {
        }
        assert inS == inTail;
        assert OccursAt(q, s, i + 1);
      }
      if Occurs(q, s) {
        var i :| OccursAt(q, s, i);
        assert i != 0;
        var inTail, inS := s[1..][i - 1..i - 1 + |q|], s[i..i + |q|];
        forall k | 0 <= k < |q|
          ensures inTail[k] == inS[k]
        {
        }
        assert inTail == inS;
        assert OccursAt(q, s[1..], i - 1);
      }
    }
  }

  // ---------------------------------------------------------------------------
  // Users as the client holds them
  // ---------------------------------------------------------------------------

  datatype Company = Company(name: Option<string>, title: Option<string>)
  datatype Address = Address(country: Option<string>)
  datatype User = User(
    id: int,
    firstName: string,
    lastName: string,
    company: Option<Company>,
    address: Option<Address>)

  function FullName(u: User): string {
    u.firstName + " " + u.lastName
  }

  /** `user.company?.name` */
  function CompanyName(u: User): Option<string> {
    if u.company.Some? then u.company.value.name else None
  }

  /** `user.company?.title` */
  function CompanyTitle(u: User): Option<string> {
    if u.company.Some? then u.company.value.title else None
  }

  /** `user.address?.country` */
  function Country(u: User): Option<string> {
    if u.address.Some? then u.address.value.country else None
  }

  /** The four searchable texts, lowered; an absent one is the empty string. */
  function SearchableFields(u: User): (fields: seq<string>)
    ensures |fields| == 4
    ensures CompanyName(u).None? ==> fields[1] == ""
    ensures CompanyTitle(u).None? ==> fields[2] == ""
    ensures Country(u).None? ==> fields[3] == ""
    ensures forall k, i :: 0 <= k < 4 && 0 <= i < |fields[k]| ==> !('A' <= fields[k][i] <= 'Z')
  {
    [Lower(FullName(u)),
     Lower(CompanyName(u).GetOr("")),
     Lower(CompanyTitle(u).GetOr("")),
     Lower(Country(u).GetOr(""))]
  }

  /** The search predicate of `handleSearch`. */
  function Matches(u: User, query: string): (m: bool)
    ensures query == "" ==> m
  {
    var q := Lower(query);
    var fields := SearchableFields(u);
    Includes(fields[0], q) || Includes(fields[1], q) || Includes(fields[2], q) || Includes(fields[3], q)
  }

  /** A user matches exactly when the lowered query occurs in one of its lowered fields. */
  lemma MatchesOccurs(u: User, query: string)
    ensures Matches(u, query) <==>
            exists f :: f in SearchableFields(u) && Occurs(Lower(query), f)
  {
    var fields := SearchableFields(u);
    forall k | 0 <= k < 4 {
      IncludesOccurs(fields[k], Lower(query));
    }
  }

  /** An absent company name, title or country never matches a non-empty query. */
  lemma AbsentFieldsNeverMatch(u: User, query: string)
    ensures Matches(u, query) <==>
            Occurs(Lower(query), Lower(FullName(u))) ||
            (CompanyName(u).Some? && Occurs(Lower(query), Lower(CompanyName(u).value))) ||
            (CompanyTitle(u).Some? && Occurs(Lower(query), Lower(CompanyTitle(u).value))) ||
            (Country(u).Some? && Occurs(Lower(query), Lower(Country(u).value)))
  {
    var fields := SearchableFields(u);
    forall k | 0 <= k < 4 {
      IncludesOccurs(fields[k], Lower(query));
    }
  }

  /** `apiUsers.filter(...)` in `handleSearch`. */
  function SearchResults(apiUsers: seq<User>, query: string): (r: seq<User>)
    ensures IsSubsequence(r, apiUsers)
    ensures forall i :: 0 <= i < |r| ==> Matches(r[i], query)
    ensures forall i :: 0 <= i < |apiUsers| && Matches(apiUsers[i], query) ==>
              multiset(r)[apiUsers[i]] == multiset(apiUsers)[apiUsers[i]]
  {
    Filter(apiUsers, (u: User) => Matches(u, query))
  }

  /** Search ignores case: re-casing the query selects the same users. */
  lemma SearchIgnoresCase(apiUsers: seq<User>, q1: string, q2: string)
    requires Recased(q1, q2)
    ensures SearchResults(apiUsers, q1) == SearchResults(apiUsers, q2)
  {
    assert Lower(q1) == Lower(q2);
    FilterAgrees(apiUsers, (u: User) => Matches(u, q1), (u: User) => Matches(u, q2));
  }

  /** Every string includes the empty string, so the empty query selects everyone. */
  lemma EmptyQuerySelectsAll(apiUsers: seq<User>)
    ensures SearchResults(apiUsers, "") == apiUsers
  {
    FilterKeepsAll(apiUsers, (u: User) => Matches(u, ""));
  }

  /** `Math.max(...apiUsers.map(u => u.id), 0)` */
  function MaxId(users: seq<User>): (m: int)
    ensures m >= 0
    ensures forall i :: 0 <= i < |users| ==> users[i].id <= m
    ensures m == 0 || exists i :: 0 <= i < |users| && users[i].id == m
  {
    if users == [] then 0
    else
      var rest := MaxId(users[1..]);
      if users[0].id > rest then users[0].id else rest
  }

  /** The id `handleAddUser` gives the new user: one more than the largest id, or 1. */
  function NextId(users: seq<User>): (id: int)
    ensures id >= 1
    ensures forall i :: 0 <= i < |users| ==> users[i].id < id
    ensures users == [] ==> id == 1
    ensures id == 1 || exists i :: 0 <= i < |users| && users[i].id == id - 1
  {
    MaxId(users) + 1
  }

  /** The fixed user that "+ Add User" appends. */
  function NewUser(id: int): (u: User)
    ensures u.id == id
    ensures SearchableFields(u) == ["new user", "sample company", "sample role", "usa"]
  {
    var u := User(id, "New", "User",
                  Some(Company(Some("Sample Company"), Some("Sample Role"))),
                  Some(Address(Some("USA"))));
    assert FullName(u) == "New User";
    assert Lower("New User") == "new user";
    assert Lower("Sample Company") == "sample company";
    assert Lower("Sample Role") == "sample role";
    assert Lower("USA") == "usa";
    u
  }

  /** `list.filter((user) => user.id !== userId)` in `handleDeleteUser`. */
  function WithoutId(s: seq<User>, userId: int): (r: seq<User>)
    ensures IsSubsequence(r, s)
    ensures forall i :: 0 <= i < |r| ==> r[i].id != userId
    ensures forall i :: 0 <= i < |s| && s[i].id != userId ==> multiset(r)[s[i]] == multiset(s)[s[i]]
  {
    Filter(s, (u: User) => u.id != userId)
  }

  /** Deleting an id that no user has changes nothing. */
  lemma DeleteAbsentId(s: seq<User>, userId: int)
    requires forall i :: 0 <= i < |s| ==> s[i].id != userId
    ensures WithoutId(s, userId) == s
  {
    FilterKeepsAll(s, (u: User) => u.id != userId);
  }

  /** Deleting twice is the same as deleting once. */
  lemma DeleteTwice(s: seq<User>, userId: int)
    ensures WithoutId(WithoutId(s, userId), userId) == WithoutId(s, userId)
  {
    DeleteAbsentId(WithoutId(s, userId), userId);
  }

  /** Deleting the same id from a sublist and from its list keeps the sublist relation. */
  lemma DeleteKeepsSublist(users: seq<User>, apiUsers: seq<User>, userId: int)
    requires IsSubsequence(users, apiUsers)
    ensures IsSubsequence(WithoutId(users, userId), WithoutId(apiUsers, userId))
  {
    FilterMonotone(users, apiUsers, (u: User) => u.id != userId);
  }

  /**
   * Deleting from the search results gives the search results of the list
   * after the delete, so `handleDeleteUser` keeps a filtered view filtered.
   */
  lemma DeleteCommutesWithSearch(apiUsers: seq<User>, query: string, userId: int)
    ensures WithoutId(SearchResults(apiUsers, query), userId) ==
            SearchResults(WithoutId(apiUsers, userId), query)
  {
    FilterCommute(apiUsers, (u: User) => Matches(u, query), (u: User) => u.id != userId);
  }

  // ---------------------------------------------------------------------------
  // The component's state
  // ---------------------------------------------------------------------------

  class App {
    var users: seq<User>
    var apiUsers: seq<User>
    var searchQuery: string

    /** What is shown is always a sublist of what was loaded. */
    ghost predicate Valid()
      reads this
    {
      IsSubsequence(users, apiUsers)
    }

    constructor ()
      ensures Valid()
      ensures users == [] && apiUsers == [] && searchQuery == ""
    {
      users, apiUsers, searchQuery := [], [], "";
    }

    /** The success path of `fetchUsers`: both lists become the loaded list. */
    method LoadUsers(fetched: seq<User>)
      modifies this
      ensures Valid()
      ensures apiUsers == fetched && users == fetched && searchQuery == old(searchQuery)
    {
      apiUsers := fetched;
      users := fetched;
      SubsequenceReflexive(fetched);
    }

    method HandleSearch(value: string)
      requires Valid()
      modifies this
      ensures Valid()
      ensures searchQuery == value && apiUsers == old(apiUsers)
      ensures users == SearchResults(old(apiUsers), value)
    {
      searchQuery := value;
      users := SearchResults(apiUsers, value);
    }

    method HandleAddUser()
      requires Valid()
      modifies this
      ensures Valid()
      ensures apiUsers == old(apiUsers) + [NewUser(NextId(old(apiUsers)))]
      ensures users == apiUsers && searchQuery == old(searchQuery)
      ensures forall i :: 0 <= i < |old(apiUsers)| ==> apiUsers[i].id < apiUsers[|apiUsers| - 1].id
    {
      var updated := apiUsers + [NewUser(NextId(apiUsers))];
      apiUsers := updated;
      users := updated;
      SubsequenceReflexive(updated);
    }

    method HandleDeleteUser(userId: int)
      requires Valid()
      modifies this
      ensures Valid()
      ensures users == WithoutId(old(users), userId)
      ensures apiUsers == WithoutId(old(apiUsers), userId)
      ensures searchQuery == old(searchQuery)
    {
      DeleteKeepsSublist(users, apiUsers, userId);
      users := WithoutId(users, userId);
      apiUsers := WithoutId(apiUsers, userId);
    }

    /** The "Showing X of Y users" counter. */
    function Counter(): (r: (nat, nat))
      reads this
      requires Valid()
      ensures r.0 == |users| && r.1 == |apiUsers|
      ensures r.0 <= r.1
    {
      SubsequenceLength(users, apiUsers);
      (|users|, |apiUsers|)
    }
  }
}
