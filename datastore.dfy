/**
 * The relational datastore the handlers share, as one object holding one
 * map per table (record id to record), together with the two query shapes
 * the handlers use: `findUnique` on a unique column and `findMany` with a
 * filter and an `orderBy`.
 */
module Datastore {
  import opened Wrappers
  import opened Records

  // ----- Table invariants: keys are record ids; findUnique columns are unique -----

  ghost predicate TokensValid(m: map<Id, Token>) {
    && (forall k :: k in m ==> m[k].id == k)
    && (forall a, b :: a in m && b in m && m[a].token == m[b].token ==> a == b)
  }

  ghost predicate TestimonialsValid(m: map<Id, Testimonial>) {
    forall k :: k in m ==> m[k].id == k
  }

  ghost predicate WidgetsValid(m: map<Id, WidgetConfig>) {
    && (forall k :: k in m ==> m[k].id == k)
    && (forall a, b :: a in m && b in m && m[a].projectId == m[b].projectId ==> a == b)
  }

  ghost predicate ProjectsValid(m: map<Id, Project>) {
    && (forall k :: k in m ==> m[k].id == k)
    && (forall a, b :: a in m && b in m && m[a].slug == m[b].slug ==> a == b)
  }

  ghost predicate MembersValid(m: map<Id, Member>) {
    forall k :: k in m ==> m[k].id == k
  }

  ghost predicate InvitationsValid(m: map<Id, Invitation>) {
    forall k :: k in m ==> m[k].id == k
  }

  ghost predicate LinksValid(m: map<Id, CollectLink>) {
    && (forall k :: k in m ==> m[k].id == k)
    && (forall a, b :: a in m && b in m && m[a].projectId == m[b].projectId ==> a == b)
  }

  ghost predicate UsersValid(m: map<Id, User>) {
    forall k :: k in m ==> m[k].id == k
  }

  /** The datastore: every table the core reads or writes. */
  class Db {
    var tokens: map<Id, Token>
    var testimonials: map<Id, Testimonial>
    var widgets: map<Id, WidgetConfig>
    var projects: map<Id, Project>
    var members: map<Id, Member>
    var invitations: map<Id, Invitation>
    var collectLinks: map<Id, CollectLink>
    var testimonialLinks: map<Id, CollectLink>
    var users: map<Id, User>
    const defaults: SchemaDefaults

    ghost predicate Valid()
      reads this
    {
      && TokensValid(tokens)
      && TestimonialsValid(testimonials)
      && WidgetsValid(widgets)
      && ProjectsValid(projects)
      && MembersValid(members)
      && InvitationsValid(invitations)
      && LinksValid(collectLinks)
      && LinksValid(testimonialLinks)
      && UsersValid(users)
    }

    /** An empty datastore whose schema declares `defaults`. */
    constructor (defaults: SchemaDefaults)
      ensures Valid() && this.defaults == defaults
      ensures tokens == map[] && testimonials == map[] && widgets == map[]
      ensures projects == map[] && members == map[] && invitations == map[]
      ensures collectLinks == map[] && testimonialLinks == map[] && users == map[]
    {
      tokens, testimonials, widgets := map[], map[], map[];
      projects, members, invitations := map[], map[], map[];
      collectLinks, testimonialLinks, users := map[], map[], map[];
      this.defaults := defaults;
    }
  }

  // ----- findUnique on the unique columns -----

  /** `testimonialToken.findUnique({ where: { token: value } })`. */
  function TokenByValue(m: map<Id, Token>, value: string): (r: Option<Token>)
    requires TokensValid(m)
    ensures r.None? <==> forall k :: k in m ==> m[k].token != value
    ensures r.Some? ==> r.value.id in m && m[r.value.id] == r.value && r.value.token == value
  {
    if exists k :: k in m && m[k].token == value then
      var k :| k in m && m[k].token == value; Some(m[k])
    else None
  }

  /** `project.findUnique({ where: { slug } })`. */
  function ProjectBySlug(m: map<Id, Project>, slug: string): (r: Option<Project>)
    requires ProjectsValid(m)
    ensures r.None? <==> forall k :: k in m ==> m[k].slug != slug
    ensures r.Some? ==> r.value.id in m && m[r.value.id] == r.value && r.value.slug == slug
  {
    if exists k :: k in m && m[k].slug == slug then
      var k :| k in m && m[k].slug == slug; Some(m[k])
    else None
  }

  /** `widgetConfig.findUnique({ where: { projectId } })`. */
  function WidgetOfProject(m: map<Id, WidgetConfig>, projectId: Id): (r: Option<WidgetConfig>)
    requires WidgetsValid(m)
    ensures r.None? <==> forall k :: k in m ==> m[k].projectId != projectId
    ensures r.Some? ==> r.value.id in m && m[r.value.id] == r.value && r.value.projectId == projectId
  {
    if exists k :: k in m && m[k].projectId == projectId then
      var k :| k in m && m[k].projectId == projectId; Some(m[k])
    else None
  }

  /** `collectLink.findUnique({ where: { projectId } })` (and the same on `testimonialLink`). */
  function LinkOfProject(m: map<Id, CollectLink>, projectId: Id): (r: Option<CollectLink>)
    requires LinksValid(m)
    ensures r.None? <==> forall k :: k in m ==> m[k].projectId != projectId
    ensures r.Some? ==> r.value.id in m && m[r.value.id] == r.value && r.value.projectId == projectId
  {
    if exists k :: k in m && m[k].projectId == projectId then
      var k :| k in m && m[k].projectId == projectId; Some(m[k])
    else None
  }

  // ----- findMany: the rows a filter selects, in an order the datastore picks -----

  /** `rows` lists every record of `table` that `keep` selects, each exactly once. */
  ghost predicate Lists<T(!new)>(rows: seq<T>, table: map<Id, T>, keep: T -> bool) {
    && (forall i, j :: 0 <= i < j < |rows| ==> rows[i] != rows[j])
    && (forall x :: x in rows <==> x in table.Values && keep(x))
  }

  /** `findMany`: the datastore visits the table's rows in an order of its own and keeps the selected ones. */
  method FindMany<T(==,!new)>(table: map<Id, T>, keep: T -> bool) returns (rows: seq<T>)
    ensures Lists(rows, table, keep)
  {
    rows := [];
    var left := table.Values;
    while left != {}
      invariant left <= table.Values
      invariant forall i, j :: 0 <= i < j < |rows| ==> rows[i] != rows[j]
      invariant forall x :: x in rows <==> x in table.Values - left && keep(x)
      decreases |left|
    {
      var x :| x in left;
      if keep(x) {
        rows := rows + [x];
      }
      left := left - {x};
    }
  }

  // ----- orderBy: a key column, ascending or descending -----

  datatype Direction = Ascending | Descending

  predicate InOrder(a: int, b: int, dir: Direction) {
    if dir == Ascending then a <= b else a >= b
  }

  ghost predicate SortedBy<T>(s: seq<T>, key: T -> int, dir: Direction) {
    forall i, j :: 0 <= i < j < |s| ==> InOrder(key(s[i]), key(s[j]), dir)
  }

  /** Inserts `x` into the sorted `s` in front of the first element it may precede. */
  function Insert<T>(x: T, s: seq<T>, key: T -> int, dir: Direction): (r: seq<T>)
    requires SortedBy(s, key, dir)
    ensures SortedBy(r, key, dir)
    ensures multiset(r) == multiset(s) + multiset{x}
  {
    if s == [] then [x]
    else if InOrder(key(x), key(s[0]), dir) then
      ConsSorted(x, s, key, dir);
      [x] + s
    else
      var tail := Insert(x, s[1..], key, dir);
      assert s == [s[0]] + s[1..];
      HeadPrecedes(x, s, tail, key, dir);
      ConsSorted(s[0], tail, key, dir);
      [s[0]] + tail
  }

  /** In a sorted sequence the head may precede every element. */
  lemma ConsSorted<T>(h: T, t: seq<T>, key: T -> int, dir: Direction)
    requires SortedBy(t, key, dir)
    requires forall y :: y in t ==> InOrder(key(h), key(y), dir)
    ensures SortedBy([h] + t, key, dir)
  {
  }

  lemma HeadPrecedes<T>(x: T, s: seq<T>, tail: seq<T>, key: T -> int, dir: Direction)
    requires s != [] && SortedBy(s, key, dir)
    requires !InOrder(key(x), key(s[0]), dir)
    requires multiset(tail) == multiset(s[1..]) + multiset{x}
    ensures forall y :: y in tail ==> InOrder(key(s[0]), key(y), dir)
  {
    forall y | y in tail ensures InOrder(key(s[0]), key(y), dir) {
      assert y in multiset(tail);
      if y != x {
        assert y in multiset(s[1..]);
        var k :| 0 <= k < |s[1..]| && s[1..][k] == y;
        assert s[k + 1] == y;
      }
    }
  }

  /** The rows in the order `orderBy: { key: dir }` returns them (ties in some order). */
  function SortBy<T>(s: seq<T>, key: T -> int, dir: Direction): (r: seq<T>)
    ensures SortedBy(r, key, dir)
    ensures multiset(r) == multiset(s)
  {
    if s == [] then []
    else
      assert s == [s[0]] + s[1..];
      Insert(s[0], SortBy(s[1..], key, dir), key, dir)
  }

  /** Sorting keeps a listing a listing. */
  lemma SortedListing<T(!new)>(rows: seq<T>, table: map<Id, T>, keep: T -> bool, key: T -> int, dir: Direction)
    requires Lists(rows, table, keep)
    ensures Lists(SortBy(rows, key, dir), table, keep)
  {
    var r := SortBy(rows, key, dir);
    forall x ensures x in r <==> x in rows {
      assert x in r <==> x in multiset(r);
    }
    forall x ensures multiset(r)[x] <= 1 {
      NoDupCount(rows, x);
    }
    NoDupFromCount(r);
  }

  lemma {:induction false} NoDupCount<T>(s: seq<T>, x: T)
    requires forall i, j :: 0 <= i < j < |s| ==> s[i] != s[j]
    ensures multiset(s)[x] <= 1
  {
    if s != [] {
      assert s == [s[0]] + s[1..];
      NoDupCount(s[1..], x);
      if s[0] == x {
        assert x !in s[1..];
      }
    }
  }

  lemma NoDupFromCount<T>(s: seq<T>)
    requires forall x :: multiset(s)[x] <= 1
    ensures forall i, j :: 0 <= i < j < |s| ==> s[i] != s[j]
  {
    forall i, j | 0 <= i < j < |s| ensures s[i] != s[j] {
      CountTwo(s, i, j);
    }
  }

  lemma CountTwo<T>(s: seq<T>, i: int, j: int)
    requires 0 <= i < j < |s|
    ensures s[i] == s[j] ==> multiset(s)[s[i]] >= 2
  {
    if s[i] == s[j] {
      assert s == s[..i] + [s[i]] + s[i+1..j] + [s[j]] + s[j+1..];
    }
  }

  // ----- Counting over a listing -----

  /** The number of elements of `s` that satisfy `p` (`s.filter(p).length`). */
  function Count<T>(s: seq<T>, p: T -> bool): (n: nat)
    ensures n <= |s|
  {
    if s == [] then 0 else (if p(s[0]) then 1 else 0) + Count(s[1..], p)
  }

  lemma {:induction false} CountDistinct<T(!new)>(s: seq<T>, p: T -> bool)
    requires forall i, j :: 0 <= i < j < |s| ==> s[i] != s[j]
    ensures Count(s, p) == |set x | x in s && p(x)|
  {
    if s == [] {
      assert (set x | x in s && p(x)) == {};
    } else {
      CountDistinct(s[1..], p);
      var rest := set x | x in s[1..] && p(x);
      assert s[0] !in s[1..];
      if p(s[0]) {
        assert (set x | x in s && p(x)) == rest + {s[0]};
      } else {
        assert (set x | x in s && p(x)) == rest;
      }
    }
  }

  lemma {:induction false} DistinctCard<T>(s: seq<T>)
    requires forall i, j :: 0 <= i < j < |s| ==> s[i] != s[j]
    ensures |set x | x in s| == |s|
  {
    if s != [] {
      DistinctCard(s[1..]);
      assert s[0] !in s[1..];
      assert (set x | x in s) == (set x | x in s[1..]) + {s[0]};
    }
  }

  /** The records of `table` that `keep` selects. */
  ghost function Selected<T(!new)>(table: map<Id, T>, keep: T -> bool): set<T> {
    set x | x in table.Values && keep(x)
  }

  /** The records of `table` that `keep` selects and `p` holds of. */
  ghost function SelectedWith<T(!new)>(table: map<Id, T>, keep: T -> bool, p: T -> bool): set<T> {
    set x | x in table.Values && keep(x) && p(x)
  }

  /** A listing has one row per selected record. */
  lemma ListingSize<T(!new)>(rows: seq<T>, table: map<Id, T>, keep: T -> bool)
    requires Lists(rows, table, keep)
    ensures |rows| == |Selected(table, keep)|
  {
    DistinctCard(rows);
    assert (set x | x in rows) == (set x | x in table.Values && keep(x));
  }

  /** Counting the rows of a listing counts the selected records of the table. */
  lemma CountListing<T(!new)>(rows: seq<T>, table: map<Id, T>, keep: T -> bool, p: T -> bool)
    requires Lists(rows, table, keep)
    ensures Count(rows, p) == |SelectedWith(table, keep, p)|
  {
    CountDistinct(rows, p);
    assert (set x | x in rows && p(x)) == (set x | x in table.Values && keep(x) && p(x));
  }
}
