/**
 * The testimonial procedures of the tRPC router: the public, token-gated
 * submission, the dashboard's listings (all and paginated with a filter) and
 * the two moderation toggles.
 */
module TestimonieRouter {
  import opened Wrappers
  import opened Records
  import opened Datastore
  import opened TokenLifecycle

  const NO_ACTIVE_PROJECT: Failure := Trpc(BadRequest, "No active project selected")

  function CreatedAt(t: Testimonial): int { t.createdAt }

  // ----- Filters -----

  datatype Filter = All | Approved | Pending | Featured

  /** A `where` object over the two moderation flags; an absent key imposes nothing. */
  datatype Condition = Condition(isApproved: Option<bool>, isFeatured: Option<bool>)

  predicate Satisfies(c: Condition, t: Testimonial) {
    && (c.isApproved.Some? ==> t.isApproved == c.isApproved.value)
    && (c.isFeatured.Some? ==> t.isFeatured == c.isFeatured.value)
  }

  /** The filter switch: approved, pending (not approved), featured, or no extra condition. */
  function FilterConditions(f: Filter): (c: Condition)
    ensures forall t :: Satisfies(c, t) <==>
      match f
      case All => true
      case Approved => t.isApproved
      case Pending => !t.isApproved
      case Featured => t.isFeatured
  {
    match f
    case Approved => Condition(Some(true), None)
    case Pending => Condition(Some(false), None)
    case Featured => Condition(None, Some(true))
    case All => Condition(None, None)
  }

  /** `where: { projectId, ...conditions }`. */
  function InProject(projectId: Id, c: Condition): Testimonial -> bool {
    (t: Testimonial) => t.projectId == projectId && Satisfies(c, t)
  }

  // ----- Cursor pagination -----

  /** The rows from the cursor row on (a cursor naming no listed row selects nothing). */
  function FromCursor(rows: seq<Testimonial>, cursor: Id): (w: seq<Testimonial>)
    ensures |w| <= |rows| && w == rows[|rows| - |w|..]
    ensures w != [] <==> exists i :: 0 <= i < |rows| && rows[i].id == cursor
    ensures w != [] ==> w[0].id == cursor
    ensures forall i :: 0 <= i < |rows| - |w| ==> rows[i].id != cursor
  {
    if rows == [] then []
    else if rows[0].id == cursor then rows
    else FromCursor(rows[1..], cursor)
  }

  datatype Page = Page(items: seq<Testimonial>, nextCursor: Option<Id>)

  /**
   * `take: limit + 1`, then `pop()` the extra row and hand its id out as the
   * next cursor: at most `limit` items, and a cursor exactly when more rows
   * than `limit` were left.
   */
  function TakePage(window: seq<Testimonial>, limit: int): (p: Page)
    requires limit >= 1
    ensures |p.items| <= limit && |p.items| <= |window|
    ensures p.items == window[..|p.items|]
    ensures |window| <= limit ==> p.items == window
    ensures p.nextCursor.Some? <==> |window| > limit
    ensures p.nextCursor.Some? ==> |p.items| == limit && p.nextCursor.value == window[limit].id
  {
    if |window| > limit then Page(window[..limit], Some(window[limit].id))
    else Page(window, None)
  }

  /** The zod bounds of `limit`: 1..50, 10 when absent. */
  function Limit(limit: Option<int>): (r: Option<int>)
    ensures limit.None? ==> r == Some(10)
    ensures r.Some? <==> limit.None? || 1 <= limit.value <= 50
    ensures r.Some? ==> 1 <= r.value <= 50
  {
    var n := limit.GetOr(10);
    if 1 <= n <= 50 then Some(n) else None
  }

  /**
   * `infinite`: the active project's testimonials that pass the filter, newest
   * first, read from the cursor on, one page at a time. `matched` is the
   * listing the datastore returned for the query.
   */
  method Infinite(db: Db, user: User, limit: Option<int>, cursor: Option<Id>, filter: Filter)
    returns (r: Procedure<Page>, ghost matched: seq<Testimonial>)
    requires db.Valid()
    ensures Limit(limit).None? ==> r == Threw(InvalidInput({"limit"}))
    ensures Limit(limit).Some? && !Truthy(user.activeProjectId) ==> r == Threw(NO_ACTIVE_PROJECT)
    ensures Limit(limit).Some? && Truthy(user.activeProjectId) ==>
              && Lists(matched, db.testimonials, InProject(user.activeProjectId.value, FilterConditions(filter)))
              && SortedBy(matched, CreatedAt, Descending)
              && r == Returned(TakePage(if Truthy(cursor) then FromCursor(matched, cursor.value) else matched,
                                        Limit(limit).value))
  {
    matched := [];
    var take := Limit(limit);
    if take.None? {
      return Threw(InvalidInput({"limit"})), matched;
    }
    if !Truthy(user.activeProjectId) {
      return Threw(NO_ACTIVE_PROJECT), matched;
    }
    var keep := InProject(user.activeProjectId.value, FilterConditions(filter));
    var rows := FindMany(db.testimonials, keep);
    SortedListing(rows, db.testimonials, keep, CreatedAt, Descending);
    var sorted := SortBy(rows, CreatedAt, Descending);
    matched := sorted;
    var window := if Truthy(cursor) then FromCursor(sorted, cursor.value) else sorted;
    var page := Paginate(window, take.value);
    r := Returned(page);
  }

  /** Fetch one row past the page and pop it off as the next cursor. */
  method Paginate(window: seq<Testimonial>, limit: int) returns (p: Page)
    requires limit >= 1
    ensures p == TakePage(window, limit)
  {
    var testimonies := window[..if |window| < limit + 1 then |window| else limit + 1];
    var nextCursor: Option<Id> := None;
    if |testimonies| > limit {
      var nextItem := testimonies[|testimonies| - 1];
      testimonies := testimonies[..|testimonies| - 1];
      nextCursor := Some(nextItem.id);
      assert nextItem == window[limit] && testimonies == window[..limit];
    }
    p := Page(testimonies, nextCursor);
  }

  /** A page holds only rows of its window. */
  lemma PageWithinWindow(window: seq<Testimonial>, limit: int)
    requires limit >= 1
    ensures forall t :: t in TakePage(window, limit).items ==> t in window
  {
    var p := TakePage(window, limit);
    assert p.items == window[..|p.items|];
  }

  /** The window read from a cursor holds only listed rows. */
  lemma CursorWithinRows(rows: seq<Testimonial>, cursor: Id)
    ensures forall t :: t in FromCursor(rows, cursor) ==> t in rows
  {
    var w := FromCursor(rows, cursor);
    assert w == rows[|rows| - |w|..];
  }

  /** Every item of a page is a testimonial of the active project that passes the filter. */
  lemma PageItemsMatch(matched: seq<Testimonial>, testimonials: map<Id, Testimonial>, projectId: Id,
                       filter: Filter, cursor: Option<Id>, limit: int)
    requires limit >= 1
    requires Lists(matched, testimonials, InProject(projectId, FilterConditions(filter)))
    ensures var p := TakePage(if Truthy(cursor) then FromCursor(matched, cursor.value) else matched, limit);
            forall t :: t in p.items ==> t in testimonials.Values && t.projectId == projectId
                                         && Satisfies(FilterConditions(filter), t)
  {
    var window := if Truthy(cursor) then FromCursor(matched, cursor.value) else matched;
    if Truthy(cursor) {
      CursorWithinRows(matched, cursor.value);
    }
    PageWithinWindow(window, limit);
  }

  /** `all`: the active project's testimonials, newest first. */
  method AllTestimonials(db: Db, user: User) returns (r: Procedure<seq<Testimonial>>)
    requires db.Valid()
    ensures !Truthy(user.activeProjectId) ==> r == Threw(NO_ACTIVE_PROJECT)
    ensures Truthy(user.activeProjectId) ==>
              && r.Returned?
              && Lists(r.value, db.testimonials, InProject(user.activeProjectId.value, Condition(None, None)))
              && SortedBy(r.value, CreatedAt, Descending)
  {
    if !Truthy(user.activeProjectId) {
      return Threw(NO_ACTIVE_PROJECT);
    }
    var keep := InProject(user.activeProjectId.value, Condition(None, None));
    var rows := FindMany(db.testimonials, keep);
    SortedListing(rows, db.testimonials, keep, CreatedAt, Descending);
    r := Returned(SortBy(rows, CreatedAt, Descending));
  }

  // ----- Token-gated submission -----

  /** The input schema: a non-empty token and a valid testimonial. */
  function SubmitInputErrors(value: string, p: Payload): (errs: set<string>)
    ensures errs == {} <==> value != "" && PayloadErrors(p) == {}
  {
    (if value == "" then {"token"} else {}) + PayloadErrors(p)
  }

  /** The procedure's reply for each outcome of consuming the token. */
  function SubmitReply(o: SubmitOutcome): (r: Procedure<Reply>)
    requires o != Rejected(Accepted)
    ensures r == Returned(Ok()) <==> o == Submitted
    ensures r.Threw? <==> o == StoreFailed
    ensures o.Rejected? ==> r == Returned(Fail(CheckMessage(o.check)))
  {
    match o
    case Rejected(c) => Returned(Fail(CheckMessage(c)))
    case Submitted => Returned(Ok())
    case StoreFailed => Threw(StoreError)
  }

  /**
   * `submitTestimonie`: validate the input, look the token up, refuse an
   * unknown, cancelled, used or expired token, then create the testimonial
   * and mark the token used, in that order and without a transaction.
   */
  method SubmitTestimonie(db: Db, value: string, p: Payload, now: Time, newId: Id) returns (r: Procedure<Reply>)
    requires db.Valid()
    modifies db`tokens, db`testimonials
    ensures db.Valid()
    ensures SubmitInputErrors(value, p) != {} ==>
              && r == Threw(InvalidInput(SubmitInputErrors(value, p)))
              && db.tokens == old(db.tokens) && db.testimonials == old(db.testimonials)
    ensures SubmitInputErrors(value, p) == {} ==>
              var s := Submit(old(db.tokens), old(db.testimonials), value, p, now, newId, db.defaults);
              && db.tokens == s.tokens && db.testimonials == s.testimonials
              && r == SubmitReply(s.outcome)
  {
    var errs := SubmitInputErrors(value, p);
    if errs != {} {
      return Threw(InvalidInput(errs));
    }
    var outcome := Consume(db, value, p, now, newId);
    r := SubmitReply(outcome);
  }

  // ----- Moderation toggles -----

  /** The testimonial table with one boolean of `id` negated; None for an unknown id. */
  function FlipFeatured(m: map<Id, Testimonial>, id: Id): (r: Option<map<Id, Testimonial>>)
    ensures r.None? <==> id !in m
    ensures r.Some? ==> r.value.Keys == m.Keys && r.value[id].isFeatured == !m[id].isFeatured
    ensures r.Some? ==> r.value[id] == m[id].(isFeatured := r.value[id].isFeatured)
    ensures r.Some? ==> forall k :: k in m && k != id ==> r.value[k] == m[k]
  {
    if id !in m then None else Some(m[id := m[id].(isFeatured := !m[id].isFeatured)])
  }

  function FlipApproved(m: map<Id, Testimonial>, id: Id): (r: Option<map<Id, Testimonial>>)
    ensures r.None? <==> id !in m
    ensures r.Some? ==> r.value.Keys == m.Keys && r.value[id].isApproved == !m[id].isApproved
    ensures r.Some? ==> r.value[id] == m[id].(isApproved := r.value[id].isApproved)
    ensures r.Some? ==> forall k :: k in m && k != id ==> r.value[k] == m[k]
  {
    if id !in m then None else Some(m[id := m[id].(isApproved := !m[id].isApproved)])
  }

  /** Toggling twice restores the table. */
  lemma ToggleTwiceRestores(m: map<Id, Testimonial>, id: Id)
    requires id in m
    ensures FlipFeatured(FlipFeatured(m, id).value, id) == Some(m)
    ensures FlipApproved(FlipApproved(m, id).value, id) == Some(m)
  {
    var f := FlipFeatured(m, id).value;
    assert f[id := f[id].(isFeatured := !f[id].isFeatured)] == m;
    var a := FlipApproved(m, id).value;
    assert a[id := a[id].(isApproved := !a[id].isApproved)] == m;
  }

  const NOT_FOUND_TESTIMONY: Failure := Trpc(NotFound, "Testimony not found")

  /** `toggleFeatured`: negate `isFeatured` of an existing testimonial. */
  method ToggleFeatured(db: Db, id: Id) returns (r: Procedure<Reply>)
    requires db.Valid()
    modifies db`testimonials
    ensures db.Valid()
    ensures id == "" ==> r == Threw(InvalidInput({"id"})) && db.testimonials == old(db.testimonials)
    ensures id != "" && id !in old(db.testimonials) ==>
              r == Threw(NOT_FOUND_TESTIMONY) && db.testimonials == old(db.testimonials)
    ensures id != "" && id in old(db.testimonials) ==>
              r == Returned(Ok()) && Some(db.testimonials) == FlipFeatured(old(db.testimonials), id)
  {
    if id == "" {
      return Threw(InvalidInput({"id"}));
    }
    if id !in db.testimonials {
      return Threw(NOT_FOUND_TESTIMONY);
    }
    var testimony := db.testimonials[id];
    db.testimonials := db.testimonials[id := testimony.(isFeatured := !testimony.isFeatured)];
    r := Returned(Ok());
  }

  /** `toggleApproved`: negate `isApproved` of an existing testimonial (it returns nothing). */
  method ToggleApproved(db: Db, id: Id) returns (r: Procedure<()>)
    requires db.Valid()
    modifies db`testimonials
    ensures db.Valid()
    ensures id == "" ==> r == Threw(InvalidInput({"id"})) && db.testimonials == old(db.testimonials)
    ensures id != "" && id !in old(db.testimonials) ==>
              r == Threw(NOT_FOUND_TESTIMONY) && db.testimonials == old(db.testimonials)
    ensures id != "" && id in old(db.testimonials) ==>
              r == Returned(()) && Some(db.testimonials) == FlipApproved(old(db.testimonials), id)
  {
    if id == "" {
      return Threw(InvalidInput({"id"}));
    }
    if id !in db.testimonials {
      return Threw(NOT_FOUND_TESTIMONY);
    }
    var testimony := db.testimonials[id];
    db.testimonials := db.testimonials[id := testimony.(isApproved := !testimony.isApproved)];
    r := Returned(());
  }
}
