/**
 * The collection-token lifecycle shared by the tRPC routers and the server
 * actions: the guard chain a submission runs against a token, the write pair
 * that consumes it, cancellation, issuing, and the dashboard's counters.
 * A token is Active until it is used or cancelled; expiry is never stored,
 * it is decided against `now` each time a token is checked.
 */
module TokenLifecycle {
  import opened Wrappers
  import opened Records
  import opened Datastore

  // ----- The guard chain -----

  /** `expiresAt && expiresAt < now`: a token with no expiry never expires. */
  predicate Expired(t: Token, now: Time) {
    t.expiresAt.Some? && t.expiresAt.value < now
  }

  /** A token may be consumed: neither used nor cancelled, and not past its expiry. */
  predicate Consumable(t: Token, now: Time) {
    !t.used && !t.cancelled && (t.expiresAt.None? || now <= t.expiresAt.value)
  }

  datatype TokenCheck = UnknownToken | CancelledToken | UsedToken | ExpiredToken | Accepted

  /**
   * The checks a submission runs on the record found for its token, in the
   * order the handlers run them: unknown, cancelled, used, expired.
   */
  function CheckToken(rec: Option<Token>, now: Time): (c: TokenCheck)
    ensures c == UnknownToken <==> rec.None?
    ensures c == CancelledToken <==> rec.Some? && rec.value.cancelled
    ensures c == UsedToken <==> rec.Some? && rec.value.used && !rec.value.cancelled
    ensures c == ExpiredToken <==> rec.Some? && Expired(rec.value, now) && !rec.value.used && !rec.value.cancelled
    ensures c == Accepted <==> rec.Some? && Consumable(rec.value, now)
  {
    if rec.None? then UnknownToken
    else if rec.value.cancelled then CancelledToken
    else if rec.value.used then UsedToken
    else if Expired(rec.value, now) then ExpiredToken
    else Accepted
  }

  /** The message a failed check replies with. */
  function CheckMessage(c: TokenCheck): string
    requires c != Accepted
  {
    match c
    case UnknownToken => "Invalid token"
    case CancelledToken => "This link has been cancelled"
    case UsedToken => "This link has already been used"
    case ExpiredToken => "This link has expired"
  }

  // ----- The submitted testimonial -----

  datatype Payload = Payload(
    customerName: string,
    customerCompany: Option<string>,
    customerTitle: Option<string>,
    rating: int,
    text: string)

  /** The fields the submission schema rejects: name required, rating 1..5, text of 10 or more characters. */
  function PayloadErrors(p: Payload): (errs: set<string>)
    ensures "customerName" in errs <==> p.customerName == ""
    ensures "rating" in errs <==> !(1 <= p.rating <= 5)
    ensures "text" in errs <==> |p.text| < 10
    ensures errs <= {"customerName", "rating", "text"}
  {
    (if p.customerName == "" then {"customerName"} else {})
    + (if 1 <= p.rating <= 5 then {} else {"rating"})
    + (if |p.text| < 10 then {"text"} else {})
  }

  /** The row `testimonial.create` inserts for a submission to `projectId`. */
  function NewTestimonial(id: Id, projectId: Id, p: Payload, now: Time, d: SchemaDefaults): Testimonial {
    Testimonial(id, projectId, p.customerName, p.customerCompany, p.customerTitle, p.rating, p.text,
                d.testimonialApproved, d.testimonialFeatured, now)
  }

  // ----- Consuming a token -----

  datatype SubmitOutcome = Rejected(check: TokenCheck) | Submitted | StoreFailed

  datatype Submission = Submission(
    outcome: SubmitOutcome,
    tokens: map<Id, Token>,
    testimonials: map<Id, Testimonial>)

  /**
   * Looks the token up by its value, runs the guard chain, then creates the
   * testimonial (under the id the datastore generates, `newId`) and marks the
   * token used. A clash on `newId` makes the create throw: nothing is written.
   */
  function Submit(tokens: map<Id, Token>, testimonials: map<Id, Testimonial>, value: string,
                  p: Payload, now: Time, newId: Id, d: SchemaDefaults): (s: Submission)
    requires TokensValid(tokens) && TestimonialsValid(testimonials)
    ensures TokensValid(s.tokens) && TestimonialsValid(s.testimonials)
    ensures s.outcome != Submitted ==> s.tokens == tokens && s.testimonials == testimonials
    ensures CheckToken(TokenByValue(tokens, value), now) != Accepted
            ==> s.outcome == Rejected(CheckToken(TokenByValue(tokens, value), now))
    ensures s.outcome == StoreFailed <==> CheckToken(TokenByValue(tokens, value), now) == Accepted && newId in testimonials
    ensures s.outcome == Submitted <==> CheckToken(TokenByValue(tokens, value), now) == Accepted && newId !in testimonials
    ensures s.outcome != Rejected(Accepted)
    ensures s.outcome == Submitted ==>
              var t := TokenByValue(tokens, value).value;
              && s.testimonials == testimonials[newId := NewTestimonial(newId, t.projectId, p, now, d)]
              && s.tokens == tokens[t.id := t.(used := true)]
  {
    var rec := TokenByValue(tokens, value);
    var check := CheckToken(rec, now);
    if check != Accepted then Submission(Rejected(check), tokens, testimonials)
    else if newId in testimonials then Submission(StoreFailed, tokens, testimonials)
    else
      var t := rec.value;
      Submission(Submitted,
                 tokens[t.id := t.(used := true)],
                 testimonials[newId := NewTestimonial(newId, t.projectId, p, now, d)])
  }

  /** A successful submission adds exactly one testimonial, for the token's project, carrying the payload. */
  lemma SubmitAddsOne(tokens: map<Id, Token>, testimonials: map<Id, Testimonial>, value: string,
                      p: Payload, now: Time, newId: Id, d: SchemaDefaults)
    requires TokensValid(tokens) && TestimonialsValid(testimonials)
    requires Submit(tokens, testimonials, value, p, now, newId, d).outcome == Submitted
    ensures var s := Submit(tokens, testimonials, value, p, now, newId, d);
            var t := TokenByValue(tokens, value).value;
            && |s.testimonials| == |testimonials| + 1
            && s.testimonials.Keys == testimonials.Keys + {newId}
            && s.testimonials[newId].projectId == t.projectId
            && s.testimonials[newId].text == p.text && s.testimonials[newId].rating == p.rating
  {
    var s := Submit(tokens, testimonials, value, p, now, newId, d);
    var t := TokenByValue(tokens, value).value;
    var row := NewTestimonial(newId, t.projectId, p, now, d);
    assert newId !in testimonials;
    assert s.testimonials == testimonials[newId := row];
  }

  /** A successful submission changes only the consumed token, and only its `used` flag. */
  lemma SubmitMarksUsed(tokens: map<Id, Token>, testimonials: map<Id, Testimonial>, value: string,
                        p: Payload, now: Time, newId: Id, d: SchemaDefaults)
    requires TokensValid(tokens) && TestimonialsValid(testimonials)
    requires Submit(tokens, testimonials, value, p, now, newId, d).outcome == Submitted
    ensures var s := Submit(tokens, testimonials, value, p, now, newId, d);
            var t := TokenByValue(tokens, value).value;
            && s.tokens.Keys == tokens.Keys
            && s.tokens[t.id] == t.(used := true)
            && (forall k :: k in tokens && k != t.id ==> s.tokens[k] == tokens[k])
  {
    var s := Submit(tokens, testimonials, value, p, now, newId, d);
    var t := TokenByValue(tokens, value).value;
    assert s.tokens == tokens[t.id := t.(used := true)];
  }

  /** After a successful submission, every later submission with the same token reports it used. */
  lemma {:induction false} SingleUse(tokens: map<Id, Token>, testimonials: map<Id, Testimonial>, value: string,
                                     p: Payload, now: Time, newId: Id, d: SchemaDefaults,
                                     p': Payload, now': Time, newId': Id)
    requires TokensValid(tokens) && TestimonialsValid(testimonials)
    requires Submit(tokens, testimonials, value, p, now, newId, d).outcome == Submitted
    ensures var s := Submit(tokens, testimonials, value, p, now, newId, d);
            Submit(s.tokens, s.testimonials, value, p', now', newId', d).outcome == Rejected(UsedToken)
  {
    var s := Submit(tokens, testimonials, value, p, now, newId, d);
    var t := TokenByValue(tokens, value).value;
    assert s.tokens[t.id].token == value;
    var again := TokenByValue(s.tokens, value);
    assert again == Some(t.(used := true));
  }

  /**
   * The lookup, the guard chain and the two writes both submission handlers
   * run once their input is valid: the testimonial is created first, then the
   * token is marked used, with no transaction around the pair.
   */
  method Consume(db: Db, value: string, p: Payload, now: Time, newId: Id) returns (outcome: SubmitOutcome)
    requires db.Valid()
    modifies db`tokens, db`testimonials
    ensures db.Valid()
    ensures var s := Submit(old(db.tokens), old(db.testimonials), value, p, now, newId, db.defaults);
            outcome == s.outcome && db.tokens == s.tokens && db.testimonials == s.testimonials
  {
    ghost var s := Submit(db.tokens, db.testimonials, value, p, now, newId, db.defaults);
    var tokenRecord := TokenByValue(db.tokens, value);
    if tokenRecord.None? {
      return Rejected(UnknownToken);
    }
    var t := tokenRecord.value;
    if t.cancelled {
      return Rejected(CancelledToken);
    }
    if t.used {
      return Rejected(UsedToken);
    }
    if t.expiresAt.Some? && t.expiresAt.value < now {
      return Rejected(ExpiredToken);
    }
    if newId in db.testimonials {
      return StoreFailed;
    }
    var testimonials := db.testimonials[newId := NewTestimonial(newId, t.projectId, p, now, db.defaults)];
    var tokens := db.tokens[t.id := t.(used := true)];
    assert testimonials == s.testimonials && tokens == s.tokens;
    assert TokensValid(tokens) && TestimonialsValid(testimonials);
    db.testimonials := testimonials;
    db.tokens := tokens;
    outcome := Submitted;
  }

  // ----- The lifecycle invariant: no way back to Active -----

  /**
   * `after` is a later state of the token table than `before`: no token has
   * disappeared, none has changed project or value, and `used` and `cancelled`
   * never go from true back to false.
   */
  ghost predicate Evolves(before: map<Id, Token>, after: map<Id, Token>) {
    forall k :: k in before ==>
      && k in after
      && after[k].projectId == before[k].projectId
      && after[k].token == before[k].token
      && (before[k].used ==> after[k].used)
      && (before[k].cancelled ==> after[k].cancelled)
  }

  lemma SubmitEvolves(tokens: map<Id, Token>, testimonials: map<Id, Testimonial>, value: string,
                      p: Payload, now: Time, newId: Id, d: SchemaDefaults)
    requires TokensValid(tokens) && TestimonialsValid(testimonials)
    ensures Evolves(tokens, Submit(tokens, testimonials, value, p, now, newId, d).tokens)
  {
  }

  // ----- Cancelling a token -----

  datatype CancelOutcome = TokenNotFound | OtherProject | TokenCancelled

  datatype Cancellation = Cancellation(outcome: CancelOutcome, tokens: map<Id, Token>)

  /**
   * Cancels token `id` on behalf of the active project: an unknown id and a
   * token of another project are refused; `used` is neither checked nor changed.
   */
  function Cancel(tokens: map<Id, Token>, id: Id, projectId: Id): (c: Cancellation)
    requires TokensValid(tokens)
    ensures TokensValid(c.tokens)
    ensures c.outcome == TokenNotFound <==> id !in tokens
    ensures c.outcome == OtherProject <==> id in tokens && tokens[id].projectId != projectId
    ensures c.outcome != TokenCancelled ==> c.tokens == tokens
    ensures c.outcome == TokenCancelled ==> c.tokens == tokens[id := tokens[id].(cancelled := true)]
  {
    if id !in tokens then Cancellation(TokenNotFound, tokens)
    else if tokens[id].projectId != projectId then Cancellation(OtherProject, tokens)
    else Cancellation(TokenCancelled, tokens[id := tokens[id].(cancelled := true)])
  }

  /** Cancelling twice succeeds both times and leaves the table as cancelling once. */
  lemma CancelIdempotent(tokens: map<Id, Token>, id: Id, projectId: Id)
    requires TokensValid(tokens)
    requires Cancel(tokens, id, projectId).outcome == TokenCancelled
    ensures var once := Cancel(tokens, id, projectId);
            var twice := Cancel(once.tokens, id, projectId);
            twice.outcome == TokenCancelled && twice.tokens == once.tokens
  {
    var once := Cancel(tokens, id, projectId);
    assert once.tokens[id := once.tokens[id].(cancelled := true)] == once.tokens;
  }

  lemma CancelEvolves(tokens: map<Id, Token>, id: Id, projectId: Id)
    requires TokensValid(tokens)
    ensures Evolves(tokens, Cancel(tokens, id, projectId).tokens)
  {
  }

  // ----- Issuing a token -----

  const BASE36: string := "0123456789abcdefghijklmnopqrstuvwxyz"

  /** `Math.random().toString(36).substring(2, 15)`: at most 13 base-36 digits. */
  predicate IsFragment(f: string) {
    |f| <= 13 && forall i :: 0 <= i < |f| ==> f[i] in BASE36
  }

  /** The token value: two random fragments, concatenated. */
  function TokenValue(f1: string, f2: string): (v: string)
    requires IsFragment(f1) && IsFragment(f2)
    ensures |v| <= 26
    ensures forall i :: 0 <= i < |v| ==> v[i] in BASE36
    ensures |v| == |f1| + |f2| && v[..|f1|] == f1 && v[|f1|..] == f2
  {
    f1 + f2
  }

  /** `createdBy: user.name || user.email`. */
  function CreatedBy(u: User): (r: string)
    ensures u.name != "" ==> r == u.name
    ensures u.name == "" ==> r == u.email
  {
    if u.name != "" then u.name else u.email
  }

  datatype Issuance = Issuance(issued: Option<Token>, tokens: map<Id, Token>)

  /**
   * `testimonialToken.create`: a new, unexpiring token of `projectId`. The
   * datastore refuses a clash on the generated id or on the unique token value.
   */
  function Issue(tokens: map<Id, Token>, projectId: Id, description: Option<string>, createdBy: string,
                 value: string, newId: Id, now: Time, d: SchemaDefaults): (r: Issuance)
    requires TokensValid(tokens)
    ensures TokensValid(r.tokens)
    ensures r.issued.None? <==> newId in tokens || exists k :: k in tokens && tokens[k].token == value
    ensures r.issued.None? ==> r.tokens == tokens
    ensures r.issued.Some? ==>
              && r.tokens == tokens[newId := r.issued.value]
              && r.issued.value == Token(newId, value, projectId, description, createdBy,
                                         d.tokenUsed, d.tokenCancelled, None, now)
  {
    if newId in tokens || exists k :: k in tokens && tokens[k].token == value then
      Issuance(None, tokens)
    else
      var t := Token(newId, value, projectId, description, createdBy, d.tokenUsed, d.tokenCancelled, None, now);
      Issuance(Some(t), tokens[newId := t])
  }

  lemma IssueEvolves(tokens: map<Id, Token>, projectId: Id, description: Option<string>, createdBy: string,
                     value: string, newId: Id, now: Time, d: SchemaDefaults)
    requires TokensValid(tokens)
    ensures Evolves(tokens, Issue(tokens, projectId, description, createdBy, value, newId, now, d).tokens)
  {
  }

  // ----- The dashboard counters -----

  datatype Stats = Stats(total: nat, active: nat, used: nat, cancelled: nat)

  predicate IsActive(t: Token) { !t.used && !t.cancelled }
  predicate IsUsed(t: Token) { t.used }
  predicate IsCancelled(t: Token) { t.cancelled }
  predicate IsSpent(t: Token) { t.used || t.cancelled }
  predicate IsUsedAndCancelled(t: Token) { t.used && t.cancelled }

  /**
   * `getStats` over the tokens of the active project. Every token is active
   * or spent, never both, so `active` plus the spent tokens is `total`; and,
   * by inclusion-exclusion, active = total - used - cancelled + (used and cancelled).
   */
  function GetStats(ts: seq<Token>): (s: Stats)
    ensures s.total == |ts|
    ensures s.active + Count(ts, IsSpent) == s.total
    ensures s.active + s.used + s.cancelled == s.total + Count(ts, IsUsedAndCancelled)
    ensures s.active <= s.total && s.used <= s.total && s.cancelled <= s.total
  {
    CountComplement(ts, IsSpent, IsActive);
    CountUnion(ts, IsUsed, IsCancelled, IsUsedAndCancelled, IsSpent);
    Stats(|ts|, Count(ts, IsActive), Count(ts, IsUsed), Count(ts, IsCancelled))
  }

  lemma {:induction false} CountComplement<T>(s: seq<T>, p: T -> bool, q: T -> bool)
    requires forall x :: q(x) == !p(x)
    ensures Count(s, p) + Count(s, q) == |s|
  {
    if s != [] {
      CountComplement(s[1..], p, q);
    }
  }

  lemma {:induction false} CountUnion<T>(s: seq<T>, p: T -> bool, q: T -> bool, both: T -> bool, either: T -> bool)
    requires forall x :: both(x) == (p(x) && q(x))
    requires forall x :: either(x) == (p(x) || q(x))
    ensures Count(s, either) + Count(s, both) == Count(s, p) + Count(s, q)
  {
    if s != [] {
      CountUnion(s[1..], p, q, both, either);
    }
  }

  /** The tokens of one project, as the `where: { projectId }` filter of the queries. */
  function OfProject(projectId: Id): Token -> bool {
    (t: Token) => t.projectId == projectId
  }

  /**
   * The counters do not depend on the order the datastore lists the rows in:
   * each equals the number of matching tokens of the project in the table.
   */
  lemma StatsOfListing(rows: seq<Token>, tokens: map<Id, Token>, projectId: Id)
    requires Lists(rows, tokens, OfProject(projectId))
    ensures var s := GetStats(rows);
            && s.total == |Selected(tokens, OfProject(projectId))|
            && s.active == |SelectedWith(tokens, OfProject(projectId), IsActive)|
            && s.used == |SelectedWith(tokens, OfProject(projectId), IsUsed)|
            && s.cancelled == |SelectedWith(tokens, OfProject(projectId), IsCancelled)|
  {
    ListingSize(rows, tokens, OfProject(projectId));
    CountListing(rows, tokens, OfProject(projectId), IsActive);
    CountListing(rows, tokens, OfProject(projectId), IsUsed);
    CountListing(rows, tokens, OfProject(projectId), IsCancelled);
  }
}
