/**
 * The server action behind the public testimonial form: the same token guard
 * chain as the router's submission, but with the payload validated first and
 * every failure, datastore errors included, reported as a result.
 */
module TestimonialAction {
  import opened Wrappers
  import opened Records
  import opened Datastore
  import opened TokenLifecycle

  /** The action's result for each outcome of consuming the token. */
  function ActionReply(o: SubmitOutcome): (r: Reply)
    requires o != Rejected(Accepted)
    ensures r.success <==> o == Submitted
    ensures o.Rejected? ==> r == Fail(CheckMessage(o.check))
  {
    match o
    case Rejected(c) => Fail(CheckMessage(c))
    case Submitted => Ok()
    case StoreFailed => Fail("Failed to submit testimonial")
  }

  /**
   * `submitTestimonial`: invalid data is refused before the token is looked
   * up; then unknown, cancelled, used and expired tokens are refused in that
   * order; then the testimonial is created and the token marked used.
   */
  method SubmitTestimonial(db: Db, value: string, p: Payload, now: Time, newId: Id) returns (r: Reply)
    requires db.Valid()
    modifies db`tokens, db`testimonials
    ensures db.Valid()
    ensures PayloadErrors(p) != {} ==>
              && r == InvalidData(PayloadErrors(p))
              && db.tokens == old(db.tokens) && db.testimonials == old(db.testimonials)
    ensures PayloadErrors(p) == {} ==>
              var s := Submit(old(db.tokens), old(db.testimonials), value, p, now, newId, db.defaults);
              && db.tokens == s.tokens && db.testimonials == s.testimonials
              && r == ActionReply(s.outcome)
  {
    var errs := PayloadErrors(p);
    if errs != {} {
      return InvalidData(errs);
    }
    var outcome := Consume(db, value, p, now, newId);
    r := ActionReply(outcome);
  }

  /** Expiry is strict: a token that expires exactly now is still accepted. */
  lemma ExpiryIsStrict(tokens: map<Id, Token>, testimonials: map<Id, Testimonial>, value: string,
                       p: Payload, now: Time, newId: Id, d: SchemaDefaults)
    requires TokensValid(tokens) && TestimonialsValid(testimonials)
    requires PayloadErrors(p) == {} && newId !in testimonials
    requires TokenByValue(tokens, value).Some?
    requires var t := TokenByValue(tokens, value).value; !t.used && !t.cancelled && t.expiresAt == Some(now)
    ensures ActionReply(Submit(tokens, testimonials, value, p, now, newId, d).outcome) == Ok()
  {
  }
}
