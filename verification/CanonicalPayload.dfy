// The string both sides of a payment webhook sign. Its fields are joined with dots although an event id and an
// amount may contain dots themselves; it still determines the payload, so no signature fits two payloads.

module CanonicalPayload {
  import opened Options

  /** A positive number as text: "250", "1e-7", or with a decimal point after plain digits, "12.5". */
  datatype Amount = Amount(whole: string, fraction: Option<string>)

  datatype Kind = PaymentSucceeded | TournamentFeeSucceeded

  datatype Payload = Payload(kind: Kind, eventId: string, target: string, amount: Amount, timestamp: string)

  predicate NoDot(s: string) {
    forall i :: 0 <= i < |s| ==> s[i] != '.'
  }

  predicate Digits(s: string) {
    forall i :: 0 <= i < |s| ==> '0' <= s[i] <= '9'
  }

  /** 36 characters, hyphens among them, no dot. */
  predicate IsUuid(s: string) {
    |s| == 36 && NoDot(s) && s[8] == '-'
  }

  /** What the schema and the replay window let through: the event id is any text, and a timestamp near the present
      is printed as plain digits. */
  predicate WellFormed(p: Payload) {
    && IsUuid(p.target)
    && NoDot(p.timestamp)
    && NoDot(p.amount.whole)
    && (p.amount.fraction.Some? ==> Digits(p.amount.whole) && NoDot(p.amount.fraction.value))
  }

  function Dot(a: string, b: string): string {
    a + "." + b
  }

  function Subject(k: Kind): string {
    match k
    case PaymentSucceeded => "payment"
    case TournamentFeeSucceeded => "tournament_fee"
  }

  /** Everything before the amount. */
  function Head(p: Payload): string {
    Dot(Dot(Dot(p.eventId, Subject(p.kind)), "succeeded"), p.target)
  }

  function WithAmount(p: Payload): string {
    if p.amount.fraction.None? then Dot(Head(p), p.amount.whole)
    else Dot(Dot(Head(p), p.amount.whole), p.amount.fraction.value)
  }

  /** eventId.type.target.amount.timestamp */
  function Canonical(p: Payload): string {
    Dot(WithAmount(p), p.timestamp)
  }

  /** The string in full, for both kinds of event and both spellings of an amount. */
  lemma PaymentSpelledOut(e: string, booking: string, amount: string, ts: string)
    ensures Canonical(Payload(PaymentSucceeded, e, booking, Amount(amount, None), ts)) ==
      e + ".payment.succeeded." + booking + "." + amount + "." + ts
  {
    assert ".payment.succeeded." == "." + "payment" + "." + "succeeded" + ".";
    assert Head(Payload(PaymentSucceeded, e, booking, Amount(amount, None), ts)) == e + ".payment.succeeded." + booking;
  }

  lemma FeeSpelledOut(e: string, team: string, whole: string, fraction: string, ts: string)
    ensures Canonical(Payload(TournamentFeeSucceeded, e, team, Amount(whole, Some(fraction)), ts)) ==
      e + ".tournament_fee.succeeded." + team + "." + whole + "." + fraction + "." + ts
  {
    assert ".tournament_fee.succeeded." == "." + "tournament_fee" + "." + "succeeded" + ".";
    assert Head(Payload(TournamentFeeSucceeded, e, team, Amount(whole, Some(fraction)), ts)) == e + ".tournament_fee.succeeded." + team;
  }

  lemma DotInside(a: string, b: string, c: string, d: string)
    requires Dot(a, b) == Dot(c, d) && |a| < |c|
    ensures !NoDot(b)
  {
    assert Dot(c, d)[|c|] == '.';
    assert Dot(a, b)[|c|] == b[|c| - |a| - 1];
  }

  /** Cutting at the last dot is unambiguous. */
  lemma LastDot(a: string, b: string, c: string, d: string)
    requires NoDot(b) && NoDot(d) && Dot(a, b) == Dot(c, d)
    ensures a == c && b == d
  {
    var s := Dot(a, b);
    if |a| < |c| {
      DotInside(a, b, c, d);
      assert false;
    } else if |c| < |a| {
      DotInside(c, d, a, b);
      assert false;
    }
    assert a == s[..|a|] && c == s[..|c|];
    assert b == s[|a| + 1..] && d == s[|c| + 1..];
  }

  lemma SameHead(p: Payload, q: Payload)
    requires IsUuid(p.target) && IsUuid(q.target) && Head(p) == Head(q)
    ensures p.kind == q.kind && p.eventId == q.eventId && p.target == q.target
  {
    LastDot(Dot(Dot(p.eventId, Subject(p.kind)), "succeeded"), p.target, Dot(Dot(q.eventId, Subject(q.kind)), "succeeded"), q.target);
    LastDot(Dot(p.eventId, Subject(p.kind)), "succeeded", Dot(q.eventId, Subject(q.kind)), "succeeded");
    LastDot(p.eventId, Subject(p.kind), q.eventId, Subject(q.kind));
    assert |"payment"| != |"tournament_fee"|;
  }

  lemma UuidHasHyphen(s: string)
    requires IsUuid(s)
    ensures !Digits(s)
  {
    assert s[8] == '-';
  }

  /** An amount with a decimal point is never mistaken for a target followed by one without. */
  lemma AmountsAlign(p: Payload, q: Payload)
    requires WellFormed(p) && WellFormed(q) && p.amount.fraction.None? && q.amount.fraction.Some?
    ensures WithAmount(p) != WithAmount(q)
  {
    if WithAmount(p) == WithAmount(q) {
      LastDot(Head(p), p.amount.whole, Dot(Head(q), q.amount.whole), q.amount.fraction.value);
      LastDot(Dot(Dot(p.eventId, Subject(p.kind)), "succeeded"), p.target, Head(q), q.amount.whole);
      UuidHasHyphen(p.target);
      assert false;
    }
  }

  /** Equal signed strings come from equal payloads: in particular a signature for a booking never fits a
      tournament fee, nor another event, target, amount or time. */
  lemma CanonicalIsInjective(p: Payload, q: Payload)
    requires WellFormed(p) && WellFormed(q) && Canonical(p) == Canonical(q)
    ensures p == q
  {
    LastDot(WithAmount(p), p.timestamp, WithAmount(q), q.timestamp);
    if p.amount.fraction.None? && q.amount.fraction.None? {
      LastDot(Head(p), p.amount.whole, Head(q), q.amount.whole);
    } else if p.amount.fraction.Some? && q.amount.fraction.Some? {
      LastDot(Dot(Head(p), p.amount.whole), p.amount.fraction.value, Dot(Head(q), q.amount.whole), q.amount.fraction.value);
      LastDot(Head(p), p.amount.whole, Head(q), q.amount.whole);
    } else if p.amount.fraction.None? {
      AmountsAlign(p, q);
      assert false;
    } else {
      AmountsAlign(q, p);
      assert false;
    }
    SameHead(p, q);
  }

  /** The replay window is needed for that: the schema alone also takes whole numbers large enough to be printed
      with a point, and then two payloads can share a signed string. */
  lemma HugeTimestampsCollide(eventId: string, target: string)
    ensures var p := Payload(PaymentSucceeded, eventId, target, Amount("5", None), "1.5e+21");
      var q := Payload(PaymentSucceeded, eventId, target, Amount("5", Some("1")), "5e+21");
      p != q && Canonical(p) == Canonical(q)
  {
    var p := Payload(PaymentSucceeded, eventId, target, Amount("5", None), "1.5e+21");
    var q := Payload(PaymentSucceeded, eventId, target, Amount("5", Some("1")), "5e+21");
    var head := Dot(Head(p), "5") + ".";
    assert "1" + "." + "5e+21" == "1.5e+21";
    assert Canonical(p) == head + "1.5e+21";
    assert Canonical(q) == head + ("1" + "." + "5e+21");
  }
}
