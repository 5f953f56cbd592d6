/**
 * The bulk and transactional mail sender (server/email.ts).
 *
 * The mail provider is an oracle: for each recipient it either accepts the
 * message or throws a value. Sends that the source issues concurrently inside
 * one batch are issued here one after the other, in recipient order.
 */
module Email {
  import opened Wrappers
  import opened JsText
  import opened Seqs

  /** A value caught by `catch`: an `Error` instance with its message, or anything else. */
  datatype Thrown = ErrorInstance(message: string) | OtherValue

  /** What the provider does with one send call. */
  datatype SendOutcome = Accepted | Rejected(thrown: Thrown)

  type Provider = string -> SendOutcome

  /** The `NewsletterEmail` argument. */
  datatype NewsletterEmail = NewsletterEmail(
    subject: string,
    content: string,
    fromEmail: Option<string>,
    fromName: Option<string>)

  /** One call of the provider's send operation (the HTML body is not modelled). */
  datatype Delivery = Delivery(from: string, to: string, subject: string)

  /** The object `sendNewsletter` resolves to. */
  datatype Report = Report(success: bool, sent: nat, failed: nat, errors: seq<string>, bounced: seq<string>)

  /** What a run did besides its result: the batches in order, every send call,
      every `onBounce(email, message)` call, and the number of inter-batch pauses. */
  datatype Trace = Trace(
    batches: seq<seq<string>>,
    deliveries: seq<Delivery>,
    bounceCalls: seq<(string, string)>,
    delays: nat)

  const BatchSize: nat := 10
  const NotConfigured := "Email service is not configured. Please set RESEND_API_KEY environment variable."
  const DefaultFromEmail := "hello@vonai.com"
  const DefaultFromName := "von AI"
  const UnknownError := "Unknown error"
  const TransactionalFrom := "von AI <hello@vonai.com>"
  const WelcomeSubject := "Welcome to von AI Newsletter"
  const ResetSubject := "Reset Your Admin Password - von AI"

  /** The provider client is built only from a truthy `RESEND_API_KEY`. */
  predicate IsEmailServiceAvailable(apiKey: Option<string>) {
    apiKey.Some? && apiKey.value != ""
  }

  /** A JavaScript string is truthy when present and non-empty. */
  predicate Truthy(o: Option<string>) {
    o.Some? && o.value != ""
  }

  /** `o || fallback` on an optional string. */
  function OrElse(o: Option<string>, fallback: string): (r: string)
    ensures Truthy(o) ==> r == o.value
    ensures !Truthy(o) ==> r == fallback
  {
    if Truthy(o) then o.value else fallback
  }

  /** The `from` header of a newsletter. */
  function Sender(n: NewsletterEmail): string {
    OrElse(n.fromName, DefaultFromName) + " <" + OrElse(n.fromEmail, DefaultFromEmail) + ">"
  }

  /** The name and the address fall back to their defaults independently, an
      absent and an empty field alike. */
  lemma SenderDefaults(subject: string, content: string, e: Option<string>, m: Option<string>)
    ensures Sender(NewsletterEmail(subject, content, e, m))
         == (if Truthy(m) then m.value else "von AI") + " <" + (if Truthy(e) then e.value else "hello@vonai.com") + ">"
    ensures !Truthy(e) && !Truthy(m) ==> Sender(NewsletterEmail(subject, content, e, m)) == "von AI <hello@vonai.com>"
  {
  }

  /** The message recorded for a caught value. */
  function ErrorMessage(t: Thrown): string {
    match t
    case ErrorInstance(m) => m
    case OtherValue => UnknownError
  }

  /** Permanent-failure heuristic: a case-sensitive substring test. */
  predicate IsBounce(msg: string) {
    Includes(msg, "bounce") || Includes(msg, "invalid") || Includes(msg, "not found")
  }

  /** The test is case-sensitive: a capitalised "Invalid" alone is not a bounce. */
  lemma CapitalisedInvalidIsNotBounce()
    ensures !IsBounce("Invalid")
    ensures IsBounce("invalid")
  {
    assert StartsWith("invalid", "invalid");
    NoOccurrenceOfFirstChar("Invalid", "bounce");
    NoOccurrenceOfFirstChar("Invalid", "invalid");
    NoOccurrenceOfFirstChar("Invalid", "not found");
  }

  /** A pattern whose first character never appears where it could start is not included. */
  lemma NoOccurrenceOfFirstChar(s: string, p: string)
    requires p != []
    requires forall k :: 0 <= k <= |s| - |p| ==> s[k] != p[0]
    ensures !Includes(s, p)
  {
    IncludesAt(s, p);
    assert forall k :: !OccursAt(s, p, k);
  }

  /** One line of the `errors` list. */
  function ErrorLine(email: string, msg: string): string {
    "Failed to send to " + email + ": " + msg
  }

  // ---------------------------------------------------------------------------
  // Specification of the per-recipient accounting

  /** The counters and lists after some prefix of the recipients. */
  datatype Tally = Tally(
    sent: nat,
    failed: nat,
    errors: seq<string>,
    bounced: seq<string>,
    bounceCalls: seq<(string, string)>)

  /** The effect of one send on the tally; `notify` says whether `onBounce` was given. */
  function Attempt(t: Tally, email: string, provider: Provider, notify: bool): Tally {
    match provider(email)
    case Accepted => t.(sent := t.sent + 1)
    case Rejected(x) =>
      var msg := ErrorMessage(x);
      var t1 := t.(failed := t.failed + 1, errors := t.errors + [ErrorLine(email, msg)]);
      if IsBounce(msg) then
        t1.(bounced := t1.bounced + [email],
            bounceCalls := if notify then t1.bounceCalls + [(email, msg)] else t1.bounceCalls)
      else t1
  }

  /** The tally after attempting every recipient of `rs` in order. */
  function TallyOf(rs: seq<string>, provider: Provider, notify: bool): Tally
    decreases |rs|
  {
    if rs == [] then Tally(0, 0, [], [], [])
    else Attempt(TallyOf(rs[..|rs| - 1], provider, notify), rs[|rs| - 1], provider, notify)
  }

  predicate Fails(provider: Provider, email: string) {
    provider(email).Rejected?
  }

  /** The message of a failed recipient. */
  function MessageFor(provider: Provider, email: string): string
    requires Fails(provider, email)
  {
    ErrorMessage(provider(email).thrown)
  }

  predicate Bounces(provider: Provider, email: string) {
    Fails(provider, email) && IsBounce(MessageFor(provider, email))
  }

  /** Reference definitions: the failed and the bounced recipients, in order. */
  function FailedOf(rs: seq<string>, provider: Provider): (r: seq<string>)
    ensures forall k :: 0 <= k < |r| ==> Fails(provider, r[k])
    decreases |rs|
  {
    if rs == [] then [] else (if Fails(provider, rs[0]) then [rs[0]] else []) + FailedOf(rs[1..], provider)
  }

  function BouncedOf(rs: seq<string>, provider: Provider): seq<string>
    decreases |rs|
  {
    if rs == [] then [] else (if Bounces(provider, rs[0]) then [rs[0]] else []) + BouncedOf(rs[1..], provider)
  }

  /** The failed list holds exactly the recipients that failed. */
  lemma {:induction false} FailedMembers(rs: seq<string>, provider: Provider)
    ensures forall e :: e in FailedOf(rs, provider) <==> e in rs && Fails(provider, e)
    decreases |rs|
  {
    if rs != [] {
      FailedMembers(rs[1..], provider);
      assert forall e :: e in rs <==> e == rs[0] || e in rs[1..];
    }
  }

  /** The bounced list holds exactly the recipients that bounced. */
  lemma {:induction false} BouncedMembers(rs: seq<string>, provider: Provider)
    ensures forall e :: e in BouncedOf(rs, provider) <==> e in rs && Bounces(provider, e)
    decreases |rs|
  {
    if rs != [] {
      BouncedMembers(rs[1..], provider);
      assert forall e :: e in rs <==> e == rs[0] || e in rs[1..];
    }
  }

  lemma {:induction false} FailedOfAppend(rs: seq<string>, e: string, provider: Provider)
    ensures FailedOf(rs + [e], provider) == FailedOf(rs, provider) + FailedOf([e], provider)
    decreases |rs|
  {
    if rs != [] {
      var h := if Fails(provider, rs[0]) then [rs[0]] else [];
      assert (rs + [e])[0] == rs[0] && (rs + [e])[1..] == rs[1..] + [e];
      assert FailedOf(rs + [e], provider) == h + FailedOf(rs[1..] + [e], provider);
      FailedOfAppend(rs[1..], e, provider);
      AppendAssoc(h, FailedOf(rs[1..], provider), FailedOf([e], provider));
    } else {
      assert rs + [e] == [e];
    }
  }

  lemma {:induction false} BouncedOfAppend(rs: seq<string>, e: string, provider: Provider)
    ensures BouncedOf(rs + [e], provider) == BouncedOf(rs, provider) + BouncedOf([e], provider)
    decreases |rs|
  {
    if rs != [] {
      var h := if Bounces(provider, rs[0]) then [rs[0]] else [];
      assert (rs + [e])[0] == rs[0] && (rs + [e])[1..] == rs[1..] + [e];
      assert BouncedOf(rs + [e], provider) == h + BouncedOf(rs[1..] + [e], provider);
      BouncedOfAppend(rs[1..], e, provider);
      AppendAssoc(h, BouncedOf(rs[1..], provider), BouncedOf([e], provider));
    } else {
      assert rs + [e] == [e];
    }
  }

  /** The `onBounce` calls that the bounced recipients give rise to. */
  function BounceCallsFor(bs: seq<string>, provider: Provider): (r: seq<(string, string)>)
    requires forall e :: e in bs ==> Fails(provider, e)
    ensures |r| == |bs|
    ensures forall k :: 0 <= k < |bs| ==> r[k] == (bs[k], MessageFor(provider, bs[k]))
  {
    seq(|bs|, k requires 0 <= k < |bs| => (bs[k], MessageFor(provider, bs[k])))
  }

  /** One attempt adds exactly one to `sent` or to `failed`, and one error line per failure. */
  lemma AttemptCounts(t: Tally, email: string, provider: Provider, notify: bool)
    ensures var t' := Attempt(t, email, provider, notify);
      && t'.sent == t.sent + (if Fails(provider, email) then 0 else 1)
      && t'.failed == t.failed + (if Fails(provider, email) then 1 else 0)
      && |t'.errors| == |t.errors| + (if Fails(provider, email) then 1 else 0)
  {
  }

  /** Every recipient is counted exactly once, as sent or as failed, and there
      is one error line per failure. */
  lemma {:induction false} TallyCounts(rs: seq<string>, provider: Provider, notify: bool)
    ensures TallyOf(rs, provider, notify).sent + TallyOf(rs, provider, notify).failed == |rs|
    ensures TallyOf(rs, provider, notify).failed == |FailedOf(rs, provider)|
    ensures |TallyOf(rs, provider, notify).errors| == TallyOf(rs, provider, notify).failed
    decreases |rs|
  {
    if rs != [] {
      var init, e := rs[..|rs| - 1], rs[|rs| - 1];
      assert rs == init + [e];
      TallyCounts(init, provider, notify);
      FailedOfAppend(init, e, provider);
      AttemptCounts(TallyOf(init, provider, notify), e, provider, notify);
    }
  }

  /** The k-th error line names the k-th failed recipient and its message. */
  lemma {:induction false} TallyErrors(rs: seq<string>, provider: Provider, notify: bool)
    ensures |TallyOf(rs, provider, notify).errors| == |FailedOf(rs, provider)|
    ensures forall k :: 0 <= k < |FailedOf(rs, provider)| ==>
      TallyOf(rs, provider, notify).errors[k] == ErrorLine(FailedOf(rs, provider)[k], MessageFor(provider, FailedOf(rs, provider)[k]))
    decreases |rs|
  {
    if rs != [] {
      var init, e := rs[..|rs| - 1], rs[|rs| - 1];
      assert rs == init + [e];
      TallyErrors(init, provider, notify);
      FailedOfAppend(init, e, provider);
      TallySnoc(init, e, provider, notify);
      var t0, f0 := TallyOf(init, provider, notify), FailedOf(init, provider);
      var t, f := TallyOf(rs, provider, notify), FailedOf(rs, provider);
      if Fails(provider, e) {
        assert f == f0 + [e];
        assert t.errors == t0.errors + [ErrorLine(e, MessageFor(provider, e))];
        forall k | 0 <= k < |f0|
          ensures t.errors[k] == ErrorLine(f[k], MessageFor(provider, f[k]))
        {
          assert t.errors[k] == t0.errors[k] && f[k] == f0[k];
        }
      } else {
        assert f == f0;
        assert t.errors == t0.errors;
      }
    }
  }

  /** The bounced list is exactly the failed recipients whose message matches
      the bounce heuristic, in recipient order. */
  lemma {:induction false} TallyBounced(rs: seq<string>, provider: Provider, notify: bool)
    ensures TallyOf(rs, provider, notify).bounced == BouncedOf(rs, provider)
    decreases |rs|
  {
    if rs != [] {
      var init, e := rs[..|rs| - 1], rs[|rs| - 1];
      assert rs == init + [e];
      TallyBounced(init, provider, notify);
      BouncedOfAppend(init, e, provider);
    }
  }

  /** `onBounce` is called once per bounced recipient, with its message, when
      it is given, and never when it is not. */
  lemma {:induction false} TallyBounceCalls(rs: seq<string>, provider: Provider, notify: bool)
    ensures var t := TallyOf(rs, provider, notify);
      (forall e :: e in t.bounced ==> Fails(provider, e)) &&
      t.bounceCalls == if notify then BounceCallsFor(t.bounced, provider) else []
    decreases |rs|
  {
    if rs != [] {
      var init, e := rs[..|rs| - 1], rs[|rs| - 1];
      TallyBounceCalls(init, provider, notify);
      var t0 := TallyOf(init, provider, notify);
      if notify && Bounces(provider, e) {
        var t := TallyOf(rs, provider, notify);
        assert t.bounced == t0.bounced + [e];
        assert t.bounceCalls == t0.bounceCalls + [(e, MessageFor(provider, e))];
      }
    }
  }

  /** Consequences for membership: a recipient is reported bounced iff it failed
      with a bounce message, so every bounced recipient is a failed one, and a
      delivered recipient never reaches `onBounce`. */
  lemma BouncedAreFailed(rs: seq<string>, provider: Provider, notify: bool, e: string)
    ensures e in TallyOf(rs, provider, notify).bounced <==> e in rs && Bounces(provider, e)
    ensures e in TallyOf(rs, provider, notify).bounced ==> e in FailedOf(rs, provider)
    ensures (forall c :: c in TallyOf(rs, provider, notify).bounceCalls ==> c.0 != e) <== !Fails(provider, e)
  {
    TallyBounced(rs, provider, notify);
    TallyBounceCalls(rs, provider, notify);
    BouncedMembers(rs, provider);
    FailedMembers(rs, provider);
    var t := TallyOf(rs, provider, notify);
    if !Fails(provider, e) && notify {
      forall c | c in t.bounceCalls ensures c.0 != e {
        var k :| 0 <= k < |t.bounceCalls| && t.bounceCalls[k] == c;
        assert t.bounced[k] in t.bounced;
      }
    }
  }

  /** The report built from a finished tally. */
  function ReportOf(t: Tally): (r: Report)
    ensures r.success <==> r.failed == 0
    ensures (r.sent, r.failed, r.errors, r.bounced) == (t.sent, t.failed, t.errors, t.bounced)
  {
    Report(t.failed == 0, t.sent, t.failed, t.errors, t.bounced)
  }

  // ---------------------------------------------------------------------------
  // Batching

  function Min(a: int, b: int): int { if a < b then a else b }

  /** The number of batches of at most `BatchSize` that `n` recipients make. */
  function BatchCount(n: nat): nat { (n + BatchSize - 1) / BatchSize }

  /** The k-th batch: `subscribers.slice(10 * k, 10 * k + 10)`. */
  function BatchSlice(s: seq<string>, k: nat): (r: seq<string>)
    ensures |r| <= BatchSize
  {
    var lo := Min(k * 10, |s|);
    s[lo..Min(lo + 10, |s|)]
  }

  /** Concatenation of a list of batches. */
  function Flatten(bs: seq<seq<string>>): seq<string>
    decreases |bs|
  {
    if bs == [] then [] else Flatten(bs[..|bs| - 1]) + bs[|bs| - 1]
  }

  /** The first `k` batches of `s`, in order. */
  function Batches(s: seq<string>, k: nat): (r: seq<seq<string>>)
    ensures |r| == k
    decreases k
  {
    if k == 0 then [] else Batches(s, k - 1) + [BatchSlice(s, k - 1)]
  }

  /** Every batch the loop over `s` makes. */
  function BatchesOf(s: seq<string>): seq<seq<string>> {
    Batches(s, BatchCount(|s|))
  }

  /** The j-th batch is the j-th slice of ten. */
  lemma {:induction false} BatchesAt(s: seq<string>, k: nat)
    ensures forall j :: 0 <= j < k ==> Batches(s, k)[j] == BatchSlice(s, j)
    decreases k
  {
    if k > 0 {
      BatchesAt(s, k - 1);
    }
  }

  /** The first `k` batches together are the first `10 k` recipients. */
  lemma {:induction false} FlattenBatches(s: seq<string>, k: nat)
    ensures Flatten(Batches(s, k)) == s[..Min(k * BatchSize, |s|)]
    decreases k
  {
    if k > 0 {
      FlattenBatches(s, k - 1);
      assert Batches(s, k)[..k - 1] == Batches(s, k - 1);
      var lo := Min((k - 1) * BatchSize, |s|);
      assert Min(lo + BatchSize, |s|) == Min(k * BatchSize, |s|);
      assert s[..lo] + s[lo..Min(lo + BatchSize, |s|)] == s[..Min(k * BatchSize, |s|)];
    }
  }

  /** The batches hold every recipient exactly once, in order. */
  lemma BatchesCover(s: seq<string>)
    ensures Flatten(BatchesOf(s)) == s
  {
    FlattenBatches(s, BatchCount(|s|));
    BatchArithmetic(|s|, BatchCount(|s|));
    assert s[..|s|] == s;
  }

  /** Each batch holds between one and ten recipients. */
  lemma BatchSizes(s: seq<string>)
    ensures forall j :: 0 <= j < |BatchesOf(s)| ==> 1 <= |BatchesOf(s)[j]| <= BatchSize
  {
    BatchesAt(s, BatchCount(|s|));
    forall j | 0 <= j < |BatchesOf(s)| ensures 1 <= |BatchesOf(s)[j]| <= BatchSize {
      BatchArithmetic(|s|, j);
    }
  }

  /** The send calls made for `rs`, in order. */
  function DeliveriesFor(from: string, rs: seq<string>, subject: string): (r: seq<Delivery>)
    ensures |r| == |rs|
    decreases |rs|
  {
    if rs == [] then []
    else DeliveriesFor(from, rs[..|rs| - 1], subject) + [Delivery(from, rs[|rs| - 1], subject)]
  }

  /** Attempting one more recipient is one more `Attempt` on the tally. */
  lemma TallySnoc(rs: seq<string>, e: string, provider: Provider, notify: bool)
    ensures TallyOf(rs + [e], provider, notify) == Attempt(TallyOf(rs, provider, notify), e, provider, notify)
  {
    assert (rs + [e])[..|rs|] == rs;
  }

  /** One more recipient is one more send call. */
  lemma DeliveriesSnoc(from: string, rs: seq<string>, e: string, subject: string)
    ensures DeliveriesFor(from, rs + [e], subject) == DeliveriesFor(from, rs, subject) + [Delivery(from, e, subject)]
  {
    assert (rs + [e])[..|rs|] == rs;
  }

  /** The k-th send call goes to the k-th recipient, from `from`, with `subject`. */
  lemma {:induction false} DeliveriesAt(from: string, rs: seq<string>, subject: string)
    ensures forall k :: 0 <= k < |rs| ==> DeliveriesFor(from, rs, subject)[k] == Delivery(from, rs[k], subject)
    decreases |rs|
  {
    if rs != [] {
      DeliveriesAt(from, rs[..|rs| - 1], subject);
    }
  }

  /** The send calls for consecutive batches concatenate. */
  lemma {:induction false} DeliveriesAppend(from: string, a: seq<string>, b: seq<string>, subject: string)
    ensures DeliveriesFor(from, a + b, subject) == DeliveriesFor(from, a, subject) + DeliveriesFor(from, b, subject)
    decreases |b|
  {
    if b != [] {
      var b', e := b[..|b| - 1], b[|b| - 1];
      assert b == b' + [e];
      assert a + b == (a + b') + [e];
      DeliveriesAppend(from, a, b', subject);
      DeliveriesSnoc(from, a + b', e, subject);
      DeliveriesSnoc(from, b', e, subject);
    } else {
      assert a + b == a;
    }
  }

  /** The loop over `n` recipients runs `ceil(n / 10)` times: batch `b` starts
      inside the list exactly when `b` is below that count. */
  lemma BatchArithmetic(n: nat, b: nat)
    ensures b * 10 < n <==> b < BatchCount(n)
    ensures b * 10 >= n && (b == 0 || (b - 1) * 10 < n) ==> b == BatchCount(n)
    ensures BatchCount(n) * 10 >= n
  {
  }

  /**
   * The per-recipient callback of a batch: one send call; a success
   * increments `sent`; a failure increments `failed` and appends its error
   * line, and when its message is a bounce appends the recipient to `bounced`
   * and calls `onBounce` (when `notify`).
   */
  method SendOne(email: string, from: string, subject: string, provider: Provider, notify: bool, t: Tally)
    returns (t': Tally, delivery: Delivery)
    ensures t' == Attempt(t, email, provider, notify)
    ensures delivery == Delivery(from, email, subject)
  {
    delivery := Delivery(from, email, subject);
    t' := t;
    match provider(email) {
      case Accepted =>
        t' := t'.(sent := t'.sent + 1);
      case Rejected(x) =>
        var errorMessage := ErrorMessage(x);
        t' := t'.(failed := t'.failed + 1, errors := t'.errors + [ErrorLine(email, errorMessage)]);
        if IsBounce(errorMessage) {
          t' := t'.(bounced := t'.bounced + [email]);
          if notify {
            t' := t'.(bounceCalls := t'.bounceCalls + [(email, errorMessage)]);
          }
        }
    }
  }

  /** One batch of `sendNewsletter`: the callback for each of its recipients, in order. */
  method SendBatch(batch: seq<string>, from: string, subject: string, provider: Provider, notify: bool,
                   ghost done: seq<string>, t: Tally, deliveries: seq<Delivery>)
    returns (t': Tally, deliveries': seq<Delivery>)
    requires t == TallyOf(done, provider, notify)
    ensures t' == TallyOf(done + batch, provider, notify)
    ensures deliveries' == deliveries + DeliveriesFor(from, batch, subject)
  {
    t' := t;
    deliveries' := deliveries;
    var j := 0;
    assert done + batch[..0] == done;
    while j < |batch|
      invariant 0 <= j <= |batch|
      invariant t' == TallyOf(done + batch[..j], provider, notify)
      invariant deliveries' == deliveries + DeliveriesFor(from, batch[..j], subject)
    {
      var email := batch[j];
      var delivery;
      t', delivery := SendOne(email, from, subject, provider, notify, t');
      assert batch[..j + 1] == batch[..j] + [email];
      assert done + batch[..j + 1] == (done + batch[..j]) + [email];
      TallySnoc(done + batch[..j], email, provider, notify);
      DeliveriesSnoc(from, batch[..j], email, subject);
      AppendAssoc(deliveries, DeliveriesFor(from, batch[..j], subject), [delivery]);
      deliveries' := deliveries' + [delivery];
      j := j + 1;
    }
    assert batch[..j] == batch;
  }

  /** The state of `sendNewsletter` when its loop offset is `i`: the batches so
      far, and the tally and send calls of every recipient they hold. */
  ghost predicate SentUpTo(s: seq<string>, i: nat, from: string, subject: string, provider: Provider, notify: bool,
                           batches: seq<seq<string>>, tally: Tally, deliveries: seq<Delivery>, delays: nat)
  {
    && i == |batches| * BatchSize
    && (i >= |s| ==> i == 0 || i - BatchSize < |s|)
    && batches == Batches(s, |batches|)
    && tally == TallyOf(s[..Min(i, |s|)], provider, notify)
    && deliveries == DeliveriesFor(from, s[..Min(i, |s|)], subject)
    && delays == (if i == 0 then 0 else if i < |s| then |batches| else |batches| - 1)
  }

  /**
   * One pass of the outer loop of `sendNewsletter`, at offset `i`: the next
   * batch of at most ten recipients is sent, and a pause follows unless it
   * was the last batch.
   */
  method SendRound(subscribers: seq<string>, i: nat, from: string, subject: string, provider: Provider,
                   notify: bool, batches: seq<seq<string>>, tally: Tally, deliveries: seq<Delivery>, delays: nat)
    returns (batches': seq<seq<string>>, tally': Tally, deliveries': seq<Delivery>, delays': nat)
    requires i < |subscribers|
    requires SentUpTo(subscribers, i, from, subject, provider, notify, batches, tally, deliveries, delays)
    ensures SentUpTo(subscribers, i + BatchSize, from, subject, provider, notify, batches', tally', deliveries', delays')
    ensures batches' == batches + [BatchSlice(subscribers, |batches|)]
  {
    var end := Min(i + BatchSize, |subscribers|);
    var batch := subscribers[i..end];
    assert Min(i, |subscribers|) == i && Min(i + BatchSize, |subscribers|) == end;
    assert subscribers[..i] + batch == subscribers[..end];
    tally', deliveries' := SendBatch(batch, from, subject, provider, notify, subscribers[..i], tally, deliveries);
    DeliveriesAppend(from, subscribers[..i], batch, subject);
    assert batch == BatchSlice(subscribers, |batches|) by {
      assert Min(|batches| * 10, |subscribers|) == i;
    }
    batches' := batches + [batch];
    assert batches' == Batches(subscribers, |batches'|);
    delays' := delays;
    if i + BatchSize < |subscribers| {
      // the source waits one second here before the next batch
      delays' := delays + 1;
    }
  }

  /**
   * The configured path of `sendNewsletter`: walks the recipients in
   * consecutive batches of at most ten, sends to each recipient once, counts
   * and records each failure, reports bounces (and calls `onBounce` when
   * `notify`), and pauses between batches.
   */
  method SendAll(subscribers: seq<string>, from: string, subject: string, provider: Provider, notify: bool)
    returns (tally: Tally, trace: Trace)
    ensures tally == TallyOf(subscribers, provider, notify)
    ensures trace.bounceCalls == tally.bounceCalls
    ensures trace.deliveries == DeliveriesFor(from, subscribers, subject)
    ensures trace.batches == BatchesOf(subscribers)
    ensures trace.delays == (if subscribers == [] then 0 else |trace.batches| - 1)
  {
    tally := Tally(0, 0, [], [], []);
    var batches: seq<seq<string>> := [];
    var deliveries: seq<Delivery> := [];
    var delays: nat := 0;
    var n := |subscribers|;

    var i := 0;
    while i < n
      invariant SentUpTo(subscribers, i, from, subject, provider, notify, batches, tally, deliveries, delays)
    {
      batches, tally, deliveries, delays :=
        SendRound(subscribers, i, from, subject, provider, notify, batches, tally, deliveries, delays);
      i := i + BatchSize;
    }
    BatchArithmetic(n, |batches|);
    assert Min(i, n) == n;
    assert subscribers[..n] == subscribers;
    trace := Trace(batches, deliveries, tally.bounceCalls, delays);
  }

  /**
   * `sendNewsletter`. Fails before any send when the service is unconfigured;
   * otherwise sends from the newsletter's sender and reports the tally.
   */
  method SendNewsletter(subscribers: seq<string>, newsletter: NewsletterEmail, apiKey: Option<string>,
                        provider: Provider, notify: bool)
    returns (r: Result<Report, string>, trace: Trace)
    ensures !IsEmailServiceAvailable(apiKey) ==>
      r == Failure(NotConfigured) && trace == Trace([], [], [], 0)
    ensures IsEmailServiceAvailable(apiKey) ==>
      && r == Success(ReportOf(TallyOf(subscribers, provider, notify)))
      && trace.bounceCalls == TallyOf(subscribers, provider, notify).bounceCalls
      && trace.deliveries == DeliveriesFor(Sender(newsletter), subscribers, newsletter.subject)
    ensures IsEmailServiceAvailable(apiKey) ==>
      && trace.batches == BatchesOf(subscribers)
      && trace.delays == (if subscribers == [] then 0 else |trace.batches| - 1)
  {
    if !IsEmailServiceAvailable(apiKey) {
      return Failure(NotConfigured), Trace([], [], [], 0);
    }
    var tally;
    tally, trace := SendAll(subscribers, Sender(newsletter), newsletter.subject, provider, notify);
    r := Success(ReportOf(tally));
  }

  // ---------------------------------------------------------------------------
  // Transactional mail

  /** How a call ends: it resolves, or it rejects with a value. */
  datatype Completion = Returned | Threw(value: Thrown)

  /** The send calls a transactional mail made, and how it ended. */
  datatype MailRun = MailRun(deliveries: seq<Delivery>, completion: Completion)

  /** `sendWelcomeEmail`: skipped without error when unconfigured; a send
      failure is logged and swallowed. */
  function SendWelcomeEmail(email: string, apiKey: Option<string>, provider: Provider): (r: MailRun)
    ensures r.completion == Returned
    ensures r.deliveries == if IsEmailServiceAvailable(apiKey) then [Delivery(TransactionalFrom, email, WelcomeSubject)] else []
  {
    if !IsEmailServiceAvailable(apiKey) then MailRun([], Returned)
    else MailRun([Delivery(TransactionalFrom, email, WelcomeSubject)], Returned)
  }

  /** `sendPasswordResetEmail`: skipped without error when unconfigured; a send
      failure is logged and rethrown unchanged. */
  function SendPasswordResetEmail(email: string, apiKey: Option<string>, provider: Provider): (r: MailRun)
    ensures r.deliveries == if IsEmailServiceAvailable(apiKey) then [Delivery(TransactionalFrom, email, ResetSubject)] else []
    ensures r.completion.Threw? <==> IsEmailServiceAvailable(apiKey) && Fails(provider, email)
    ensures r.completion.Threw? ==> r.completion.value == provider(email).thrown
  {
    if !IsEmailServiceAvailable(apiKey) then MailRun([], Returned)
    else
      var d := [Delivery(TransactionalFrom, email, ResetSubject)];
      match provider(email)
      case Accepted => MailRun(d, Returned)
      case Rejected(x) => MailRun(d, Threw(x))
  }
}
