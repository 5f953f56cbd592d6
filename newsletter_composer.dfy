/**
 * The admin newsletter composer (client/src/pages/admin/Newsletter.tsx): the
 * active-subscriber list, the labels that pluralise its count, the guards of
 * the send button, and the form reset after a successful send.
 *
 * The subscriber list is `None` until the query has data. Toasts and the
 * issued send requests are recorded in order; the request itself is not part
 * of this model.
 */
module NewsletterComposer {
  import opened Wrappers
  import opened JsText
  import opened Seqs

  /** A subscriber as `GET /api/admin/subscribers` lists it. */
  datatype Subscriber = Subscriber(email: string, status: string)

  const Active := "active"

  // ---------------------------------------------------------------------------
  // Active subscribers and the labels

  /** `.filter(s => s.status === "active")` */
  function ActiveOf(ss: seq<Subscriber>): (r: seq<Subscriber>)
    ensures |r| <= |ss|
    ensures forall s :: s in r <==> s in ss && s.status == Active
    decreases |ss|
  {
    if ss == [] then []
    else (if ss[0].status == Active then [ss[0]] else []) + ActiveOf(ss[1..])
  }

  /** `activeSubscribers`: none before data arrives. */
  function ActiveSubscribers(data: Option<seq<Subscriber>>): (r: seq<Subscriber>)
    ensures data.None? ==> r == []
    ensures data.Some? ==> r == ActiveOf(data.value)
  {
    if data.None? then [] else ActiveOf(data.value)
  }

  /** The filter works element by element, keeping the order: it distributes over concatenation. */
  lemma {:induction false} ActiveAppend(a: seq<Subscriber>, b: seq<Subscriber>)
    ensures ActiveOf(a + b) == ActiveOf(a) + ActiveOf(b)
    decreases |a|
  {
    if a == [] {
      assert a + b == b;
    } else {
      assert (a + b)[0] == a[0] && (a + b)[1..] == a[1..] + b;
      ActiveAppend(a[1..], b);
      var h := if a[0].status == Active then [a[0]] else [];
      assert ActiveOf(a + b) == h + (ActiveOf(a[1..]) + ActiveOf(b));
      AppendAssoc(h, ActiveOf(a[1..]), ActiveOf(b));
    }
  }

  /** A list of active subscribers is kept whole. */
  lemma {:induction false} ActiveKeepsActive(ss: seq<Subscriber>)
    requires forall k :: 0 <= k < |ss| ==> ss[k].status == Active
    ensures ActiveOf(ss) == ss
    decreases |ss|
  {
    if ss != [] {
      ActiveKeepsActive(ss[1..]);
      assert ss == [ss[0]] + ss[1..];
    }
  }

  /** `count !== 1 ? "s" : ""` */
  function Plural(n: nat): (r: string)
    ensures r == "" <==> n == 1
    ensures r != "" ==> r == "s"
  {
    if n != 1 then "s" else ""
  }

  /** The count under the page title. */
  function SubscriberCountLabel(n: nat): string {
    NatToString(n) + " active subscriber" + Plural(n)
  }

  /** The send button's caption. */
  function SendButtonLabel(n: nat, pending: bool): (r: string)
    ensures pending ==> r == "Sending..."
    ensures !pending ==> r == "Send to " + NatToString(n) + " Subscriber" + Plural(n)
  {
    if pending then "Sending..." else "Send to " + NatToString(n) + " Subscriber" + Plural(n)
  }

  /** The labels end in "s" exactly when the count is not one. */
  lemma LabelsPluralIffNotOne(n: nat)
    ensures var l := SubscriberCountLabel(n); l[|l| - 1] == 's' <==> n != 1
    ensures var b := SendButtonLabel(n, false); b[|b| - 1] == 's' <==> n != 1
  {
    var l := SubscriberCountLabel(n);
    var b := SendButtonLabel(n, false);
    if n == 1 {
      assert l == NatToString(n) + " active subscriber";
      assert b == "Send to " + NatToString(n) + " Subscriber";
    }
  }

  // ---------------------------------------------------------------------------
  // Sending

  datatype Toast = Toast(title: string, description: string, destructive: bool)

  const MissingInformation := Toast("Missing information", "Please provide both subject and content", true)
  const NoSubscribers := Toast("No subscribers", "You need active subscribers to send a newsletter", true)

  function SentToast(sent: int): Toast {
    Toast("Newsletter sent successfully", "Sent to " + IntToString(sent) + " subscribers", false)
  }

  function FailedToast(message: string): Toast {
    Toast("Failed to send newsletter", message, true)
  }

  /** What `handleSend` does: the blank check comes before the subscriber check. */
  datatype SendDecision = RejectMissing | RejectNoSubscribers | IssueSend

  function Decide(subject: string, content: string, activeCount: nat): SendDecision {
    if Trim(subject) == [] || Trim(content) == [] then RejectMissing
    else if activeCount == 0 then RejectNoSubscribers
    else IssueSend
  }

  /** A blank subject or content is refused first; otherwise an empty audience
      is refused; a send is issued exactly when neither holds. */
  lemma DecideGuards(subject: string, content: string, activeCount: nat)
    ensures Decide(subject, content, activeCount) == IssueSend
      <==> !IsBlank(subject) && !IsBlank(content) && activeCount > 0
    ensures Decide(subject, content, activeCount) == RejectMissing
      <==> IsBlank(subject) || IsBlank(content)
    ensures Decide(subject, content, activeCount) == RejectNoSubscribers
      <==> !IsBlank(subject) && !IsBlank(content) && activeCount == 0
  {
    TrimBlank(subject);
    TrimBlank(content);
  }

  class Composer {
    var subject: string
    var content: string
    /** The toasts shown so far, oldest first. */
    var toasts: seq<Toast>
    /** The bodies `{ subject, content }` of the send requests issued so far. */
    var sent: seq<(string, string)>

    constructor ()
      ensures subject == "" && content == "" && toasts == [] && sent == []
    {
      subject, content, toasts, sent := "", "", [], [];
    }

    method SetSubject(value: string)
      modifies this
      ensures subject == value
      ensures content == old(content) && toasts == old(toasts) && sent == old(sent)
    {
      subject := value;
    }

    method SetContent(value: string)
      modifies this
      ensures content == value
      ensures subject == old(subject) && toasts == old(toasts) && sent == old(sent)
    {
      content := value;
    }

    /** `handleSend` with the current active subscribers: the guards of
        `Decide`, in their order, then the send request. */
    method HandleSend(active: seq<Subscriber>)
      modifies this
      ensures subject == old(subject) && content == old(content)
      ensures var d := Decide(old(subject), old(content), |active|);
        && (d == RejectMissing ==> toasts == old(toasts) + [MissingInformation] && sent == old(sent))
        && (d == RejectNoSubscribers ==> toasts == old(toasts) + [NoSubscribers] && sent == old(sent))
        && (d == IssueSend ==> toasts == old(toasts) && sent == old(sent) + [(old(subject), old(content))])
    {
      var d := Decide(subject, content, |active|);
      match d {
        case RejectMissing =>
          toasts := toasts + [MissingInformation];
        case RejectNoSubscribers =>
          toasts := toasts + [NoSubscribers];
        case IssueSend =>
          sent := sent + [(subject, content)];
      }
    }

    /** The send's `onSuccess`: a toast with the reported count, and an empty form. */
    method OnSendSuccess(sentCount: int)
      modifies this
      ensures subject == "" && content == ""
      ensures toasts == old(toasts) + [SentToast(sentCount)] && sent == old(sent)
    {
      toasts := toasts + [SentToast(sentCount)];
      subject := "";
      content := "";
    }

    /** The send's `onError`: a toast, and the form kept for another try. */
    method OnSendError(message: string)
      modifies this
      ensures subject == old(subject) && content == old(content)
      ensures toasts == old(toasts) + [FailedToast(message)] && sent == old(sent)
    {
      toasts := toasts + [FailedToast(message)];
    }
  }

  /** After a successful send the composer refuses to send again until both
      fields are filled in anew. */
  method SendTwice(c: Composer, active: seq<Subscriber>)
    requires |active| > 0 && !IsBlank(c.subject) && !IsBlank(c.content)
    modifies c
    ensures c.sent == old(c.sent) + [(old(c.subject), old(c.content))]
    ensures c.toasts != [] && c.toasts[|c.toasts| - 1] == MissingInformation
  {
    DecideGuards(c.subject, c.content, |active|);
    c.HandleSend(active);
    c.OnSendSuccess(|active|);
    assert Decide(c.subject, c.content, |active|) == RejectMissing;
    c.HandleSend(active);
  }
}
