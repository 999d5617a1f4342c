/** How queued messages look on the wire: a message equal to the one sent before it gets an invisible suffix. */
module WireForm {

  /** A space and the bytes of an invisible character. */
  const TRANSPARENT: string := " \U{E2}\U{81}\U{AD}"

  const CRLF: string := "\r\n"

  function Decorate(message: string, previous: string): string {
    if message == previous then message + TRANSPARENT else message
  }

  /** What is written for the messages, in order, when `previous` was written last. */
  function Wire(previous: string, messages: seq<string>): (w: seq<string>)
    ensures |w| == |messages|
  {
    if messages == [] then []
    else
      var front := Wire(previous, messages[..|messages| - 1]);
      front + [Decorate(messages[|messages| - 1], Last(front, previous))]
  }

  function Last(texts: seq<string>, default: string): string {
    if texts == [] then default else texts[|texts| - 1]
  }

  ghost predicate NoRepeats(texts: seq<string>) {
    forall i :: 0 < i < |texts| ==> texts[i - 1] != texts[i]
  }

  lemma NextIsDifferent(texts: seq<string>, message: string)
    requires NoRepeats(texts)
    ensures NoRepeats(texts + [Decorate(message, Last(texts, ""))])
  {
    assert |message + TRANSPARENT| > |message|;
  }

  lemma WireSnoc(previous: string, messages: seq<string>, message: string)
    ensures Wire(previous, messages + [message])
         == Wire(previous, messages) + [Decorate(message, Last(Wire(previous, messages), previous))]
  {
    assert (messages + [message])[..|messages|] == messages;
  }

  /** Up to the suffix, the wire carries the messages. */
  lemma {:induction false} WireCarriesMessages(previous: string, messages: seq<string>, i: nat)
    requires i < |messages|
    ensures var w := Wire(previous, messages);
      w[i] == if messages[i] == (if i == 0 then previous else w[i - 1]) then messages[i] + " \U{E2}\U{81}\U{AD}"
              else messages[i]
    decreases |messages|
  {
    if i < |messages| - 1 {
      WireCarriesMessages(previous, messages[..|messages| - 1], i);
    }
  }

  /** A block of identical messages alternates between the plain and the suffixed form. */
  lemma {:induction false} IdenticalMessagesAlternate(previous: string, message: string, n: nat, i: nat)
    requires i < n
    ensures var plainFirst := previous != message;
      Wire(previous, seq(n, _ => message))[i] == if (i % 2 == 0) == plainFirst then message else message + TRANSPARENT
    decreases i
  {
    var messages := seq(n, _ => message);
    WireCarriesMessages(previous, messages, i);
    if i > 0 {
      IdenticalMessagesAlternate(previous, message, n, i - 1);
      assert |message + TRANSPARENT| > |message|;
    }
  }

  /** wire is everything ever written; from position base on it is what the messages sent give. */
  ghost predicate WireOk(wire: seq<string>, base: nat, sent: seq<string>, last: string) {
    && |wire| == base + |sent|
    && wire[base..] == Wire(Last(wire[..base], ""), sent)
    && last == Last(wire, "")
    && NoRepeats(wire)
  }

  lemma WireOkNext(wire: seq<string>, base: nat, sent: seq<string>, last: string, message: string)
    requires WireOk(wire, base, sent, last)
    ensures var text := Decorate(message, last); WireOk(wire + [text], base, sent + [message], text)
  {
    var text, before := Decorate(message, last), Last(wire[..base], "");
    NextIsDifferent(wire, message);
    WireSnoc(before, sent, message);
    assert (wire + [text])[..base] == wire[..base];
    assert (wire + [text])[base..] == wire[base..] + [text];
    if sent == [] {
      assert wire[..base] == wire;
    }
  }

  lemma WireOkRestart(wire: seq<string>, base: nat, sent: seq<string>, last: string)
    requires WireOk(wire, base, sent, last)
    ensures WireOk(wire, |wire|, [], last)
  {
  }

  /** Message i of a session on the wire. */
  lemma WireOkAt(wire: seq<string>, base: nat, sent: seq<string>, last: string, i: nat)
    requires WireOk(wire, base, sent, last) && i < |sent|
    ensures wire[base + i] == Decorate(sent[i], if i == 0 then Last(wire[..base], "") else wire[base + i - 1])
  {
    var before := Last(wire[..base], "");
    WireCarriesMessages(before, sent, i);
    assert wire[base..][i] == wire[base + i];
    assert i > 0 ==> wire[base..][i - 1] == wire[base + i - 1];
  }
}
