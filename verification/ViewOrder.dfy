/** When the views of a parsed message follow each other without overlap. */
module ViewOrder {
  import opened StringViews
  import opened IRCMessages
  import opened IRCRoundTrip

  function Listed(v: Option<View>): seq<View> {
    if v.Some? then [v.value] else []
  }

  function PrefixPart(v: Views): seq<View> {
    Listed(v.nick) + Listed(v.user) + Listed(v.host)
  }

  function CommandPart(v: Views): seq<View> {
    Listed(v.command) + v.params + Listed(v.body)
  }

  /** Every view that is set: nick, user, host, command, parameters, body. */
  function AllViews(v: Views): seq<View> {
    PrefixPart(v) + CommandPart(v)
  }

  /** Each view ends before any later one begins, so no two overlap. */
  ghost predicate Ordered(views: seq<View>) {
    forall i, j :: 0 <= i < j < |views| ==> Before(views[i], views[j])
  }

  ghost predicate AllWithin(views: seq<View>, from: nat, end: nat) {
    forall i :: 0 <= i < |views| ==> from <= views[i].off && views[i].off + views[i].len <= end
  }

  lemma OrderedParts(a: seq<View>, b: seq<View>)
    requires Ordered(a + b)
    ensures Ordered(a) && Ordered(b)
  {
    var c := a + b;
    assert forall i :: 0 <= i < |a| ==> a[i] == c[i];
    assert forall i :: 0 <= i < |b| ==> b[i] == c[|a| + i];
  }

  lemma OrderedTogether(a: seq<View>, b: seq<View>, from: nat, middle: nat, end: nat)
    requires Ordered(a) && Ordered(b) && AllWithin(a, from, middle) && AllWithin(b, middle, end)
    ensures Ordered(a + b)
  {
  }

  predicate Prefixed(data: string) {
    data != "" && data[0] == ':'
  }

  /** A user is only read where '!' comes before '@'. */
  predicate PrefixSeparated(data: string, end: nat)
    requires 1 <= end <= |data|
  {
    var at, ex := Find(data[..end], '@', 1), Find(data[..end], '!', 1);
    at.Some? && ex.Some? ==> ex.value < at.value
  }

  /**
    A prefix ends in a space and has its separators in order; and the command,
    if there is one, ends in a space, or is a lone colon after a prefix.
   */
  predicate Separated(data: string) {
    var start := CommandStart(data);
    && (Prefixed(data) ==> Find(data, ' ', 0).Some? && PrefixSeparated(data, PrefixEnd(data)))
    && (start == |data| || Find(data, ' ', start).Some? || data[start..] == ":")
  }

  lemma PrefixPartOrder(data: string, end: nat)
    requires 1 <= end <= |data|
    ensures var part := PrefixPart(PrefixViews(data, end));
      && part != [] && AllWithin(part, 1, end)
      && (Ordered(part) <==> PrefixSeparated(data, end))
  {
    hide Find, Ordered;
    PrefixInOrder(data, end);
    var v := PrefixViews(data, end);
    if v.user.Some? {
      OrderedThree(v.nick.value, v.user.value, v.host.value);
      assert PrefixPart(v) == [v.nick.value, v.user.value, v.host.value];
    } else if v.host.Some? {
      OrderedTwo(v.nick.value, v.host.value);
      assert PrefixPart(v) == [v.nick.value, v.host.value];
    } else {
      OrderedOne(v.nick.value);
      assert PrefixPart(v) == [v.nick.value];
    }
  }

  lemma OrderedOne(a: View)
    ensures Ordered([]) && Ordered([a])
  {
  }

  lemma OrderedTwo(a: View, b: View)
    ensures Ordered([a, b]) <==> Before(a, b)
  {
    assert Ordered([a, b]) ==> Before([a, b][0], [a, b][1]);
  }

  lemma OrderedThree(a: View, b: View, c: View)
    ensures Ordered([a, b, c]) <==> Before(a, b) && Before(b, c)
  {
    var views := [a, b, c];
    assert Ordered(views) ==> Before(views[0], views[1]) && Before(views[1], views[2]);
  }

  /** The views from the command on, when the command starts at `start`. */
  function PartFrom(data: string, start: nat): seq<View>
    requires start <= |data|
  {
    var p := ParamsFrom(data, AfterSpace(data, start));
    [UpToSpace(data, start)] + p.views + if p.end == |data| then [] else [Span(p.end + 1, |data|)]
  }

  lemma ParseInParts(data: string)
    ensures var start := CommandStart(data);
      && PrefixPart(Parse(data)) == (if Prefixed(data) then PrefixPart(PrefixViews(data, PrefixEnd(data))) else [])
      && CommandPart(Parse(data)) == if Prefixed(data) && start == |data| then [] else PartFrom(data, start)
  {
    hide PrefixViews, PrefixEnd, AfterSpace, UpToSpace, ParamsFrom;
    if Prefixed(data) {
      PrefixSetsNoMore(data, PrefixEnd(data));
    }
  }

  lemma PartAfterSpace(data: string, start: nat)
    requires start <= |data| && Find(data, ' ', start).Some?
    ensures Ordered(PartFrom(data, start)) && AllWithin(PartFrom(data, start), start, |data|)
  {
    hide Find, ParamsFrom, Ordered;
    var next := AfterSpace(data, start);
    ParamsInOrder(data, next);
    var p := ParamsFrom(data, next);
    var command := UpToSpace(data, start);
    var body := if p.end == |data| then [] else [Span(p.end + 1, |data|)];
    OrderedOne(command);
    ParamsOrdered(p.views, next, p.end);
    OrderedTogether([command], p.views, start, next, p.end);
    assert Ordered(body) by { OrderedOne(Span(0, 0)); if body != [] { OrderedOne(body[0]); } }
    OrderedTogether([command] + p.views, body, start, p.end, |data|);
  }

  lemma ParamsOrdered(views: seq<View>, from: nat, end: nat)
    requires from <= end && InOrder(views, from, end)
    ensures Ordered(views) && AllWithin(views, from, end)
  {
  }

  lemma PartWithoutSpace(data: string, start: nat)
    requires start <= |data| && Find(data, ' ', start).None?
    ensures Ordered(PartFrom(data, start)) <==> start == |data| || data[start..] == ":"
    ensures AllWithin(PartFrom(data, start), start, |data|)
  {
    hide Find, Ordered;
    var command := Span(start, |data|);
    if start == |data| {
      assert PartFrom(data, start) == [command];
      OrderedOne(command);
    } else if data[start] == ':' {
      assert PartFrom(data, start) == [command, Span(start + 1, |data|)];
      OrderedTwo(command, Span(start + 1, |data|));
      assert data[start..] == ":" <==> |data| == start + 1;
    } else {
      assert PartFrom(data, start) == [command, command];
      OrderedTwo(command, command);
      assert data[start..][0] != ':';
    }
  }

  lemma FirstOfPrefix(data: string)
    requires Prefixed(data) && Find(data, ' ', 0).None?
    ensures !Ordered(AllViews(Parse(data)))
  {
    hide Find, ParamsFrom, PrefixViews, Parse;
    ParseInParts(data);
    var a, b := PrefixPart(Parse(data)), CommandPart(Parse(data));
    PrefixPartOrder(data, PrefixEnd(data));
    assert b[0] == Span(0, |data|) && a[0].off >= 1;
    assert (a + b)[0] == a[0] && (a + b)[|a|] == b[0];
  }

  /**
    For any line whatsoever, nick, user, host, command, parameters and body
    follow each other without overlap exactly when the line is separated.
   */
  lemma InOrderExactly(data: string)
    ensures Ordered(AllViews(Parse(data))) <==> Separated(data)
  {
    hide Find, PartFrom, PrefixViews, PrefixSeparated, Ordered, AllWithin, Parse, PrefixPart, CommandPart;
    if Prefixed(data) && Find(data, ' ', 0).None? {
      FirstOfPrefix(data);
      return;
    }
    ParseInParts(data);
    var start := CommandStart(data);
    var a, b := PrefixPart(Parse(data)), CommandPart(Parse(data));
    if Prefixed(data) {
      PrefixPartOrder(data, PrefixEnd(data));
    } else {
      NoViews(0, start);
    }
    if Prefixed(data) && start == |data| {
      NoViews(start, |data|);
    } else if Find(data, ' ', start).Some? {
      PartAfterSpace(data, start);
    } else {
      PartWithoutSpace(data, start);
    }
    if Ordered(a + b) {
      OrderedParts(a, b);
    }
    if Ordered(a) && Ordered(b) {
      OrderedTogether(a, b, if Prefixed(data) then 1 else 0, start, |data|);
    }
  }

  lemma NoViews(from: nat, end: nat)
    ensures Ordered([]) && AllWithin([], from, end)
  {
  }

  /** A prefix, if there is one, and the command are each followed by a space. */
  predicate Complete(data: string) {
    && (Prefixed(data) ==> Find(data, ' ', 0).Some?)
    && Find(data, ' ', CommandStart(data)).Some?
  }

  /**
    In a complete line the prefix lies before the command, and command, parameters
    and body are in order; so is everything, exactly when the prefix is.
   */
  lemma CompleteInOrder(data: string)
    requires Complete(data)
    ensures var v := Parse(data); var start := CommandStart(data);
      && AllWithin(PrefixPart(v), 0, start)
      && v.command.Some? && v.command.value.off == start
      && Ordered(CommandPart(v)) && AllWithin(CommandPart(v), start, |data|)
      && (Ordered(AllViews(v)) <==> (Prefixed(data) ==> PrefixSeparated(data, PrefixEnd(data))))
  {
    hide Find, PartFrom, PrefixViews, PrefixSeparated, Ordered, Parse, PrefixPart, CommandPart;
    InOrderExactly(data);
    ParseInParts(data);
    PartAfterSpace(data, CommandStart(data));
    if Prefixed(data) {
      PrefixPartOrder(data, PrefixEnd(data));
    }
    CommandOfComplete(data);
  }

  lemma CommandOfComplete(data: string)
    requires Complete(data)
    ensures Parse(data).command == Some(UpToSpace(data, CommandStart(data)))
  {
    hide Find, ParamsFrom, PrefixViews;
  }

  // ---------- printed messages ----------

  lemma PrintedPrefix(data: string, p: Prefix)
    requires !p.NoPrefix? && data != "" && PrefixEnd(data) == |PrintPrefix(p)|
    requires PrefixSays(data, PrefixViews(data, PrefixEnd(data)), p)
    ensures PrefixSeparated(data, PrefixEnd(data))
  {
    hide Find;
  }

  /** The views of a printed message are in order, and disjoint, exactly when it has a parameter or a body. */
  lemma PrintedInOrder(m: Message)
    requires WellFormed(m)
    ensures Ordered(AllViews(Parse(Print(m)))) <==> m.params != [] || m.body.Some?
    ensures m.params != [] || m.body.Some? ==> Complete(Print(m))
  {
    hide Find, PrefixViews, PrintPrefix, PrintArguments, PrefixOk, PrefixSays, PrefixSeparated;
    var data := Print(m);
    var before := PrintPrefix(m.prefix);
    assert data == before + m.command + PrintArguments(m.params, m.body);
    StartOf(m, data);
    WordFound(before, m.command, m.params, m.body, data);
    InOrderExactly(data);
    assert CommandStart(data) == |before|;
    if Prefixed(data) {
      SpaceEndsPrefix(m.prefix, data);
      PrintedPrefix(data, m.prefix);
    }
    assert data[|before|..][0] == data[|before|..|before| + |m.command|][0] == m.command[0];
  }

  lemma SpaceEndsPrefix(p: Prefix, data: string)
    requires Prefixed(data) && AfterSpace(data, 0) == |PrintPrefix(p)| && !p.NoPrefix?
    ensures Find(data, ' ', 0).Some? && PrefixEnd(data) == |PrintPrefix(p)|
  {
    hide Find;
  }
}
