/** Parsing one line from the server into its parts (section 2.3.1 of RFC 2812). */
module IRCMessages {
  import opened StringViews

  /** The member views; None is a view that was never set. */
  datatype Views = Views(nick: Option<View>, user: Option<View>, host: Option<View>,
                         command: Option<View>, params: seq<View>, body: Option<View>)

  const NO_VIEWS: Views := Views(None, None, None, None, [], None)

  // ---------- the parts ----------

  /**
    The prefix as the code delimits it: from position 1, as many characters as
    the position of the space says, so the space itself is included.
   */
  function PrefixEnd(data: string): (end: nat)
    requires data != ""
    ensures 1 <= end <= |data|
  {
    match Find(data, ' ', 0)
    case None => |data|
    case Some(space) => if space + 1 <= |data| then space + 1 else |data|
  }

  function Span(from: nat, end: nat): View
    requires from <= end
  {
    View(from, end - from)
  }

  /** Nick, user and host in a prefix that ends at `end`. */
  function PrefixViews(data: string, end: nat): Views
    requires 1 <= end <= |data|
  {
    var prefix := data[..end];
    match Find(prefix, '@', 1)
    case None => NO_VIEWS.(nick := Some(Span(1, end)))
    case Some(at) =>
      match Find(prefix, '!', 1)
      case None => NO_VIEWS.(nick := Some(Span(1, at)), host := Some(Span(at + 1, end)))
      case Some(ex) =>
        NO_VIEWS.(nick := Some(Span(1, ex)),
                  user := Some(Substr(1, end, ex + 1, at as int - ex - 1)),
                  host := Some(Span(at + 1, end)))
  }

  /** `remove_prefix(space + 1)`: nothing is removed when there is no space, as npos + 1 is 0. */
  function AfterSpace(data: string, from: nat): (pos: nat)
    requires from <= |data|
    ensures from <= pos <= |data|
  {
    match Find(data, ' ', from)
    case None => from
    case Some(space) => space + 1
  }

  function UpToSpace(data: string, from: nat): (v: View)
    requires from <= |data|
    ensures v.off == from && InBounds(v, |data|)
  {
    match Find(data, ' ', from)
    case None => Span(from, |data|)
    case Some(space) => Span(from, space)
  }

  datatype Params = Params(views: seq<View>, end: nat)

  /** The parameters from position `from` on, and where they end. */
  function ParamsFrom(data: string, from: nat): (p: Params)
    requires from <= |data|
    ensures from <= p.end <= |data|
    ensures p.end < |data| ==> data[p.end] == ':'
    decreases |data| - from
  {
    if from == |data| || data[from] == ':' then Params([], from)
    else
      match Find(data, ' ', from)
      case None => Params([Span(from, |data|)], |data|)
      case Some(space) =>
        var rest := ParamsFrom(data, space + 1);
        Params([Span(from, space)] + rest.views, rest.end)
  }

  function Following(views: seq<View>, p: Params): Params {
    Params(views + p.views, p.end)
  }

  lemma ParamsStep(views: seq<View>, data: string, from: nat)
    requires from <= |data|
    ensures Following(views, ParamsFrom(data, from))
         == if from == |data| || data[from] == ':' then Params(views, from)
            else match Find(data, ' ', from)
                 case None => Params(views + [Span(from, |data|)], |data|)
                 case Some(space) => Following(views + [Span(from, space)], ParamsFrom(data, space + 1))
    ensures ParamsFrom(data, |data|) == Params([], |data|)
  {
    hide Find;
  }

  /** What `parseImplementation` sets; an empty line is read up to its terminator. */
  function Parse(data: string): Views {
    var prefixed := data != "" && data[0] == ':';
    var v := if prefixed then PrefixViews(data, PrefixEnd(data)) else NO_VIEWS;
    var start := if prefixed then AfterSpace(data, 0) else 0;
    if prefixed && start == |data| then v
    else
      var w := v.(command := Some(UpToSpace(data, start)));
      var next := AfterSpace(data, start);
      var p := ParamsFrom(data, next);
      if p.end == |data| then w.(params := p.views)
      else w.(params := p.views, body := Some(Span(p.end + 1, |data|)))
  }

  class IRCMessage {
    var data: string
    var nickView: Option<View>
    var userView: Option<View>
    var hostView: Option<View>
    var commandView: Option<View>
    var paramsVec: seq<View>
    var bodyView: Option<View>

    function Members(): Views
      reads this
    {
      Views(nickView, userView, hostView, commandView, paramsVec, bodyView)
    }

    constructor Empty()
      ensures data == "" && Members() == NO_VIEWS
    {
      data := "";
      nickView, userView, hostView, commandView, paramsVec, bodyView := None, None, None, None, [], None;
    }

    constructor (buf: string)
      ensures data == buf && Members() == Parse(buf)
    {
      data := buf;
      nickView, userView, hostView, commandView, paramsVec, bodyView := None, None, None, None, [], None;
      new;
      ParseImplementation();
    }

    method ParsePrefix() returns (start: nat)
      requires Members() == NO_VIEWS && data != "" && data[0] == ':'
      modifies `nickView, `userView, `hostView
      ensures Members() == PrefixViews(data, PrefixEnd(data)) && start == AfterSpace(data, 0)
    {
      hide Find;
      var end := PrefixEnd(data);
      var prefix := data[..end];
      var at := Find(prefix, '@', 1);
      if at.Some? {
        var ex := Find(prefix, '!', 1);
        if ex.Some? {
          nickView := Some(Span(1, ex.value));
          userView := Some(Substr(1, end, ex.value + 1, at.value as int - ex.value - 1));
          hostView := Some(Span(at.value + 1, end));
        } else {
          nickView := Some(Span(1, at.value));
          hostView := Some(Span(at.value + 1, end));
        }
      } else {
        nickView := Some(Span(1, end));
      }
      start := AfterSpace(data, 0);
    }

    method ParseParams(from: nat) returns (start: nat)
      requires paramsVec == [] && from <= |data|
      modifies `paramsVec
      ensures Params(paramsVec, start) == ParamsFrom(data, from)
    {
      hide Find, ParamsFrom;
      start := from;
      ghost var whole := ParamsFrom(data, from);
      while start < |data|
        invariant start <= |data|
        invariant whole == Following(paramsVec, ParamsFrom(data, start))
      {
        ParamsStep(paramsVec, data, start);
        if data[start] == ':' {
          break;
        }
        var space := Find(data, ' ', start);
        if space.None? {
          paramsVec := paramsVec + [Span(start, |data|)];
          start := |data|;
          break;
        } else {
          paramsVec := paramsVec + [Span(start, space.value)];
          start := space.value + 1;
        }
      }
      ParamsStep(paramsVec, data, start);
    }

    method ParseImplementation()
      requires Members() == NO_VIEWS
      modifies this
      ensures data == old(data) && Members() == Parse(data)
    {
      hide ParamsFrom, PrefixViews, AfterSpace, UpToSpace, PrefixEnd;
      var start := 0;
      if data != "" && data[0] == ':' {
        start := ParsePrefix();
        PrefixSetsNoMore(data, PrefixEnd(data));
        if start == |data| {
          return;
        }
      }
      commandView := Some(UpToSpace(data, start));
      start := AfterSpace(data, start);
      if start == |data| {
        NoParamsAtEnd(data);
        return;
      }
      start := ParseParams(start);
      if start == |data| {
        return;
      }
      if data[start] == ':' {
        bodyView := Some(Span(start + 1, |data|));
      }
    }

    /**
      Copy construction and copy assignment.  The source asserts that its views
      point into its own string, which a view that was never set does not.
     */
    method CopyImplementation(source: IRCMessage)
      requires AllSet(source.Members()) && source != this
      modifies this
      ensures data == source.data
      ensures Members() == source.Members().(params := old(paramsVec) + source.paramsVec)
    {
      data := source.data;
      nickView, userView, hostView := source.nickView, source.userView, source.hostView;
      commandView := source.commandView;
      paramsVec := paramsVec + source.paramsVec;
      bodyView := source.bodyView;
    }
  }

  lemma PrefixSetsNoMore(data: string, end: nat)
    requires 1 <= end <= |data|
    ensures var v := PrefixViews(data, end); v.command.None? && v.params == [] && v.body.None? && v.nick.Some?
  {
  }

  lemma NoParamsAtEnd(data: string)
    ensures ParamsFrom(data, |data|) == Params([], |data|)
  {
  }

  predicate AllSet(v: Views) {
    v.nick.Some? && v.user.Some? && v.host.Some? && v.command.Some? && v.body.Some?
  }

  /** A copy says what its source says exactly when the target had no parameters yet. */
  method CopyOf(source: IRCMessage, target: IRCMessage)
    requires AllSet(source.Members()) && source != target
    modifies target
    ensures target.data == source.data
    ensures target.Members() == source.Members() <==> old(target.paramsVec) == []
  {
    ghost var before := target.paramsVec;
    target.CopyImplementation(source);
    assert before == [] ==> before + source.paramsVec == source.paramsVec;
    assert before != [] ==> |before + source.paramsVec| > |source.paramsVec|;
  }

  // ---------- every view lies inside the line ----------

  ghost predicate OptionInBounds(v: Option<View>, size: nat) {
    v.Some? ==> InBounds(v.value, size)
  }

  /** The views lie between `from` and `end`, one after the other. */
  ghost predicate InOrder(views: seq<View>, from: nat, end: nat) {
    && (forall i :: 0 <= i < |views| ==> Inside(views[i], Range(from, end)))
    && (forall i, j :: 0 <= i < j < |views| ==> Before(views[i], views[j]))
  }

  function Range(from: nat, end: nat): View {
    View(from, if from <= end then end - from else 0)
  }

  lemma {:induction false} ParamsInOrder(data: string, from: nat)
    requires from <= |data|
    ensures InOrder(ParamsFrom(data, from).views, from, ParamsFrom(data, from).end)
    decreases |data| - from
  {
    hide Find;
    if from < |data| && data[from] != ':' {
      var space := Find(data, ' ', from);
      if space.Some? {
        ParamsInOrder(data, space.value + 1);
        var rest := ParamsFrom(data, space.value + 1);
        var views := [Span(from, space.value)] + rest.views;
        assert ParamsFrom(data, from) == Params(views, rest.end);
        assert forall i :: 0 < i < |views| ==> views[i] == rest.views[i - 1];
      }
    }
  }

  /** Whatever the line, the parser terminates and every view it sets lies inside the line. */
  lemma AllViewsInBounds(data: string)
    ensures var v := Parse(data);
      && OptionInBounds(v.nick, |data|) && OptionInBounds(v.user, |data|) && OptionInBounds(v.host, |data|)
      && OptionInBounds(v.command, |data|) && OptionInBounds(v.body, |data|)
      && InOrder(v.params, 0, |data|)
      && (forall i :: 0 <= i < |v.params| && v.body.Some? ==> Before(v.params[i], v.body.value))
  {
    hide Find, ParamsFrom, PrefixViews;
    var prefixed := data != "" && data[0] == ':';
    if prefixed {
      PrefixInOrder(data, PrefixEnd(data));
      PrefixSetsNoMore(data, PrefixEnd(data));
    }
    var start := AfterSpace(data, if prefixed then AfterSpace(data, 0) else 0);
    ParamsInOrder(data, start);
    var p := ParamsFrom(data, start);
    assert forall i :: 0 <= i < |p.views| ==> p.views[i].off + p.views[i].len <= p.end;
  }

  // ---------- where the prefix ends and the command starts ----------

  function CommandStart(data: string): (start: nat)
    ensures start <= |data|
  {
    if data != "" && data[0] == ':' then AfterSpace(data, 0) else 0
  }

  /**
    The views of a prefix lie inside it, the nick first; user and host are in
    order exactly if '!' comes before '@'.
   */
  lemma PrefixInOrder(data: string, end: nat)
    requires 1 <= end <= |data|
    ensures var v := PrefixViews(data, end); var room := Range(1, end);
      && v.nick.Some? && Inside(v.nick.value, room)
      && (v.user.Some? ==> v.host.Some? && Inside(v.user.value, room) && Before(v.nick.value, v.user.value))
      && (v.host.Some? ==> Inside(v.host.value, room))
      && (v.user.Some? ==>
            (Before(v.user.value, v.host.value)
             <==> Find(data[..end], '!', 1).value < Find(data[..end], '@', 1).value))
      && (v.host.Some? && v.user.None? ==> Before(v.nick.value, v.host.value))
  {
    hide Find;
  }

  ghost predicate Spells(data: string, v: Option<View>, text: string) {
    v.Some? && InBounds(v.value, |data|) && Text(data, v.value) == text
  }

  /** The prefix without '@' is the nick, whatever else it holds. */
  lemma PrefixWithoutHost(data: string, end: nat)
    requires 1 <= end <= |data| && '@' !in data[1..end]
    ensures var v := PrefixViews(data, end);
      Spells(data, v.nick, data[1..end]) && v.user.None? && v.host.None?
  {
    hide Find;
    assert forall k :: 1 <= k < end ==> data[..end][k] == data[1..end][k - 1];
  }

  lemma FirstInPrefix(data: string, end: nat, word: string, c: char, rest: string)
    requires 1 <= end <= |data| && data[1..end] == word + [c] + rest && c !in word
    ensures Find(data[..end], c, 1) == Some(|word| + 1)
    ensures |word| + 2 <= end && data[1..|word| + 1] == word && data[|word| + 2..end] == rest
  {
    hide Find;
    var prefix, p := data[..end], data[1..end];
    assert forall k :: 1 <= k < end ==> prefix[k] == p[k - 1];
    assert forall k :: 0 <= k < |word| ==> p[k] == word[k];
    assert p[|word|] == c;
    assert FirstAt(prefix, c, 1, |word| + 1);
  }

  /** Otherwise the host is what follows the first '@', and without '!' the nick is what precedes it. */
  lemma PrefixWithHost(data: string, end: nat, n: string, h: string)
    requires 1 <= end <= |data| && data[1..end] == n + "@" + h && '@' !in n
    ensures var v := PrefixViews(data, end);
      Spells(data, v.host, h) && ('!' !in data[1..end] ==> Spells(data, v.nick, n) && v.user.None?)
  {
    hide Find;
    FirstInPrefix(data, end, n, '@', h);
    if '!' !in data[1..end] {
      assert forall k :: 1 <= k < end ==> data[..end][k] == data[1..end][k - 1];
    }
  }

  /**
    With a '!' the nick is what precedes the first one, and the user is what lies
    between it and the first '@', or everything after it if the '@' comes first.
   */
  lemma PrefixWithUser(data: string, end: nat, n: string, h: string, x: string, y: string)
    requires 1 <= end <= |data| && data[1..end] == n + "@" + h && '@' !in n
    requires data[1..end] == x + "!" + y && '!' !in x
    ensures var v, p := PrefixViews(data, end), data[1..end];
      && Spells(data, v.nick, x)
      && Spells(data, v.user, if |x| < |n| then p[|x| + 1..|n|] else y)
  {
    hide Find;
    FirstInPrefix(data, end, n, '@', h);
    FirstInPrefix(data, end, x, '!', y);
    if |x| < |n| {
      assert data[|x| + 2..|n| + 1] == data[1..end][|x| + 1..|n|];
    }
  }
}
