/** The parsers of the two log services. */
module LogParser {
  import opened StringViews
  import opened TimeDetail

  datatype LogService = Gempir | Overrustle

  type TimeParser = string -> Option<TimePoint>

  datatype LineView = LineView(line: View, timeView: View, time: TimePoint, name: View, message: View)

  /** Undefined: the code would call `remove_prefix` with more than the size of the view. */
  datatype LineOutcome = Skip | Emit(view: LineView) | Undefined

  datatype ParseOutcome = Parsed(lines: seq<LineView>) | UndefinedBehaviour

  function Sentinel(service: LogService): string {
    match service
    case Gempir => "{\"message\":\"Failure reading log\"}"
    case Overrustle => "didn't find any logs for this user"
  }

  // ---------- one line, its newline excluded ----------

  function GempirLine(line: string, parseTime: TimeParser): LineOutcome {
    match FindPair(line, ']', ' ')
    case None => Skip
    case Some(bracket) =>
      var timeView := Substr(0, |line|, 1, bracket - 1);
      match Find(line, ' ', bracket + 2)
      case None => Skip
      case Some(space) =>
        match Find(line, ':', space + 1)
        case None => Skip
        case Some(colon) =>
          if |line| < colon + 2 then Undefined else
          match parseTime(Text(line, timeView))
          case None => Skip
          case Some(time) =>
            Emit(LineView(View(0, |line| + 1), timeView, time,
                          View(space + 1, colon - (space + 1)),
                          View(colon + 2, |line| - (colon + 2))))
  }

  function OverrustleLine(line: string, parseTime: TimeParser): LineOutcome {
    match FindPair(line, ']', ' ')
    case None => Skip
    case Some(bracket) =>
      var timeView := Substr(0, |line|, 1, bracket - 1);
      match Find(line, ' ', bracket + 2)
      case None => Skip
      case Some(space) =>
        var name := Substr(bracket + 2, |line|, bracket + 2, space - (bracket + 2) - 1);
        match parseTime(Text(line, timeView))
        case None => Skip
        case Some(time) =>
          Emit(LineView(View(0, |line| + 1), timeView, time, name,
                        View(space + 1, |line| - (space + 1))))
  }

  function ParseLine(service: LogService, parseTime: TimeParser, line: string): LineOutcome {
    match service
    case Gempir => GempirLine(line, parseTime)
    case Overrustle => OverrustleLine(line, parseTime)
  }

  function Placed(v: LineView, at: nat): LineView {
    LineView(Shift(v.line, at), Shift(v.timeView, at), v.time, Shift(v.name, at), Shift(v.message, at))
  }

  // ---------- a whole log ----------

  /** The complete lines of data from position `from` on, newlines removed; an unterminated tail is no line. */
  function SplitFrom(data: string, from: nat): seq<string>
    requires from <= |data|
    decreases |data| - from
  {
    match Find(data, '\n', from)
    case None => []
    case Some(n) => [data[from..n]] + SplitFrom(data, n + 1)
  }

  function SplitLines(data: string): seq<string> {
    SplitFrom(data, 0)
  }

  /** Parses each line, the first of which starts at offset `at`, and keeps the successes. */
  function ParseEach(service: LogService, parseTime: TimeParser, lines: seq<string>, at: nat): ParseOutcome {
    if lines == [] then Parsed([])
    else
      var rest := ParseEach(service, parseTime, lines[1..], at + |lines[0]| + 1);
      match ParseLine(service, parseTime, lines[0])
      case Undefined => UndefinedBehaviour
      case Skip => rest
      case Emit(v) => Prepend([Placed(v, at)], rest)
  }

  function Prepend(vs: seq<LineView>, rest: ParseOutcome): ParseOutcome {
    match rest
    case UndefinedBehaviour => UndefinedBehaviour
    case Parsed(ws) => Parsed(vs + ws)
  }

  lemma PrependTwice(vs: seq<LineView>, ws: seq<LineView>, rest: ParseOutcome)
    ensures Prepend(vs, Prepend(ws, rest)) == Prepend(vs + ws, rest)
    ensures Prepend([], rest) == rest
  {
    if rest.Parsed? {
      assert vs + (ws + rest.lines) == vs + ws + rest.lines;
    }
  }

  lemma ParseStep(service: LogService, parseTime: TimeParser, data: string, start: nat)
    requires start <= |data|
    ensures var here := ParseEach(service, parseTime, SplitFrom(data, start), start);
      match Find(data, '\n', start)
      case None => here == Parsed([])
      case Some(n) =>
        var later := ParseEach(service, parseTime, SplitFrom(data, n + 1), n + 1);
        match ParseLine(service, parseTime, data[start..n])
        case Undefined => here == UndefinedBehaviour
        case Skip => here == later
        case Emit(v) => here == Prepend([Placed(v, start)], later)
  {
    hide Find, ParseLine;
    var n := Find(data, '\n', start);
    if n.Some? {
      var lines := SplitFrom(data, start);
      assert lines[0] == data[start..n.value] && lines[1..] == SplitFrom(data, n.value + 1);
    }
  }

  /** `gempirLogParser` and `overrustleLogParser`; the outcome holds the vector they fill. */
  method ParseLog(service: LogService, parseTime: TimeParser, data: string)
    returns (valid: bool, outcome: ParseOutcome)
    ensures valid <==> !(service == Gempir && data == "{\"message\":\"Failure reading log\"}")
                       && !(service == Overrustle && data == "didn't find any logs for this user")
    ensures valid <==> data != Sentinel(service)
    ensures outcome == if valid then ParseEach(service, parseTime, SplitLines(data), 0) else Parsed([])
  {
    hide Find, ParseLine, SplitFrom, ParseEach;
    if data == Sentinel(service) {
      return false, Parsed([]);
    }
    var lines: seq<LineView> := [];
    var start := 0;
    PrependTwice([], [], ParseEach(service, parseTime, SplitLines(data), 0));
    while start < |data|
      invariant start <= |data|
      invariant ParseEach(service, parseTime, SplitLines(data), 0)
             == Prepend(lines, ParseEach(service, parseTime, SplitFrom(data, start), start))
    {
      ParseStep(service, parseTime, data, start);
      var newline := Find(data, '\n', start);
      if newline.None? {
        break;
      }
      var line := data[start..newline.value];
      var next := newline.value + 1;
      ghost var later := ParseEach(service, parseTime, SplitFrom(data, next), next);
      match ParseLine(service, parseTime, line) {
        case Undefined =>
          return true, UndefinedBehaviour;
        case Skip =>
        case Emit(v) =>
          PrependTwice(lines, [Placed(v, start)], later);
          lines := lines + [Placed(v, start)];
      }
      start := next;
    }
    ParseStep(service, parseTime, data, start);
    return true, Parsed(lines);
  }

  // ---------- structure ----------

  predicate Terminated(data: string) {
    data == "" || data[|data| - 1] == '\n'
  }

  function TotalLength(lines: seq<string>): nat {
    if lines == [] then 0 else |lines[0]| + 1 + TotalLength(lines[1..])
  }

  lemma {:induction false} SplitShift(a: string, b: string, from: nat)
    requires from <= |b|
    ensures SplitFrom(a + b, |a| + from) == SplitFrom(b, from)
    decreases |b| - from
  {
    hide Find;
    var n := Find(b, '\n', from);
    if n.Some? {
      assert FirstAt(a + b, '\n', |a| + from, |a| + n.value);
      assert (a + b)[|a| + from..|a| + n.value] == b[from..n.value];
      SplitShift(a, b, n.value + 1);
    } else {
      assert forall k :: |a| + from <= k < |a + b| ==> (a + b)[k] == b[k - |a|];
    }
  }

  lemma SplitStep(a: string, b: string, from: nat)
    requires Terminated(a) && from < |a|
    ensures Find(a, '\n', from).Some?
    ensures var n := Find(a, '\n', from).value;
      && SplitFrom(a, from) == [a[from..n]] + SplitFrom(a, n + 1)
      && SplitFrom(a + b, from) == [a[from..n]] + SplitFrom(a + b, n + 1)
  {
    hide Find;
    var n := Find(a, '\n', from).value;
    assert FirstAt(a + b, '\n', from, n);
    assert (a + b)[from..n] == a[from..n];
  }

  lemma {:induction false} SplitAppend(a: string, b: string, from: nat)
    requires Terminated(a) && from <= |a|
    ensures SplitFrom(a + b, from) == SplitFrom(a, from) + SplitFrom(b, 0)
    ensures TotalLength(SplitFrom(a, from)) == |a| - from
    decreases |a| - from
  {
    hide Find;
    if from == |a| {
      SplitShift(a, b, 0);
      assert SplitFrom(a, from) == [];
    } else {
      hide SplitFrom;
      SplitStep(a, b, from);
      var n := Find(a, '\n', from).value;
      SplitAppend(a, b, n + 1);
      assert SplitFrom(a, from)[1..] == SplitFrom(a, n + 1);
    }
  }

  lemma {:induction false} ParseEachAppend(service: LogService, parseTime: TimeParser,
                                           a: seq<string>, b: seq<string>, at: nat)
    ensures ParseEach(service, parseTime, a + b, at)
         == match ParseEach(service, parseTime, a, at)
            case UndefinedBehaviour => UndefinedBehaviour
            case Parsed(vs) => Prepend(vs, ParseEach(service, parseTime, b, at + TotalLength(a)))
    decreases |a|
  {
    hide ParseLine;
    var second := ParseEach(service, parseTime, b, at + TotalLength(a));
    if a == [] {
      assert a + b == b;
      PrependTwice([], [], second);
    } else {
      assert (a + b)[1..] == a[1..] + b;
      ParseEachAppend(service, parseTime, a[1..], b, at + |a[0]| + 1);
      var first := ParseEach(service, parseTime, a[1..], at + |a[0]| + 1);
      var o := ParseLine(service, parseTime, a[0]);
      if o.Emit? && first.Parsed? {
        PrependTwice([Placed(o.view, at)], first.lines, second);
      }
    }
  }

  /** Cutting a log after a newline: both parts parse separately, the second at its own offset. */
  lemma ParseDistributes(service: LogService, parseTime: TimeParser, a: string, b: string)
    requires Terminated(a)
    ensures ParseEach(service, parseTime, SplitLines(a + b), 0)
         == match ParseEach(service, parseTime, SplitLines(a), 0)
            case UndefinedBehaviour => UndefinedBehaviour
            case Parsed(vs) => Prepend(vs, ParseEach(service, parseTime, SplitLines(b), |a|))
  {
    hide SplitFrom, ParseEach;
    SplitAppend(a, b, 0);
    ParseEachAppend(service, parseTime, SplitLines(a), SplitLines(b), 0);
  }

  /** What follows the last newline is ignored. */
  lemma TailIgnored(service: LogService, parseTime: TimeParser, a: string, tail: string)
    requires Terminated(a) && '\n' !in tail
    ensures ParseEach(service, parseTime, SplitLines(a + tail), 0) == ParseEach(service, parseTime, SplitLines(a), 0)
  {
    hide ParseEach;
    SplitAppend(a, tail, 0);
    assert SplitFrom(tail, 0) == [];
    assert SplitLines(a) + [] == SplitLines(a);
  }

  // ---------- views stay inside their lines ----------

  predicate WellPlaced(v: LineView) {
    Inside(v.timeView, v.line) && Inside(v.name, v.line) && Inside(v.message, v.line)
  }

  lemma LineViewsInside(service: LogService, parseTime: TimeParser, line: string)
    requires ParseLine(service, parseTime, line).Emit?
    ensures var v := ParseLine(service, parseTime, line).view;
      && v.line == View(0, |line| + 1) && WellPlaced(v)
      && v.message.off + v.message.len == |line|
      && InBounds(v.timeView, |line|) && InBounds(v.name, |line|)
      && parseTime(Text(line, v.timeView)) == Some(v.time)
  {
    hide Find, FindPair;
  }

  /** Emitted lines follow each other without overlap, and each keeps its views to itself. */
  lemma {:induction false} ViewsInsideOwnLine(service: LogService, parseTime: TimeParser, lines: seq<string>, at: nat)
    requires ParseEach(service, parseTime, lines, at).Parsed?
    ensures var vs := ParseEach(service, parseTime, lines, at).lines;
      && (forall i :: 0 <= i < |vs| ==>
            WellPlaced(vs[i]) && Inside(vs[i].line, View(at, TotalLength(lines))))
      && (forall i, j :: 0 <= i < j < |vs| ==> Before(vs[i].line, vs[j].line))
    decreases |lines|
  {
    hide ParseLine;
    if lines != [] {
      var at1 := at + |lines[0]| + 1;
      ViewsInsideOwnLine(service, parseTime, lines[1..], at1);
      var outcome := ParseLine(service, parseTime, lines[0]);
      if outcome.Emit? {
        LineViewsInside(service, parseTime, lines[0]);
        var v := Placed(outcome.view, at);
        assert v.line == View(at, |lines[0]| + 1) && WellPlaced(v);
      }
    }
  }

  // ---------- when parsing is defined ----------

  /** The first colon after the channel word is the last character of the line. */
  predicate ColonLast(line: string) {
    exists bracket, space {:trigger line[bracket], line[space]} :: 0 <= bracket < space < |line| - 1
      && line[bracket] == ']' && line[bracket + 1] == ' ' && line[space] == ' ' && bracket + 2 <= space
      && (forall k :: 0 <= k < bracket ==> !(line[k] == ']' && line[k + 1] == ' '))
      && (forall k :: bracket + 2 <= k < space ==> line[k] != ' ')
      && (forall k :: space < k < |line| - 1 ==> line[k] != ':')
      && line[|line| - 1] == ':'
  }

  lemma LineDefined(service: LogService, parseTime: TimeParser, line: string)
    ensures ParseLine(service, parseTime, line).Undefined? <==> service == Gempir && ColonLast(line)
  {
    hide Find, FindPair;
  }

  /**
    The overrustle parser is defined on every input, the gempir parser exactly on
    the logs none of whose complete lines ends right after the colon of its name.
   */
  lemma {:induction false} ParseDefined(service: LogService, parseTime: TimeParser, lines: seq<string>, at: nat)
    ensures ParseEach(service, parseTime, lines, at).Parsed?
            <==> service == Overrustle || forall l :: l in lines ==> !ColonLast(l)
    decreases |lines|
  {
    hide ParseLine, ColonLast;
    if lines != [] {
      LineDefined(service, parseTime, lines[0]);
      ParseDefined(service, parseTime, lines[1..], at + |lines[0]| + 1);
      assert forall l :: l in lines <==> l == lines[0] || l in lines[1..];
    }
  }

  /** An input on which the gempir parser is undefined. */
  lemma UndefinedExample(parseTime: TimeParser)
    ensures ParseEach(Gempir, parseTime, SplitLines("[1] #c n:\n"), 0).UndefinedBehaviour?
  {
    hide Find, FindPair, ParseLine;
    var data := "[1] #c n:\n";
    var line := data[..9];
    assert FirstAt(data, '\n', 0, 9);
    assert SplitLines(data)[0] == line;
    assert ColonLast(line) by {
      assert line[2] == ']' && line[6] == ' ';
    }
    ParseDefined(Gempir, parseTime, SplitLines(data), 0);
  }

  // ---------- contents ----------

  /** What a line of a log says. */
  datatype Entry = Entry(time: TimePoint, name: string, message: string)

  function EntryAt(data: string, v: LineView): Entry
    requires InBounds(v.name, |data|) && InBounds(v.message, |data|)
  {
    Entry(v.time, Text(data, v.name), Text(data, v.message))
  }

  /** Split, parse each line, keep what the successes say. */
  function Entries(service: LogService, parseTime: TimeParser, lines: seq<string>): seq<Entry> {
    if lines == [] then []
    else
      var rest := Entries(service, parseTime, lines[1..]);
      match ParseLine(service, parseTime, lines[0])
      case Emit(v) =>
        LineViewsInside(service, parseTime, lines[0]);
        [EntryAt(lines[0], v)] + rest
      case _ => rest
  }

  lemma {:induction false} LengthOfSplit(data: string, from: nat)
    requires from <= |data|
    ensures from + TotalLength(SplitFrom(data, from)) <= |data|
    decreases |data| - from
  {
    hide Find;
    var n := Find(data, '\n', from);
    if n.Some? {
      LengthOfSplit(data, n.value + 1);
      assert SplitFrom(data, from)[1..] == SplitFrom(data, n.value + 1);
    }
  }

  /** The views, read in the whole data, say es. */
  ghost predicate ReadsAs(data: string, vs: seq<LineView>, es: seq<Entry>) {
    |vs| == |es| && forall i :: 0 <= i < |vs| ==>
      InBounds(vs[i].name, |data|) && InBounds(vs[i].message, |data|) && EntryAt(data, vs[i]) == es[i]
  }

  lemma PlacedReads(data: string, from: nat, end: nat, v: LineView)
    requires from <= end <= |data| && InBounds(v.name, end - from) && InBounds(v.message, end - from)
    ensures InBounds(Placed(v, from).name, |data|) && InBounds(Placed(v, from).message, |data|)
    ensures EntryAt(data, Placed(v, from)) == EntryAt(data[from..end], v)
  {
    SliceOfSlice(data, from, end, v.name.off, v.name.off + v.name.len);
    SliceOfSlice(data, from, end, v.message.off, v.message.off + v.message.len);
  }

  /** The emitted views, read in the whole data, say what their lines say one by one. */
  lemma {:induction false} ViewsReadLines(service: LogService, parseTime: TimeParser, data: string, from: nat)
    requires from <= |data|
    requires ParseEach(service, parseTime, SplitFrom(data, from), from).Parsed?
    ensures ReadsAs(data, ParseEach(service, parseTime, SplitFrom(data, from), from).lines,
                    Entries(service, parseTime, SplitFrom(data, from)))
    decreases |data| - from
  {
    hide Find, ParseLine, EntryAt;
    var n := Find(data, '\n', from);
    if n.Some? {
      var line := data[from..n.value];
      var lines := SplitFrom(data, from);
      assert lines[0] == line && lines[1..] == SplitFrom(data, n.value + 1);
      hide SplitFrom;
      ViewsReadLines(service, parseTime, data, n.value + 1);
      var o := ParseLine(service, parseTime, line);
      if o.Emit? {
        LineViewsInside(service, parseTime, line);
        PlacedReads(data, from, n.value, o.view);
      }
    }
  }
}
