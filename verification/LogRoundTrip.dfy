/** Rendering log lines as the two services write them, and reading them back. */
module LogRoundTrip {
  import opened StringViews
  import opened TimeDetail
  import opened LogParser

  /** A log line as a service writes it; timeText is the time in the service's format. */
  datatype Record = Record(timeText: string, time: TimePoint, channel: string, name: string, message: string)

  predicate WellFormed(service: LogService, parseTime: TimeParser, r: Record) {
    && parseTime(r.timeText) == Some(r.time)
    && ']' !in r.timeText && '\n' !in r.timeText && '\n' !in r.name && '\n' !in r.message
    && match service
       case Gempir => ' ' !in r.channel && '\n' !in r.channel && ':' !in r.name
       case Overrustle => ' ' !in r.name
  }

  function RenderLine(service: LogService, r: Record): string {
    match service
    case Gempir => "[" + r.timeText + "] #" + r.channel + " " + r.name + ": " + r.message
    case Overrustle => "[" + r.timeText + "] " + r.name + ": " + r.message
  }

  function Render(service: LogService, rs: seq<Record>): string {
    if rs == [] then "" else RenderLine(service, rs[0]) + "\n" + Render(service, rs[1..])
  }

  function Said(r: Record): Entry {
    Entry(r.time, r.name, r.message)
  }

  function AllSaid(rs: seq<Record>): seq<Entry> {
    seq(|rs|, i requires 0 <= i < |rs| => Said(rs[i]))
  }

  /** Where the parts of a rendered line lie. */
  lemma GempirLayout(r: Record, line: string)
    requires line == RenderLine(Gempir, r)
    ensures var bracket := |r.timeText| + 1; var space := bracket + 3 + |r.channel|;
      var colon := space + 1 + |r.name|;
      && |line| == colon + 2 + |r.message|
      && line[0] == '[' && line[bracket] == ']' && line[bracket + 1] == ' ' && line[bracket + 2] == '#'
      && line[space] == ' ' && line[colon] == ':' && line[colon + 1] == ' '
      && line[1..bracket] == r.timeText && line[bracket + 3..space] == r.channel
      && line[space + 1..colon] == r.name && line[colon + 2..] == r.message
  {
  }

  lemma GempirSeparators(parseTime: TimeParser, r: Record, line: string)
    requires WellFormed(Gempir, parseTime, r) && line == RenderLine(Gempir, r)
    ensures var bracket := |r.timeText| + 1; var space := bracket + 3 + |r.channel|;
      && FindPair(line, ']', ' ') == Some(bracket)
      && FirstAt(line, ' ', bracket + 2, space) && FirstAt(line, ':', space + 1, space + 1 + |r.name|)
  {
    hide Find, FindPair, RenderLine;
    GempirLayout(r, line);
    var bracket := |r.timeText| + 1;
    var space := bracket + 3 + |r.channel|;
    var colon := space + 1 + |r.name|;
    assert forall k :: 1 <= k < bracket ==> line[k] == line[1..bracket][k - 1];
    assert forall k :: bracket + 3 <= k < space ==> line[k] == line[bracket + 3..space][k - bracket - 3];
    assert forall k :: space + 1 <= k < colon ==> line[k] == line[space + 1..colon][k - space - 1];
  }

  lemma GempirLineRoundTrip(parseTime: TimeParser, r: Record)
    requires WellFormed(Gempir, parseTime, r)
    ensures var line := RenderLine(Gempir, r); var o := GempirLine(line, parseTime);
      && o.Emit? && InBounds(o.view.name, |line|) && InBounds(o.view.message, |line|)
      && EntryAt(line, o.view) == Said(r)
  {
    hide Find, FindPair, RenderLine;
    var line := RenderLine(Gempir, r);
    GempirLayout(r, line);
    GempirSeparators(parseTime, r, line);
  }

  lemma OverrustleLayout(r: Record, line: string)
    requires line == RenderLine(Overrustle, r)
    ensures var bracket := |r.timeText| + 1; var space := bracket + 3 + |r.name|;
      && |line| == space + 1 + |r.message|
      && line[0] == '[' && line[bracket] == ']' && line[bracket + 1] == ' '
      && line[space - 1] == ':' && line[space] == ' '
      && line[1..bracket] == r.timeText
      && line[bracket + 2..space - 1] == r.name && line[space + 1..] == r.message
  {
  }

  lemma OverrustleSeparators(parseTime: TimeParser, r: Record, line: string)
    requires WellFormed(Overrustle, parseTime, r) && line == RenderLine(Overrustle, r)
    ensures var bracket := |r.timeText| + 1;
      FindPair(line, ']', ' ') == Some(bracket) && FirstAt(line, ' ', bracket + 2, bracket + 3 + |r.name|)
  {
    hide Find, FindPair, RenderLine;
    OverrustleLayout(r, line);
    var bracket := |r.timeText| + 1;
    var space := bracket + 3 + |r.name|;
    assert forall k :: 1 <= k < bracket ==> line[k] == line[1..bracket][k - 1];
    assert forall k :: bracket + 2 <= k < space - 1 ==> line[k] == line[bracket + 2..space - 1][k - bracket - 2];
  }

  lemma OverrustleLineRoundTrip(parseTime: TimeParser, r: Record)
    requires WellFormed(Overrustle, parseTime, r)
    ensures var line := RenderLine(Overrustle, r); var o := OverrustleLine(line, parseTime);
      && o.Emit? && InBounds(o.view.name, |line|) && InBounds(o.view.message, |line|)
      && EntryAt(line, o.view) == Said(r)
  {
    hide Find, FindPair, RenderLine;
    var line := RenderLine(Overrustle, r);
    OverrustleLayout(r, line);
    OverrustleSeparators(parseTime, r, line);
  }

  lemma LineRoundTrip(service: LogService, parseTime: TimeParser, r: Record)
    requires WellFormed(service, parseTime, r)
    ensures var line := RenderLine(service, r); var o := ParseLine(service, parseTime, line);
      && o.Emit? && InBounds(o.view.name, |line|) && InBounds(o.view.message, |line|)
      && EntryAt(line, o.view) == Said(r)
    ensures '\n' !in RenderLine(service, r)
  {
    hide GempirLine, OverrustleLine, FindPair, Find;
    match service
    case Gempir => GempirLineRoundTrip(parseTime, r);
    case Overrustle => OverrustleLineRoundTrip(parseTime, r);
  }

  lemma {:induction false} SplitRendered(service: LogService, parseTime: TimeParser, rs: seq<Record>)
    requires forall r :: r in rs ==> WellFormed(service, parseTime, r)
    ensures SplitLines(Render(service, rs)) == seq(|rs|, i requires 0 <= i < |rs| => RenderLine(service, rs[i]))
  {
    hide Find, RenderLine;
    if rs != [] {
      var line := RenderLine(service, rs[0]);
      var tail := Render(service, rs[1..]);
      var data := Render(service, rs);
      LineRoundTrip(service, parseTime, rs[0]);
      assert FirstAt(data, '\n', 0, |line|);
      assert data[..|line|] == line;
      assert data == line + "\n" + tail;
      SplitShift(line + "\n", tail, 0);
      SplitRendered(service, parseTime, rs[1..]);
    }
  }

  lemma {:induction false} EntriesOfLines(service: LogService, parseTime: TimeParser,
                                          rs: seq<Record>, lines: seq<string>)
    requires forall r :: r in rs ==> WellFormed(service, parseTime, r)
    requires lines == seq(|rs|, i requires 0 <= i < |rs| => RenderLine(service, rs[i]))
    ensures Entries(service, parseTime, lines) == AllSaid(rs)
    ensures service == Gempir ==> forall l :: l in lines ==> !ColonLast(l)
    decreases |rs|
  {
    hide RenderLine, ParseLine, ColonLast;
    if rs != [] {
      EntriesOfLines(service, parseTime, rs[1..], lines[1..]);
      LineRoundTrip(service, parseTime, rs[0]);
      LineDefined(service, parseTime, lines[0]);
      assert AllSaid(rs) == [Said(rs[0])] + AllSaid(rs[1..]);
      assert forall l :: l in lines <==> l == lines[0] || l in lines[1..];
    }
  }

  /**
    Parsing inverts rendering: any list of well-formed records, rendered as one log,
    is accepted and gives back the times, names and messages in order.
   */
  lemma RoundTrip(service: LogService, parseTime: TimeParser, rs: seq<Record>)
    requires forall r :: r in rs ==> WellFormed(service, parseTime, r)
    ensures var data := Render(service, rs);
      var outcome := ParseEach(service, parseTime, SplitLines(data), 0);
      && data != Sentinel(service)
      && outcome.Parsed? && ReadsAs(data, outcome.lines, AllSaid(rs))
  {
    hide SplitFrom, ParseEach, Entries, ColonLast, RenderLine, ParseLine, ReadsAs, WellFormed, Sentinel, Render;
    var data := Render(service, rs);
    SplitRendered(service, parseTime, rs);
    EntriesOfLines(service, parseTime, rs, SplitLines(data));
    ParseDefined(service, parseTime, SplitLines(data), 0);
    ViewsReadLines(service, parseTime, data, 0);
    NeverTheSentinel(service, rs);
  }

  lemma NeverTheSentinel(service: LogService, rs: seq<Record>)
    ensures Render(service, rs) != Sentinel(service)
  {
    hide RenderLine, Sentinel;
    SentinelIsOneLine(service);
    if rs != [] {
      assert Render(service, rs)[|RenderLine(service, rs[0])|] == '\n';
    }
  }

  lemma SentinelIsOneLine(service: LogService)
    ensures Sentinel(service) != "" && '\n' !in Sentinel(service)
  {
  }
}
