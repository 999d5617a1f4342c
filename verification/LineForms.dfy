/** What the parsers of log lines make of any line, well-formed or not, in terms of its text. */
module LineForms {
  import opened StringViews
  import opened TimeDetail
  import opened LogParser

  /** The line is `a`, the first "] " in it, and the rest. */
  ghost predicate Opens(line: string, a: string, rest: string) {
    && line == a + "] " + rest
    && forall k :: 0 <= k < |a| ==> !(line[k] == ']' && line[k + 1] == ' ')
  }

  /** The text handed to the time parser: without its first character, or everything after it if "] " comes first. */
  function TimeText(line: string, a: string): string
    requires a == "" ==> line != ""
  {
    if a == "" then line[1..] else a[1..]
  }

  lemma OpeningFound(line: string, a: string, rest: string)
    requires Opens(line, a, rest)
    ensures FindPair(line, ']', ' ') == Some(|a|)
    ensures line != "" && Text(line, Substr(0, |line|, 1, |a| - 1)) == TimeText(line, a)
  {
    hide FindPair;
    assert line[|a|] == ']' && line[|a| + 1] == ' ';
    assert line[..|a|] == a;
  }

  lemma CharFound(line: string, before: string, word: string, c: char, after: string)
    requires line == before + word + [c] + after && c !in word
    ensures Find(line, c, |before|) == Some(|before| + |word|)
    ensures line[|before|..|before| + |word|] == word && line[|before| + |word| + 1..] == after
  {
    hide Find;
    assert forall k :: |before| <= k < |before| + |word| ==> line[k] == word[k - |before|];
    assert FirstAt(line, c, |before|, |before| + |word|);
  }

  lemma CharMissing(line: string, before: string, after: string, c: char)
    requires line == before + after && c !in after
    ensures Find(line, c, |before|) == None
  {
    hide Find;
    assert forall k :: |before| <= k < |line| ==> line[k] == after[k - |before|];
  }

  /** What a line is parsed to: skipped without a valid time, else read as name and message. */
  ghost predicate ReadAs(o: LineOutcome, line: string, time: Option<TimePoint>, name: string, message: string) {
    match time
    case None => o == Skip
    case Some(t) =>
      && o.Emit? && InBounds(o.view.name, |line|) && InBounds(o.view.message, |line|)
      && EntryAt(line, o.view) == Entry(t, name, message)
  }

  /** A line view whose name and message lie at these positions. */
  lemma EmitReads(line: string, v: LineView, from: nat, end: nat, start: nat)
    requires from <= end <= |line| && start <= |line|
    requires v.name == View(from, end - from) && v.message == View(start, |line| - start)
    ensures ReadAs(Emit(v), line, Some(v.time), line[from..end], line[start..])
  {
    assert Text(line, v.name) == line[from..end];
    assert Text(line, v.message) == line[start..];
  }

  lemma GempirViews(parseTime: TimeParser, line: string, bracket: nat, space: nat, colon: nat, timeView: View)
    requires FindPair(line, ']', ' ') == Some(bracket) && Find(line, ' ', bracket + 2) == Some(space)
    requires Find(line, ':', space + 1) == Some(colon)
    requires timeView == Substr(0, |line|, 1, bracket - 1)
    ensures GempirLine(line, parseTime)
         == if |line| == colon + 1 then Undefined
            else match parseTime(Text(line, timeView))
                 case None => Skip
                 case Some(time) =>
                   Emit(LineView(View(0, |line| + 1), timeView, time,
                                 View(space + 1, colon - (space + 1)), View(colon + 2, |line| - (colon + 2))))
  {
    hide Find, FindPair, Substr;
  }

  lemma GempirFrom(parseTime: TimeParser, line: string, bracket: nat, space: nat, colon: nat, timeText: string)
    requires FindPair(line, ']', ' ') == Some(bracket) && Find(line, ' ', bracket + 2) == Some(space)
    requires Find(line, ':', space + 1) == Some(colon)
    requires timeText == Text(line, Substr(0, |line|, 1, bracket - 1))
    ensures if |line| == colon + 1 then GempirLine(line, parseTime) == Undefined
            else ReadAs(GempirLine(line, parseTime), line, parseTime(timeText),
                        line[space + 1..colon], line[colon + 2..])
  {
    hide Find, FindPair, Substr, GempirLine;
    GempirViews(parseTime, line, bracket, space, colon, Substr(0, |line|, 1, bracket - 1));
    var o := GempirLine(line, parseTime);
    if o.Emit? {
      EmitReads(line, o.view, space + 1, colon, colon + 2);
    }
  }

  /** The gempir parser on any line with its three separators. */
  lemma GempirForm(parseTime: TimeParser, line: string, a: string, channel: string, name: string, r: string)
    requires Opens(line, a, channel + " " + name + ":" + r) && ' ' !in channel && ':' !in name
    ensures if r == "" then GempirLine(line, parseTime) == Undefined
            else ReadAs(GempirLine(line, parseTime), line, parseTime(TimeText(line, a)), name, r[1..])
  {
    hide Find, FindPair, TimeText, Opens, GempirLine, ReadAs;
    OpeningFound(line, a, channel + " " + name + ":" + r);
    var front := a + "] ";
    assert line == front + (channel + " " + name + ":" + r) by { Opened(line, a, channel + " " + name + ":" + r); }
    assert line == front + channel + [' '] + (name + ":" + r);
    CharFound(line, front, channel, ' ', name + ":" + r);
    assert line == (front + channel + " ") + name + [':'] + r;
    CharFound(line, front + channel + " ", name, ':', r);
    var colon := |front| + |channel| + 1 + |name|;
    GempirFrom(parseTime, line, |a|, |front| + |channel|, colon, TimeText(line, a));
    if r != "" {
      assert line[colon + 2..] == line[colon + 1..][1..];
    }
  }

  lemma Opened(line: string, a: string, rest: string)
    requires Opens(line, a, rest)
    ensures line == a + "] " + rest
  {
  }

  /** It skips every other line. */
  lemma GempirSkips(parseTime: TimeParser, line: string)
    ensures (forall k :: 0 <= k < |line| - 1 ==> !(line[k] == ']' && line[k + 1] == ' '))
            ==> GempirLine(line, parseTime) == Skip
    ensures forall a, rest :: Opens(line, a, rest) && ' ' !in rest ==> GempirLine(line, parseTime) == Skip
    ensures forall a, channel, rest ::
      Opens(line, a, channel + " " + rest) && ' ' !in channel && ':' !in rest ==> GempirLine(line, parseTime) == Skip
  {
    hide Find, FindPair;
    forall a, rest | Opens(line, a, rest) && ' ' !in rest
      ensures GempirLine(line, parseTime) == Skip
    {
      OpeningFound(line, a, rest);
      CharMissing(line, a + "] ", rest, ' ');
    }
    forall a, channel, rest | Opens(line, a, channel + " " + rest) && ' ' !in channel && ':' !in rest
      ensures GempirLine(line, parseTime) == Skip
    {
      OpeningFound(line, a, channel + " " + rest);
      var front := a + "] ";
      assert line == front + channel + [' '] + rest;
      CharFound(line, front, channel, ' ', rest);
      assert line == (front + channel + " ") + rest;
      CharMissing(line, front + channel + " ", rest, ':');
    }
  }

  lemma OverrustleFrom(parseTime: TimeParser, line: string, bracket: nat, space: nat, timeText: string,
                       name: string)
    requires FindPair(line, ']', ' ') == Some(bracket) && Find(line, ' ', bracket + 2) == Some(space)
    requires timeText == Text(line, Substr(0, |line|, 1, bracket - 1))
    requires name == Text(line, Substr(bracket + 2, |line|, bracket + 2, space - (bracket + 2) - 1))
    ensures ReadAs(OverrustleLine(line, parseTime), line, parseTime(timeText), name, line[space + 1..])
  {
    hide Find, FindPair, Substr;
    assert Text(line, View(space + 1, |line| - (space + 1))) == line[space + 1..];
  }

  lemma NameText(line: string, from: nat, space: nat)
    requires from <= space < |line|
    ensures var v := Substr(from, |line|, from, space - from - 1);
      InBounds(v, |line|) && Text(line, v) == if space == from then line[from..] else line[from..space - 1]
  {
  }

  /** The overrustle parser on any line with its two separators; the name loses its last character. */
  lemma OverrustleForm(parseTime: TimeParser, line: string, a: string, word: string, r: string)
    requires Opens(line, a, word + " " + r) && ' ' !in word
    ensures ReadAs(OverrustleLine(line, parseTime), line, parseTime(TimeText(line, a)),
                   if word == "" then " " + r else word[..|word| - 1], r)
  {
    hide Find, FindPair, TimeText, Opens, OverrustleLine, ReadAs;
    OpeningFound(line, a, word + " " + r);
    var front := a + "] ";
    assert line == front + (word + " " + r) by { Opened(line, a, word + " " + r); }
    assert line == front + word + [' '] + r;
    CharFound(line, front, word, ' ', r);
    NameText(line, |front|, |front| + |word|);
    var name := if word == "" then " " + r else word[..|word| - 1];
    if word == "" {
      assert line[|front|..] == name;
    } else {
      assert line[|front|..|front| + |word| - 1] == name;
    }
    OverrustleFrom(parseTime, line, |a|, |front| + |word|, TimeText(line, a), name);
  }

  /** It skips every other line. */
  lemma OverrustleSkips(parseTime: TimeParser, line: string)
    ensures (forall k :: 0 <= k < |line| - 1 ==> !(line[k] == ']' && line[k + 1] == ' '))
            ==> OverrustleLine(line, parseTime) == Skip
    ensures forall a, rest :: Opens(line, a, rest) && ' ' !in rest ==> OverrustleLine(line, parseTime) == Skip
  {
    hide Find, FindPair;
    forall a, rest | Opens(line, a, rest) && ' ' !in rest
      ensures OverrustleLine(line, parseTime) == Skip
    {
      OpeningFound(line, a, rest);
      CharMissing(line, a + "] ", rest, ' ');
    }
  }
}
