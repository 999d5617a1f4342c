/** Parsing inverts printing, for messages of the format of section 2.3.1 of RFC 2812. */
module IRCRoundTrip {
  import opened StringViews
  import opened IRCMessages

  datatype Prefix = NoPrefix | NickOnly(nick: string) | NickHost(nick: string, host: string)
                  | Full(nick: string, user: string, host: string)

  datatype Message = Message(prefix: Prefix, command: string, params: seq<string>, body: Option<string>)

  predicate Free(s: string, c: char) {
    forall i :: 0 <= i < |s| ==> s[i] != c
  }

  predicate PrefixOk(p: Prefix) {
    match p
    case NoPrefix => true
    case NickOnly(n) => Free(n, ' ') && Free(n, '@')
    case NickHost(n, h) => Free(n, ' ') && Free(n, '@') && Free(n, '!') && Free(h, ' ') && Free(h, '!')
    case Full(n, u, h) => Free(n, ' ') && Free(n, '@') && Free(n, '!') && Free(u, ' ') && Free(u, '@') && Free(h, ' ')
  }

  predicate WordOk(w: string) {
    w != "" && w[0] != ':' && Free(w, ' ')
  }

  /** A parameter may be empty, which prints as two spaces in a row. */
  predicate ParamOk(w: string) {
    (w == "" || w[0] != ':') && Free(w, ' ')
  }

  /** But not the last one, unless a body follows it. */
  predicate ParamsOk(params: seq<string>, body: Option<string>) {
    && (forall i :: 0 <= i < |params| ==> ParamOk(params[i]))
    && (params != [] && body.None? ==> params[|params| - 1] != "")
  }

  predicate WellFormed(m: Message) {
    PrefixOk(m.prefix) && WordOk(m.command) && ParamsOk(m.params, m.body)
  }

  // ---------- printing ----------

  function PrintPrefix(p: Prefix): string {
    match p
    case NoPrefix => ""
    case NickOnly(n) => ":" + n + " "
    case NickHost(n, h) => ":" + n + "@" + h + " "
    case Full(n, u, h) => ":" + n + "!" + u + "@" + h + " "
  }

  /** Parameters and body, each preceded by a space. */
  function PrintArguments(params: seq<string>, body: Option<string>): string {
    if params != [] then " " + params[0] + PrintArguments(params[1..], body)
    else if body.Some? then " :" + body.value
    else ""
  }

  function Print(m: Message): string {
    PrintPrefix(m.prefix) + (m.command + PrintArguments(m.params, m.body))
  }

  // ---------- what the views say ----------

  ghost predicate Says(data: string, v: Option<View>, text: string) {
    v.Some? && InBounds(v.value, |data|) && Text(data, v.value) == text
  }

  ghost predicate ParamsSay(data: string, views: seq<View>, params: seq<string>) {
    && |views| == |params|
    && forall i :: 0 <= i < |views| ==> InBounds(views[i], |data|) && Text(data, views[i]) == params[i]
  }

  /** The prefix views keep the space that ends the prefix. */
  ghost predicate PrefixSays(data: string, v: Views, p: Prefix) {
    match p
    case NoPrefix => v.nick == None && v.user == None && v.host == None
    case NickOnly(n) => Says(data, v.nick, n + " ") && v.user == None && v.host == None
    case NickHost(n, h) => Says(data, v.nick, n) && v.user == None && Says(data, v.host, h + " ")
    case Full(n, u, h) => Says(data, v.nick, n) && Says(data, v.user, u) && Says(data, v.host, h + " ")
  }

  ghost predicate BodySays(data: string, v: Option<View>, body: Option<string>) {
    match body
    case None => v == None
    case Some(text) => Says(data, v, text)
  }

  // ---------- the prefix ----------

  lemma FullLayout(n: string, u: string, h: string, rest: string, data: string)
    requires data == ":" + n + "!" + u + "@" + h + " " + rest
    ensures var ex := 1 + |n|; var at := ex + 1 + |u|; var end := at + 1 + |h|;
      && end < |data| && data[0] == ':' && data[ex] == '!' && data[at] == '@' && data[end] == ' '
      && data[1..ex] == n && data[ex + 1..at] == u && data[at + 1..end] == h
      && data[at + 1..end + 1] == h + " "
  {
  }

  lemma FullPrefix(n: string, u: string, h: string, rest: string, data: string)
    requires PrefixOk(Full(n, u, h)) && data == ":" + n + "!" + u + "@" + h + " " + rest
    ensures Find(data, ' ', 0) == Some(|n| + |u| + |h| + 3)
    ensures PrefixSays(data, PrefixViews(data, PrefixEnd(data)), Full(n, u, h))
  {
    hide Find;
    FullLayout(n, u, h, rest, data);
    var ex := 1 + |n|;
    var at := ex + 1 + |u|;
    var end := at + 1 + |h|;
    SliceFree(data, 1, ex, n, ' ');
    SliceFree(data, 1, ex, n, '@');
    SliceFree(data, 1, ex, n, '!');
    SliceFree(data, ex + 1, at, u, ' ');
    SliceFree(data, ex + 1, at, u, '@');
    SliceFree(data, at + 1, end, h, ' ');
    assert FirstAt(data, ' ', 0, end);
    assert FirstAt(data[..end + 1], '@', 1, at);
    assert FirstAt(data[..end + 1], '!', 1, ex);
  }

  lemma SliceFree(data: string, from: nat, end: nat, s: string, c: char)
    requires from <= end <= |data| && data[from..end] == s && Free(s, c)
    ensures forall k :: from <= k < end ==> data[k] != c
  {
    forall k | from <= k < end
      ensures data[k] != c
    {
      assert data[k] == s[k - from];
    }
  }

  lemma NickHostPrefix(n: string, h: string, rest: string, data: string)
    requires PrefixOk(NickHost(n, h)) && data == ":" + n + "@" + h + " " + rest
    ensures Find(data, ' ', 0) == Some(|n| + |h| + 2)
    ensures PrefixSays(data, PrefixViews(data, PrefixEnd(data)), NickHost(n, h))
  {
    hide Find;
    var at := 1 + |n|;
    var end := at + 1 + |h|;
    assert data[1..at] == n && data[at] == '@' && data[at + 1..end] == h && data[end] == ' ';
    assert data[at + 1..end + 1] == h + " ";
    SliceFree(data, 1, at, n, ' ');
    SliceFree(data, 1, at, n, '@');
    SliceFree(data, 1, at, n, '!');
    SliceFree(data, at + 1, end, h, ' ');
    SliceFree(data, at + 1, end, h, '!');
    assert FirstAt(data, ' ', 0, end);
    assert FirstAt(data[..end + 1], '@', 1, at);
  }

  lemma NickPrefix(n: string, rest: string, data: string)
    requires PrefixOk(NickOnly(n)) && data == ":" + n + " " + rest
    ensures Find(data, ' ', 0) == Some(|n| + 1)
    ensures PrefixSays(data, PrefixViews(data, PrefixEnd(data)), NickOnly(n))
  {
    hide Find;
    var end := 1 + |n|;
    assert data[1..end] == n && data[end] == ' ' && data[1..end + 1] == n + " ";
    SliceFree(data, 1, end, n, ' ');
    SliceFree(data, 1, end, n, '@');
    assert FirstAt(data, ' ', 0, end);
  }

  lemma PrefixParsed(p: Prefix, rest: string, data: string)
    requires PrefixOk(p) && !p.NoPrefix? && data == PrintPrefix(p) + rest
    ensures data[0] == ':' && AfterSpace(data, 0) == |PrintPrefix(p)|
    ensures PrefixSays(data, PrefixViews(data, PrefixEnd(data)), p)
  {
    hide Find, PrefixViews, PrefixEnd, PrefixOk, PrefixSays;
    match p
    case NickOnly(n) => NickPrefix(n, rest, data);
    case NickHost(n, h) => NickHostPrefix(n, h, rest, data);
    case Full(n, u, h) => FullPrefix(n, u, h, rest, data);
  }

  // ---------- command, parameters and body ----------

  /** A word followed by arguments is delimited by the first space after it. */
  lemma WordFound(before: string, word: string, params: seq<string>, body: Option<string>, data: string)
    requires Free(word, ' ') && data == before + word + PrintArguments(params, body)
    ensures Find(data, ' ', |before|)
         == if params == [] && body.None? then None else Some(|before| + |word|)
    ensures data[|before|..|before| + |word|] == word
    ensures PrintArguments(params, body) != "" <==> params != [] || body.Some?
  {
    hide Find;
    var end := |before| + |word|;
    SliceFree(data, |before|, end, word, ' ');
    if params != [] || body.Some? {
      assert PrintArguments(params, body)[0] == ' ';
      assert FirstAt(data, ' ', |before|, end);
    }
  }

  /** What the parameter loop and the body make of printed arguments. */
  ghost predicate ArgumentsRead(data: string, p: Params, params: seq<string>, body: Option<string>) {
    && ParamsSay(data, p.views, params)
    && p.end <= |data|
    && (match body
        case None => p.end == |data|
        case Some(text) => p.end < |data| && data[p.end + 1..] == text)
  }

  lemma ArgumentsCons(data: string, from: nat, space: nat, params: seq<string>, body: Option<string>)
    requires params != [] && from < |data| && data[from] != ':' && Find(data, ' ', from) == Some(space)
    requires data[from..space] == params[0]
    requires ArgumentsRead(data, ParamsFrom(data, space + 1), params[1..], body)
    ensures ArgumentsRead(data, ParamsFrom(data, from), params, body)
  {
    hide Find;
    var rest := ParamsFrom(data, space + 1);
    var views := [Span(from, space)] + rest.views;
    assert ParamsFrom(data, from) == Params(views, rest.end);
    hide ParamsFrom;
    forall i | 0 <= i < |views|
      ensures InBounds(views[i], |data|) && Text(data, views[i]) == params[i]
    {
      if i > 0 {
        assert views[i] == rest.views[i - 1] && params[i] == params[1..][i - 1];
      }
    }
  }

  lemma LastArgument(data: string, from: nat, word: string)
    requires from < |data| && data[from] != ':' && Find(data, ' ', from).None? && data[from..] == word
    ensures ArgumentsRead(data, ParamsFrom(data, from), [word], None)
  {
    hide Find;
  }

  lemma BodyArgument(data: string, from: nat, text: string)
    requires from < |data| && data[from] == ':' && data[from + 1..] == text
    ensures ArgumentsRead(data, ParamsFrom(data, from), [], Some(text))
  {
  }

  lemma ArgumentsSplit(before: string, params: seq<string>, body: Option<string>, data: string)
    requires params != [] && data == before + PrintArguments(params, body)
    ensures data == (before + " ") + params[0] + PrintArguments(params[1..], body)
    ensures data == (before + " " + params[0]) + PrintArguments(params[1..], body)
  {
  }

  lemma BodyOnly(before: string, body: Option<string>, data: string)
    requires body.Some? && data == before + PrintArguments([], body)
    ensures |before| + 1 < |data| && data[|before| + 1] == ':' && data[|before| + 2..] == body.value
  {
  }

  lemma {:induction false} ArgumentsParsed(before: string, params: seq<string>, body: Option<string>, data: string)
    requires ParamsOk(params, body) && (params != [] || body.Some?)
    requires data == before + PrintArguments(params, body)
    ensures |before| + 1 <= |data| && ArgumentsRead(data, ParamsFrom(data, |before| + 1), params, body)
    decreases |params|
  {
    hide Find, ParamOk, ParamsFrom, ArgumentsRead, PrintArguments;
    if params == [] {
      BodyOnly(before, body, data);
      BodyArgument(data, |before| + 1, body.value);
    } else {
      var word, front := params[0], before + " ";
      ParamIsFree(word);
      ArgumentsSplit(before, params, body, data);
      WordFound(front, word, params[1..], body, data);
      if params[1..] == [] && body.None? {
        assert params == [word];
        assert data[|front|] == data[|front|..|front| + |word|][0];
        assert data[|front|..] == word;
        LastArgument(data, |front|, word);
      } else {
        NextIsNoColon(front, word, params[1..], body, data);
        assert ParamsOk(params[1..], body);
        ArgumentsParsed(front + word, params[1..], body, data);
        ArgumentsCons(data, |front|, |front| + |word|, params, body);
      }
    }
  }

  lemma ParamIsFree(w: string)
    requires ParamOk(w)
    ensures (w == "" || w[0] != ':') && Free(w, ' ')
  {
  }

  /** What follows is the word, or the space after it. */
  lemma NextIsNoColon(front: string, word: string, params: seq<string>, body: Option<string>, data: string)
    requires word == "" || word[0] != ':'
    requires data == front + word + PrintArguments(params, body) && (params != [] || body.Some?)
    ensures |front| < |data| && data[|front|] != ':'
  {
    if word == "" {
      assert PrintArguments(params, body)[0] == ' ';
      assert data[|front|] == PrintArguments(params, body)[0];
    } else {
      assert data[|front|] == word[0];
    }
  }

  // ---------- the round trip ----------

  /** The message's parts, as the code delimits them. */
  ghost predicate Reads(data: string, v: Views, m: Message) {
    && PrefixSays(data, v, m.prefix)
    && Says(data, v.command, m.command)
    && ParamsSay(data, v.params, m.params)
    && BodySays(data, v.body, m.body)
  }

  lemma StartOf(m: Message, data: string)
    requires WellFormed(m) && data == Print(m)
    ensures var prefixed := data != "" && data[0] == ':'; var at := |PrintPrefix(m.prefix)|;
      && prefixed == !m.prefix.NoPrefix?
      && at < |data| && at == (if prefixed then AfterSpace(data, 0) else 0)
      && PrefixSays(data, if prefixed then PrefixViews(data, PrefixEnd(data)) else NO_VIEWS, m.prefix)
  {
    hide PrefixViews, PrefixEnd, PrintArguments, PrefixOk, PrefixSays, Find, AfterSpace;
    var rest := m.command + PrintArguments(m.params, m.body);
    if m.prefix.NoPrefix? {
      assert data == rest;
      assert data[0] == m.command[0];
      NoPrefixSays(data);
    } else {
      PrefixParsed(m.prefix, rest, data);
    }
  }

  lemma NoPrefixSays(data: string)
    ensures PrefixSays(data, NO_VIEWS, NoPrefix)
  {
  }

  /** PrefixSays looks at the prefix views only. */
  lemma PrefixFrame(data: string, v: Views, w: Views, p: Prefix)
    requires PrefixSays(data, v, p) && w.nick == v.nick && w.user == v.user && w.host == v.host
    ensures PrefixSays(data, w, p)
  {
  }

  /** Where the command starts, Parse in parts. */
  lemma ParseParts(data: string, prefixed: bool, start: nat)
    requires prefixed == (data != "" && data[0] == ':')
    requires start == (if prefixed then AfterSpace(data, 0) else 0) && start < |data|
    ensures var v := Parse(data); var p := ParamsFrom(data, AfterSpace(data, start));
      var w := if prefixed then PrefixViews(data, PrefixEnd(data)) else NO_VIEWS;
      && v.nick == w.nick && v.user == w.user && v.host == w.host
      && v.command == Some(UpToSpace(data, start)) && v.params == p.views
      && v.body == if p.end == |data| then None else Some(Span(p.end + 1, |data|))
  {
    hide PrefixViews, PrefixEnd, AfterSpace, UpToSpace, ParamsFrom;
    if prefixed {
      PrefixSetsNoMore(data, PrefixEnd(data));
    }
  }

  lemma PartsRead(m: Message, data: string, params: seq<string>)
    requires WellFormed(m) && data == Print(m)
    requires var next := AfterSpace(data, |PrintPrefix(m.prefix)|);
      ArgumentsRead(data, ParamsFrom(data, next), params, m.body)
    requires Says(data, Some(UpToSpace(data, |PrintPrefix(m.prefix)|)), m.command)
    ensures Reads(data, Parse(data), m.(params := params))
  {
    hide Print, PrintPrefix, PrefixViews, PrefixEnd, PrefixSays, AfterSpace, UpToSpace, ParamsFrom, Parse, WellFormed;
    var start := |PrintPrefix(m.prefix)|;
    StartOf(m, data);
    ParseParts(data, !m.prefix.NoPrefix?, start);
    var v := if m.prefix.NoPrefix? then NO_VIEWS else PrefixViews(data, PrefixEnd(data));
    PrefixFrame(data, v, Parse(data), m.prefix);
  }

  /** Parsing a printed message with a parameter or a body gives back every part. */
  lemma RoundTrip(m: Message)
    requires WellFormed(m) && (m.params != [] || m.body.Some?)
    ensures Reads(Print(m), Parse(Print(m)), m)
  {
    hide PrintPrefix, PrintArguments, Find, ParamsFrom, Parse, Reads, ArgumentsRead, PrefixOk;
    var data, before := Print(m), PrintPrefix(m.prefix);
    assert data == before + m.command + PrintArguments(m.params, m.body);
    WordFound(before, m.command, m.params, m.body, data);
    ArgumentsParsed(before + m.command, m.params, m.body, data);
    PartsRead(m, data, m.params);
  }

  /** Without parameters and body, the command is taken for a parameter as well. */
  lemma CommandAlone(m: Message)
    requires WellFormed(m) && m.params == [] && m.body.None?
    ensures Reads(Print(m), Parse(Print(m)), m.(params := [m.command]))
  {
    hide PrintPrefix, Find, ParamsFrom, Parse, Reads, ArgumentsRead, PrefixOk;
    var data, before := Print(m), PrintPrefix(m.prefix);
    assert data == before + m.command + PrintArguments(m.params, m.body) == before + m.command;
    WordFound(before, m.command, m.params, m.body, data);
    assert data[|before|] == m.command[0] && data[|before|..] == m.command;
    LastArgument(data, |before|, m.command);
    PartsRead(m, data, [m.command]);
  }

  /** The round trip succeeds exactly for messages with a parameter or a body. */
  lemma RoundTripExactly(m: Message)
    requires WellFormed(m)
    ensures Reads(Print(m), Parse(Print(m)), m) <==> m.params != [] || m.body.Some?
  {
    if m.params != [] || m.body.Some? {
      RoundTrip(m);
    } else {
      CommandAlone(m);
    }
  }

  /** The parsed message can be copied (see CopyImplementation) exactly if it has a full prefix and a body. */
  lemma CopyableExactly(m: Message)
    requires WellFormed(m)
    ensures AllSet(Parse(Print(m))) <==> m.prefix.Full? && m.body.Some?
  {
    hide Parse, Print;
    if m.params != [] || m.body.Some? {
      RoundTrip(m);
    } else {
      CommandAlone(m);
    }
  }

  // ---------- copying any line ----------

  /** Somewhere from `from` on there is a colon at the start of a word. */
  ghost predicate ColonWord(data: string, from: nat) {
    exists i :: from <= i < |data| && data[i] == ':' && (i == from || data[i - 1] == ' ')
  }

  lemma {:induction false} BodyExactly(data: string, from: nat)
    requires from <= |data|
    ensures ParamsFrom(data, from).end < |data| <==> ColonWord(data, from)
    decreases |data| - from
  {
    hide Find;
    if from < |data| && data[from] != ':' {
      var space := Find(data, ' ', from);
      if space.Some? {
        BodyExactly(data, space.value + 1);
        assert ParamsFrom(data, from).end == ParamsFrom(data, space.value + 1).end;
        if ColonWord(data, from) {
          var i :| from <= i < |data| && data[i] == ':' && (i == from || data[i - 1] == ' ');
          assert space.value < i;
          assert ColonWord(data, space.value + 1);
        }
      }
    }
  }

  /**
    A line starts with a prefix that has both '@' and '!', something follows the
    prefix, and after the command a word starts with a colon.
   */
  ghost predicate FullLine(data: string) {
    && data != "" && data[0] == ':'
    && Find(data[..PrefixEnd(data)], '@', 1).Some? && Find(data[..PrefixEnd(data)], '!', 1).Some?
    && CommandStart(data) < |data|
    && ColonWord(data, AfterSpace(data, CommandStart(data)))
  }

  /** For any line whatsoever: the parsed message can be copied exactly if the line is full. */
  lemma LineCopyableExactly(data: string)
    ensures AllSet(Parse(data)) <==> FullLine(data)
  {
    hide Find, ParamsFrom, PrefixEnd, AfterSpace, UpToSpace, ColonWord;
    if data != "" && data[0] == ':' {
      PrefixSetsNoMore(data, PrefixEnd(data));
      if CommandStart(data) < |data| {
        BodyExactly(data, AfterSpace(data, CommandStart(data)));
      }
    }
  }
}
