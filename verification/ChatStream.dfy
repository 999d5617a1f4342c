/** From the bytes the server sends to the channels the bot keeps. */
module ChatStream {
  import opened StringViews
  import opened Search
  import Framing
  import opened IRCMessages
  import IRC = IRCRoundTrip
  import opened Channels

  function TextOf(data: string, v: Option<View>): string {
    if v.Some? && InBounds(v.value, |data|) then Text(data, v.value) else ""
  }

  function Texts(data: string, views: seq<View>): seq<string> {
    seq(|views|, i requires 0 <= i < |views| => TextOf(data, Some(views[i])))
  }

  /** What the handling of channels sees of a line. */
  function FromLine(line: string): Message {
    var v := Parse(line);
    Message(TextOf(line, v.nick), TextOf(line, v.command), Texts(line, v.params), TextOf(line, v.body))
  }

  /** What it should see of a message; a nick without '@' keeps a space, a bare command is its own parameter. */
  function Seen(m: IRC.Message): Message {
    var nick := match m.prefix
      case NoPrefix => ""
      case NickOnly(n) => n + " "
      case NickHost(n, _) => n
      case Full(n, _, _) => n;
    Message(nick, m.command,
            if m.params == [] && m.body.None? then [m.command] else m.params,
            if m.body.Some? then m.body.value else "")
  }

  lemma LineSeen(m: IRC.Message)
    requires IRC.WellFormed(m)
    ensures FromLine(IRC.Print(m)) == Seen(m)
  {
    hide Parse, IRC.Print, IRC.WellFormed;
    var data := IRC.Print(m);
    if m.params != [] || m.body.Some? {
      IRC.RoundTrip(m);
    } else {
      IRC.CommandAlone(m);
    }
  }

  function Lines(ms: seq<IRC.Message>): seq<string> {
    seq(|ms|, i requires 0 <= i < |ms| => IRC.Print(ms[i]))
  }

  function SeenAll(ms: seq<IRC.Message>): seq<Message> {
    seq(|ms|, i requires 0 <= i < |ms| => Seen(ms[i]))
  }

  function FromLines(lines: seq<string>): seq<Message> {
    seq(|lines|, i requires 0 <= i < |lines| => FromLine(lines[i]))
  }

  /**
    However the stream of printed messages is cut into reads outside of CR-LF
    pairs, the channels kept after it are those of the messages themselves.
   */
  lemma StreamToChannels(nick: string, initial: set<string>, ms: seq<IRC.Message>, chunks: seq<string>, c: string)
    requires forall i :: 0 <= i < |ms| ==> IRC.WellFormed(ms[i]) && Framing.Clean(IRC.Print(ms[i]))
    requires Framing.Joined(chunks) == Framing.Stream(Lines(ms)) && Framing.CutsOutsidePairs("", chunks)
    requires AllReadable(nick, SeenAll(ms))
    ensures var framed := Framing.Feed("", chunks);
      && framed.Framed? && framed.rest == ""
      && FromLines(framed.lines) == SeenAll(ms)
      && Holds(nick, initial, SeenAll(ms), c, ConsumeAll(nick, Empty(initial), FromLines(framed.lines)))
  {
    hide Framing.Feed, Framing.Stream, Framing.CutsOutsidePairs, Framing.Clean, Framing.Joined;
    hide FromLine, Seen, IRC.WellFormed, IRC.Print, Holds, ConsumeAll, AllReadable;
    assert Framing.Stream(Lines(ms)) + "" == Framing.Stream(Lines(ms));
    assert Framing.Clean("") by { NothingIsClean(); }
    Framing.FramingIsChunkIndependent(Lines(ms), "", chunks);
    forall i | 0 <= i < |ms|
      ensures FromLine(Lines(ms)[i]) == Seen(ms[i])
    {
      LineSeen(ms[i]);
    }
    assert FromLines(Lines(ms)) == SeenAll(ms);
    ChannelHistory(nick, initial, SeenAll(ms), c);
  }

  lemma NothingIsClean()
    ensures Framing.Clean("")
  {
  }

  /**
    A message from the bot's own nick, in any case, is taken for the bot's own
    exactly when its prefix names a host.
   */
  lemma OwnExactly(nick: string, m: IRC.Message)
    requires IRC.Free(nick, ' ') && !m.prefix.NoPrefix? && Lowered(m.prefix.nick) == Lowered(nick)
    ensures Own(nick, Seen(m)) <==> m.prefix.NickHost? || m.prefix.Full?
  {
    if m.prefix.NickOnly? {
      BareNickIsNotOwn(nick, m);
    }
  }

  /** A JOIN or PART whose prefix is a bare nick is never taken for the bot's own. */
  lemma BareNickIsNotOwn(nick: string, m: IRC.Message)
    requires m.prefix.NickOnly? && IRC.Free(nick, ' ')
    ensures !Own(nick, Seen(m))
  {
    var seen := m.prefix.nick + " ";
    var last := |seen| - 1;
    assert |Lowered(seen)| == |seen| && |Lowered(nick)| == |nick|;
    assert Lowered(seen)[last] == ' ';
    if |nick| == |seen| {
      assert Lowered(nick)[last] == ToLower(nick[last]) != ' ';
    }
  }

  // ---------- messages without a parameter ----------

  /**
    For a printed message, the parameter that the handling of channels looks at is
    there exactly when there is one in the message, or neither parameter nor body.
   */
  lemma ReadableExactly(nick: string, m: IRC.Message)
    requires IRC.WellFormed(m)
    ensures Readable(nick, FromLine(IRC.Print(m)))
       <==> (LooksAtParam(nick, Seen(m)) ==> m.params != [] || m.body.None?)
  {
    hide FromLine, IRC.Print, IRC.WellFormed;
    LineSeen(m);
  }

  /** A line whose first parameter is read although it has none. */
  lemma UnreadableExample(nick: string)
    ensures !Readable(nick, FromLine("PRIVMSG :hi"))
  {
    var m := IRC.Message(IRC.NoPrefix, "PRIVMSG", [], Some("hi"));
    assert IRC.PrintArguments(m.params, m.body) == " :hi";
    assert IRC.Print(m) == "PRIVMSG :hi";
    ReadableExactly(nick, m);
  }
}
