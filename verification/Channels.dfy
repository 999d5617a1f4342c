/** The channels the bot is in, and what was said in them. */
module Channels {
  import opened Search
  import opened MessageBuffers

  /** The parts of a parsed message that decide about channels. */
  datatype Message = Message(nick: string, command: string, params: seq<string>, body: string)

  /** `m_message_buffer_size` */
  const BUFFER_SIZE: nat := 1000

  predicate Own(nick: string, m: Message) {
    Lowered(m.nick) == Lowered(nick)
  }

  /** The code looks at the first parameter of m, whether or not there is one. */
  predicate LooksAtParam(nick: string, m: Message) {
    m.command == "PRIVMSG" || (Own(nick, m) && (m.command == "JOIN" || m.command == "PART"))
  }

  predicate Readable(nick: string, m: Message) {
    LooksAtParam(nick, m) ==> m.params != []
  }

  type Contents = map<string, seq<Message>>

  function Consume(nick: string, channels: Contents, m: Message): Contents
    requires Readable(nick, m)
  {
    if m.command == "PRIVMSG" then
      var c := m.params[0];
      if c in channels then channels[c := LastN(channels[c] + [m], BUFFER_SIZE)] else channels
    else if m.command == "PING" || m.command == "RECONNECT" || !Own(nick, m) then channels
    else if m.command == "JOIN" then
      if m.params[0] in channels then channels else channels[m.params[0] := []]
    else if m.command == "PART" then channels - {m.params[0]}
    else channels
  }

  ghost predicate AllReadable(nick: string, ms: seq<Message>) {
    forall i :: 0 <= i < |ms| ==> Readable(nick, ms[i])
  }

  function ConsumeAll(nick: string, channels: Contents, ms: seq<Message>): Contents
    requires AllReadable(nick, ms)
  {
    if ms == [] then channels
    else Consume(nick, ConsumeAll(nick, channels, ms[..|ms| - 1]), ms[|ms| - 1])
  }

  class ChannelKeeper {
    const nick: string
    var channels: map<string, MessageBuffer<Message>>
    var msgPreBuffer: seq<Message>

    ghost predicate Valid()
      reads `channels, channels.Values
    {
      && (forall c :: c in channels ==> channels[c].Valid() && channels[c].capacity == BUFFER_SIZE)
      && (forall c, d :: c in channels && d in channels && c != d ==> channels[c] != channels[d])
    }

    ghost function View(): Contents
      reads `channels, channels.Values
    {
      map c | c in channels :: channels[c].queue
    }

    constructor (nick: string)
      ensures Valid() && this.nick == nick && View() == map[] && msgPreBuffer == []
      ensures channels == map[]
    {
      this.nick := nick;
      channels := map[];
      msgPreBuffer := [];
    }

    /** `try_emplace` of a channel with an empty buffer. */
    method AddChannel(channel: string)
      requires Valid()
      modifies `channels
      ensures Valid() && View() == (if channel in old(View()) then old(View()) else old(View())[channel := []])
      ensures forall b :: b in channels.Values ==> b in old(channels.Values) || fresh(b)
    {
      if channel !in channels {
        var buffer := new MessageBuffer<Message>(BUFFER_SIZE);
        channels := channels[channel := buffer];
      }
    }

    /** Keeps a message of a channel the bot is in. */
    method Keep(channel: string, m: Message)
      requires Valid()
      modifies channels.Values
      ensures Valid()
      ensures View() == if channel !in old(View()) then old(View())
                        else old(View())[channel := LastN(old(View())[channel] + [m], BUFFER_SIZE)]
    {
      if channel in channels {
        channels[channel].Push(m);
      }
    }

    /** The part of `consumeMsgBuffer` that handles one message. */
    method ConsumeMessage(m: Message)
      requires Valid() && Readable(nick, m)
      modifies `channels, channels.Values
      ensures Valid() && View() == Consume(nick, old(View()), m)
      ensures forall b :: b in channels.Values ==> b in old(channels.Values) || fresh(b)
    {
      if m.command == "PRIVMSG" {
        Keep(m.params[0], m);
      } else if m.command != "PING" && m.command != "RECONNECT" {
        var own := CaselessCompare(m.nick, nick);
        if own {
          if m.command == "JOIN" {
            AddChannel(m.params[0]);
          } else if m.command == "PART" {
            var channel := m.params[0];
            if channel in channels {
              channels := channels - {channel};
            }
          }
        }
      }
    }

    method ConsumeMsgBuffer()
      requires Valid() && AllReadable(nick, msgPreBuffer)
      modifies this, channels.Values
      ensures Valid() && msgPreBuffer == []
      ensures AllReadable(nick, old(msgPreBuffer)) && View() == ConsumeAll(nick, old(View()), old(msgPreBuffer))
      ensures forall b :: b in channels.Values ==> b in old(channels.Values) || fresh(b)
    {
      hide Consume, ConsumeAll, AllReadable;
      ghost var all := msgPreBuffer;
      ghost var done: nat := 0;
      assert all[..0] == [];
      NothingConsumed(nick, View());
      while msgPreBuffer != []
        invariant done <= |all| && msgPreBuffer == all[done..]
        invariant AllReadable(nick, all[..done])
        invariant Valid() && View() == ConsumeAll(nick, old(View()), all[..done])
        invariant forall b :: b in channels.Values ==> b in old(channels.Values) || fresh(b)
        decreases |msgPreBuffer|
      {
        assert msgPreBuffer[0] == all[done];
        ConsumeNext(nick, old(View()), all, done);
        ConsumeMessage(msgPreBuffer[0]);
        msgPreBuffer := msgPreBuffer[1..];
        done := done + 1;
      }
      assert all[..done] == all;
    }
  }

  lemma ConsumeNext(nick: string, channels: Contents, all: seq<Message>, done: nat)
    requires AllReadable(nick, all) && done < |all|
    ensures Readable(nick, all[done]) && AllReadable(nick, all[..done]) && AllReadable(nick, all[..done + 1])
    ensures ConsumeAll(nick, channels, all[..done + 1])
         == Consume(nick, ConsumeAll(nick, channels, all[..done]), all[done])
  {
    assert all[..done + 1][..done] == all[..done];
  }

  // ---------- whole runs ----------

  predicate OwnJoin(nick: string, m: Message, c: string) {
    Own(nick, m) && m.command == "JOIN" && m.params != [] && m.params[0] == c
  }

  predicate OwnPart(nick: string, m: Message, c: string) {
    Own(nick, m) && m.command == "PART" && m.params != [] && m.params[0] == c
  }

  predicate SaidIn(m: Message, c: string) {
    m.command == "PRIVMSG" && m.params != [] && m.params[0] == c
  }

  /** Whether the bot is in the channel: its own last JOIN or PART there decides. */
  predicate InChannel(nick: string, initial: set<string>, ms: seq<Message>, c: string) {
    if ms == [] then c in initial
    else
      var m := ms[|ms| - 1];
      if OwnJoin(nick, m, c) then true
      else if OwnPart(nick, m, c) then false
      else InChannel(nick, initial, ms[..|ms| - 1], c)
  }

  /** Since when it has been there without a break: the number of messages before that. */
  function Since(nick: string, initial: set<string>, ms: seq<Message>, c: string): (k: nat)
    requires InChannel(nick, initial, ms, c)
    ensures k <= |ms|
    ensures forall j :: k <= j <= |ms| ==> InChannel(nick, initial, ms[..j], c)
    ensures k > 0 ==> !InChannel(nick, initial, ms[..k - 1], c)
  {
    assert ms[..|ms|] == ms;
    if ms == [] then 0
    else
      var front := ms[..|ms| - 1];
      assert forall j :: 0 <= j <= |front| ==> front[..j] == ms[..j];
      if InChannel(nick, initial, front, c) then Since(nick, initial, front, c) else |ms|
  }

  /** What was said in the channel, in order. */
  function Said(ms: seq<Message>, c: string): seq<Message> {
    if ms == [] then []
    else Said(ms[..|ms| - 1], c) + if SaidIn(ms[|ms| - 1], c) then [ms[|ms| - 1]] else []
  }

  /** What was said is what was sent to the channel as a PRIVMSG, as often and in the same order. */
  lemma {:induction false} SaidCounts(ms: seq<Message>, c: string, m: Message)
    ensures multiset(Said(ms, c))[m]
         == if m.command == "PRIVMSG" && m.params != [] && m.params[0] == c then multiset(ms)[m] else 0
  {
    if ms != [] {
      SaidCounts(ms[..|ms| - 1], c, m);
      assert ms == ms[..|ms| - 1] + [ms[|ms| - 1]];
    }
  }

  lemma {:induction false} SaidAppend(a: seq<Message>, b: seq<Message>, c: string)
    ensures Said(a + b, c) == Said(a, c) + Said(b, c)
    decreases |b|
  {
    if b == [] {
      assert a + b == a;
    } else {
      assert (a + b)[..|a + b| - 1] == a + b[..|b| - 1];
      SaidAppend(a, b[..|b| - 1], c);
    }
  }

  /** The bot's own messages are those from its nick in any case. */
  lemma OwnMeans(nick: string, m: Message)
    ensures Own(nick, m) <==> Alike(true, m.nick, nick)
  {
    AlikeIsLowered(m.nick, nick);
  }

  /** The message at k is the bot's own with this command for channel c. */
  ghost predicate OwnAt(nick: string, ms: seq<Message>, c: string, command: string, k: int)
    requires 0 <= k < |ms|
  {
    Alike(true, ms[k].nick, nick) && ms[k].command == command && ms[k].params != [] && ms[k].params[0] == c
  }

  /** The bot's own JOIN or PART with none after it decides; without any, the configuration does. */
  lemma {:induction false} InChannelExactly(nick: string, initial: set<string>, ms: seq<Message>, c: string)
    ensures InChannel(nick, initial, ms, c)
       <==> || (c in initial && forall k :: 0 <= k < |ms| ==> !OwnAt(nick, ms, c, "PART", k))
            || (exists j :: 0 <= j < |ms| && OwnAt(nick, ms, c, "JOIN", j)
                            && forall k :: j < k < |ms| ==> !OwnAt(nick, ms, c, "PART", k))
    decreases |ms|
  {
    hide Alike, Own;
    if ms != [] {
      var front, n := ms[..|ms| - 1], |ms| - 1;
      InChannelExactly(nick, initial, front, c);
      OwnMeans(nick, ms[n]);
      assert forall k, command :: 0 <= k < n ==>
        (OwnAt(nick, front, c, command, k) <==> OwnAt(nick, ms, c, command, k));
      assert OwnJoin(nick, ms[n], c) <==> OwnAt(nick, ms, c, "JOIN", n);
      assert OwnPart(nick, ms[n], c) <==> OwnAt(nick, ms, c, "PART", n);
    }
  }

  function Empty(initial: set<string>): Contents {
    map c | c in initial :: []
  }

  /** What the bot must hold for channel c after the messages ms: the last thousand said there. */
  ghost predicate Holds(nick: string, initial: set<string>, ms: seq<Message>, c: string, channels: Contents) {
    if InChannel(nick, initial, ms, c)
    then
      var said := Said(ms[Since(nick, initial, ms, c)..], c);
      c in channels && channels[c] == said[|said| - (if |said| < 1000 then |said| else 1000)..]
    else c !in channels
  }

  /** The same by way of LastN. */
  ghost predicate HoldsLast(nick: string, initial: set<string>, ms: seq<Message>, c: string, channels: Contents) {
    if InChannel(nick, initial, ms, c)
    then c in channels && channels[c] == LastN(Said(ms[Since(nick, initial, ms, c)..], c), BUFFER_SIZE)
    else c !in channels
  }

  /** What one message does to one channel. */
  lemma ChannelStep(nick: string, channels: Contents, m: Message, c: string)
    requires Readable(nick, m)
    ensures var after := Consume(nick, channels, m);
      if OwnJoin(nick, m, c) then c in after && after[c] == (if c in channels then channels[c] else [])
      else if OwnPart(nick, m, c) then c !in after
      else (c in after <==> c in channels)
           && (c in channels ==>
                 after[c] == if SaidIn(m, c) then LastN(channels[c] + [m], BUFFER_SIZE) else channels[c])
  {
    hide Own, LastN;
  }

  lemma SaidStep(nick: string, initial: set<string>, ms: seq<Message>, c: string)
    requires ms != [] && InChannel(nick, initial, ms, c) && InChannel(nick, initial, ms[..|ms| - 1], c)
    ensures var front, m := ms[..|ms| - 1], ms[|ms| - 1]; var k := Since(nick, initial, front, c);
      && Since(nick, initial, ms, c) == k
      && Said(ms[k..], c) == Said(front[k..], c) + if SaidIn(m, c) then [m] else []
  {
    hide Own, InChannel;
    var front, m := ms[..|ms| - 1], ms[|ms| - 1];
    var k := Since(nick, initial, front, c);
    assert ms[k..] == front[k..] + [m];
    assert (front[k..] + [m])[..|front| - k] == front[k..];
  }

  lemma OneMoreMessage(nick: string, initial: set<string>, ms: seq<Message>, c: string, channels: Contents)
    requires ms != [] && AllReadable(nick, ms)
    requires HoldsLast(nick, initial, ms[..|ms| - 1], c, channels)
    ensures HoldsLast(nick, initial, ms, c, Consume(nick, channels, ms[|ms| - 1]))
  {
    hide Own, LastN, Consume, Said;
    var front, m := ms[..|ms| - 1], ms[|ms| - 1];
    ChannelStep(nick, channels, m, c);
    if InChannel(nick, initial, ms, c) {
      if InChannel(nick, initial, front, c) {
        SaidStep(nick, initial, ms, c);
        LastNPush(Said(front[Since(nick, initial, front, c)..], c), m, BUFFER_SIZE);
        var said := Said(front[Since(nick, initial, front, c)..], c);
        assert said + [] == said;
      } else {
        assert ms[|ms|..] == [];
        NothingYet(c);
      }
    }
  }

  lemma NothingYet(c: string)
    ensures LastN(Said([], c), BUFFER_SIZE) == []
  {
  }

  lemma {:induction false} ChannelContents(nick: string, initial: set<string>, ms: seq<Message>, c: string)
    requires AllReadable(nick, ms)
    ensures HoldsLast(nick, initial, ms, c, ConsumeAll(nick, Empty(initial), ms))
    decreases |ms|
  {
    hide Consume;
    if ms == [] {
      NothingYet(c);
      assert ms[0..] == [];
    } else {
      ChannelContents(nick, initial, ms[..|ms| - 1], c);
      OneMoreMessage(nick, initial, ms, c, ConsumeAll(nick, Empty(initial), ms[..|ms| - 1]));
    }
  }

  /**
    After any messages, the bot keeps exactly the channels it is in by its own
    JOINs and PARTs, and for each the last thousand of the messages said there
    since it was last added.
   */
  lemma ChannelHistory(nick: string, initial: set<string>, ms: seq<Message>, c: string)
    requires AllReadable(nick, ms)
    ensures Holds(nick, initial, ms, c, ConsumeAll(nick, Empty(initial), ms))
  {
    hide LastN, Said, InChannel, ConsumeAll;
    ChannelContents(nick, initial, ms, c);
    if InChannel(nick, initial, ms, c) {
      LastNIs(Said(ms[Since(nick, initial, ms, c)..], c), BUFFER_SIZE);
    }
  }

  /** lines are the last k of what was said, as far as a buffer of a thousand goes. */
  ghost predicate IsClip(lines: seq<Message>, said: seq<Message>, k: nat) {
    && |lines| == (if k < 1000 && k < |said| then k else if |said| < 1000 then |said| else 1000)
    && forall i :: 0 <= i < |lines| ==> lines[i] == said[|said| - |lines| + i]
  }

  /** A clip of the last k lines shows the last min(k, 1000) messages said since the channel was added. */
  lemma ClipOfHistory(nick: string, initial: set<string>, ms: seq<Message>, c: string, k: nat)
    requires AllReadable(nick, ms) && InChannel(nick, initial, ms, c)
    ensures var channels := ConsumeAll(nick, Empty(initial), ms);
      c in channels && IsClip(LastN(channels[c], k), Said(ms[Since(nick, initial, ms, c)..], c), k)
  {
    hide LastN, Said, InChannel, ConsumeAll;
    ChannelHistory(nick, initial, ms, c);
    LastNIs(ConsumeAll(nick, Empty(initial), ms)[c], k);
  }

  /** The bot after loading its channels from the configuration. */
  method Started(nick: string, initial: seq<string>) returns (keeper: ChannelKeeper)
    ensures fresh(keeper) && keeper.nick == nick && keeper.Valid()
    ensures forall b :: b in keeper.channels.Values ==> fresh(b)
    ensures keeper.View() == Empty(SetOf(initial))
  {
    keeper := new ChannelKeeper(nick);
    for i := 0 to |initial|
      invariant fresh(keeper) && keeper.nick == nick && keeper.Valid()
      invariant forall b :: b in keeper.channels.Values ==> fresh(b)
      invariant keeper.View() == Empty(SetOf(initial[..i]))
    {
      keeper.AddChannel(initial[i]);
      assert forall c :: c in initial[..i + 1] <==> c in initial[..i] || c == initial[i];
    }
    assert initial[..|initial|] == initial;
  }

  /** The bot after any batches of messages. */
  method Fed(nick: string, initial: seq<string>, batches: seq<seq<Message>>) returns (keeper: ChannelKeeper)
    requires forall i :: 0 <= i < |batches| ==> AllReadable(nick, batches[i])
    ensures fresh(keeper) && keeper.nick == nick && keeper.Valid()
    ensures AllReadable(nick, Joined(batches))
    ensures keeper.View() == ConsumeAll(nick, Empty(SetOf(initial)), Joined(batches))
  {
    hide Consume, ConsumeAll, Readable;
    ghost var start := Empty(SetOf(initial));
    keeper := Started(nick, initial);
    assert batches[..0] == [];
    NothingConsumed(nick, start);
    for i := 0 to |batches|
      invariant fresh(keeper) && keeper.nick == nick && keeper.Valid()
      invariant forall b :: b in keeper.channels.Values ==> fresh(b)
      invariant AllReadable(nick, Joined(batches[..i]))
      invariant keeper.View() == ConsumeAll(nick, start, Joined(batches[..i]))
    {
      keeper.msgPreBuffer := batches[i];
      assert keeper.View() == ConsumeAll(nick, start, Joined(batches[..i]));
      keeper.ConsumeMsgBuffer();
      assert batches[..i + 1][..i] == batches[..i];
      ConsumeAppend(nick, start, Joined(batches[..i]), batches[i]);
    }
    assert batches[..|batches|] == batches;
  }

  lemma NothingConsumed(nick: string, channels: Contents)
    ensures AllReadable(nick, []) && ConsumeAll(nick, channels, []) == channels
  {
  }

  /** A clip taken after any batches of messages. */
  method ClipAfter(nick: string, initial: seq<string>, batches: seq<seq<Message>>, channel: string, lineCount: nat)
    returns (found: bool, lines: seq<Message>)
    requires forall i :: 0 <= i < |batches| ==> AllReadable(nick, batches[i])
    ensures found <==> InChannel(nick, SetOf(initial), Joined(batches), channel) && lineCount > 0
    ensures found ==>
      IsClip(lines, Said(Joined(batches)[Since(nick, SetOf(initial), Joined(batches), channel)..], channel), lineCount)
  {
    hide ConsumeAll, LastN, Said, InChannel;
    var keeper := Fed(nick, initial, batches);
    ChannelHistory(nick, SetOf(initial), Joined(batches), channel);
    found, lines := false, [];
    if channel in keeper.channels {
      assert keeper.View()[channel] == keeper.channels[channel].queue;
      found, lines := keeper.channels[channel].AccessLinesFromNow(lineCount);
      ClipOfHistory(nick, SetOf(initial), Joined(batches), channel, lineCount);
    } else {
      assert channel !in keeper.View();
    }
  }

  function SetOf(s: seq<string>): set<string> {
    set c | c in s
  }

  function Joined(batches: seq<seq<Message>>): seq<Message> {
    if batches == [] then [] else Joined(batches[..|batches| - 1]) + batches[|batches| - 1]
  }

  lemma {:induction false} ConsumeAppend(nick: string, channels: Contents, a: seq<Message>, b: seq<Message>)
    requires AllReadable(nick, a) && AllReadable(nick, b)
    ensures AllReadable(nick, a + b)
    ensures ConsumeAll(nick, channels, a + b) == ConsumeAll(nick, ConsumeAll(nick, channels, a), b)
    decreases |b|
  {
    hide Consume;
    if b == [] {
      assert a + b == a;
    } else {
      assert (a + b)[..|a + b| - 1] == a + b[..|b| - 1];
      ConsumeAppend(nick, channels, a, b[..|b| - 1]);
    }
  }
}
