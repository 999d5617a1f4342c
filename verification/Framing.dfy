/** Cutting the byte stream from the server into lines, read by read. */
module Framing {

  /** Undefined: the code would erase beyond the end of its buffer. */
  datatype Framed = Framed(lines: seq<string>, rest: string) | Undefined

  predicate LineEnd(c: char) {
    c == '\r' || c == '\n'
  }

  predicate Clean(s: string) {
    forall i :: 0 <= i < |s| ==> !LineEnd(s[i])
  }

  /** `find_first_of("\r\n")`: the first CR or LF, |s| if there is none. */
  function FirstLineEnd(s: string): (n: nat)
    ensures n <= |s|
    ensures n < |s| ==> LineEnd(s[n])
    ensures forall i :: 0 <= i < n ==> !LineEnd(s[i])
  {
    if s == "" || LineEnd(s[0]) then 0 else 1 + FirstLineEnd(s[1..])
  }

  function Prepend(lines: seq<string>, f: Framed): Framed {
    match f
    case Undefined => Undefined
    case Framed(more, rest) => Framed(lines + more, rest)
  }

  /** What `parseBuffer` makes of a buffer: each line takes two characters of line end with it. */
  function Frame(buffer: string): Framed {
    var n := FirstLineEnd(buffer);
    if n == |buffer| then Framed([], buffer)
    else if |buffer| < n + 2 then Undefined
    else Prepend([buffer[..n]], Frame(buffer[n + 2..]))
  }

  /** The lines from a sequence of reads, starting with what an earlier read left over. */
  function Feed(left: string, chunks: seq<string>): Framed
    decreases |chunks|
  {
    if chunks == [] then Framed([], left)
    else
      match Frame(left + chunks[0])
      case Undefined => Undefined
      case Framed(lines, rest) => Prepend(lines, Feed(rest, chunks[1..]))
  }

  function Joined(chunks: seq<string>): string {
    if chunks == [] then "" else chunks[0] + Joined(chunks[1..])
  }

  /** The stream that carries the lines, each ended by CR LF. */
  function Stream(lines: seq<string>): string {
    if lines == [] then "" else lines[0] + "\r\n" + Stream(lines[1..])
  }

  class LineReader {
    var buffer: string
    var messages: seq<string>

    constructor ()
      ensures buffer == "" && messages == []
    {
      buffer, messages := "", [];
    }

    method ParseBuffer()
      requires Frame(buffer).Framed?
      modifies this
      ensures buffer == Frame(old(buffer)).rest
      ensures messages == old(messages) + Frame(old(buffer)).lines
    {
      ghost var whole := Frame(buffer);
      ghost var found: seq<string> := [];
      hide FirstLineEnd;
      PrependNothing(whole);
      while true
        invariant whole == Prepend(found, Frame(buffer))
        invariant messages == old(messages) + found
        decreases |buffer|
      {
        var n := FirstLineEnd(buffer);
        if n == |buffer| {
          assert found + [] == found;
          return;
        }
        var line := buffer[..n];
        PrependTwice(found, [line], Frame(buffer[n + 2..]));
        buffer := buffer[n + 2..];
        messages := messages + [line];
        found := found + [line];
      }
    }

    /** `onRead`, up to the handling of the messages. */
    method OnRead(chunk: string)
      requires Frame(buffer + chunk).Framed?
      modifies this
      ensures buffer == Frame(old(buffer) + chunk).rest
      ensures messages == old(messages) + Frame(old(buffer) + chunk).lines
    {
      buffer := buffer + chunk;
      ParseBuffer();
    }
  }

  method ReadAll(chunks: seq<string>) returns (messages: seq<string>, left: string)
    requires Feed("", chunks).Framed?
    ensures Feed("", chunks) == Framed(messages, left)
  {
    var reader := new LineReader();
    PrependNothing(Feed("", chunks));
    for i := 0 to |chunks|
      invariant Feed("", chunks) == Prepend(reader.messages, Feed(reader.buffer, chunks[i..]))
      invariant fresh(reader)
    {
      hide Frame;
      assert chunks[i..][0] == chunks[i] && chunks[i..][1..] == chunks[i + 1..];
      var f := Frame(reader.buffer + chunks[i]);
      PrependTwice(reader.messages, f.lines, Feed(f.rest, chunks[i + 1..]));
      reader.OnRead(chunks[i]);
    }
    assert chunks[|chunks|..] == [];
    assert reader.messages + [] == reader.messages;
    return reader.messages, reader.buffer;
  }

  lemma PrependTwice(a: seq<string>, b: seq<string>, f: Framed)
    ensures Prepend(a, Prepend(b, f)) == Prepend(a + b, f)
  {
    if f.Framed? {
      assert a + (b + f.lines) == a + b + f.lines;
    }
  }

  lemma PrependNothing(f: Framed)
    ensures Prepend([], f) == f
  {
  }

  // ---------- any two ways of cutting agree ----------

  lemma FirstLineEndIs(s: string, n: nat)
    requires n <= |s| && (n < |s| ==> LineEnd(s[n])) && forall i :: 0 <= i < n ==> !LineEnd(s[i])
    ensures FirstLineEnd(s) == n
  {
  }

  lemma {:induction false} FrameAppend(a: string, b: string)
    requires Frame(a).Framed?
    ensures Frame(a + b) == Prepend(Frame(a).lines, Frame(Frame(a).rest + b))
    decreases |a|
  {
    hide FirstLineEnd;
    var n := FirstLineEnd(a);
    if n == |a| {
      PrependNothing(Frame(a + b));
    } else {
      FirstLineEndIs(a + b, n);
      assert (a + b)[..n] == a[..n] && (a + b)[n + 2..] == a[n + 2..] + b;
      var tail := Frame(a[n + 2..]);
      FrameAppend(a[n + 2..], b);
      PrependTwice([a[..n]], tail.lines, Frame(tail.rest + b));
    }
  }

  /** Whatever the stream, reads that can be parsed at all give what the whole stream gives at once. */
  lemma {:induction false} ChunksDoNotMatter(left: string, chunks: seq<string>)
    requires Feed(left, chunks).Framed? && FirstLineEnd(left) == |left|
    ensures Feed(left, chunks) == Frame(left + Joined(chunks))
    decreases |chunks|
  {
    hide FirstLineEnd;
    if chunks == [] {
      assert left + Joined(chunks) == left;
    } else {
      var f := Frame(left + chunks[0]);
      RestHasNoLineEnd(left + chunks[0]);
      ChunksDoNotMatter(f.rest, chunks[1..]);
      FrameAppend(left + chunks[0], Joined(chunks[1..]));
      assert left + Joined(chunks) == left + chunks[0] + Joined(chunks[1..]);
    }
  }

  lemma {:induction false} RestHasNoLineEnd(buffer: string)
    requires Frame(buffer).Framed?
    ensures FirstLineEnd(Frame(buffer).rest) == |Frame(buffer).rest|
    decreases |buffer|
  {
    hide FirstLineEnd;
    var n := FirstLineEnd(buffer);
    if n != |buffer| {
      RestHasNoLineEnd(buffer[n + 2..]);
    }
  }

  // ---------- streams of CR LF lines ----------

  predicate EndsInCR(s: string) {
    s != "" && s[|s| - 1] == '\r'
  }

  predicate PairedAt(s: string, i: nat)
    requires i < |s|
  {
    && (s[i] == '\r' && i + 1 < |s| ==> s[i + 1] == '\n')
    && (s[i] == '\n' ==> i > 0 && s[i - 1] == '\r')
  }

  /** A prefix of a stream in which CR and LF occur only as a pair. */
  predicate Paired(s: string) {
    forall i :: 0 <= i < |s| ==> PairedAt(s, i)
  }

  /** No read ends between a CR and its LF; read holds what came before. */
  predicate CutsOutsidePairs(read: string, chunks: seq<string>)
    decreases |chunks|
  {
    chunks == [] || (!EndsInCR(read + chunks[0]) && CutsOutsidePairs(read + chunks[0], chunks[1..]))
  }

  /** Whichever of CR and LF ends a line, the character after it goes with it. */
  lemma FrameAnyEnd(line: string, c: char, d: char, after: string)
    requires Clean(line) && LineEnd(c)
    ensures Frame(line + [c] + [d] + after) == Prepend([line], Frame(after))
    ensures Frame(line + [c]) == Undefined
  {
    var n := |line|;
    var s := line + [c] + [d] + after;
    FirstLineEndIs(s, n);
    assert s[..n] == line && s[n + 2..] == after;
    FirstLineEndIs(line + [c], n);
  }

  lemma LineFound(line: string, after: string)
    requires Clean(line)
    ensures var s := line + "\r\n" + after; var n := |line|;
      FirstLineEnd(s) == n && s[..n] == line && s[n + 2..] == after
  {
    var s, n := line + "\r\n" + after, |line|;
    assert s[n] == '\r' && s[..n] == line;
    assert forall i :: 0 <= i < n ==> s[i] == line[i];
    FirstLineEndIs(s, n);
  }

  /** Framing inverts writing lines to a stream. */
  lemma {:induction false} FrameInvertsStream(lines: seq<string>, rest: string)
    requires Clean(rest) && forall l :: l in lines ==> Clean(l)
    ensures Frame(Stream(lines) + rest) == Framed(lines, rest)
    decreases |lines|
  {
    hide FirstLineEnd;
    if lines == [] {
      assert Stream(lines) + rest == rest;
      FirstLineEndIs(rest, |rest|);
    } else {
      var s, n := Stream(lines) + rest, |lines[0]|;
      assert s == lines[0] + "\r\n" + (Stream(lines[1..]) + rest);
      LineFound(lines[0], Stream(lines[1..]) + rest);
      hide Clean;
      FrameInvertsStream(lines[1..], rest);
    }
  }

  /** A paired buffer can be framed exactly when it does not end between CR and LF. */
  lemma {:induction false} PairedDefined(buffer: string)
    requires Paired(buffer)
    ensures Frame(buffer).Framed? <==> !EndsInCR(buffer)
    decreases |buffer|
  {
    hide FirstLineEnd;
    var n := FirstLineEnd(buffer);
    if n < |buffer| {
      assert PairedAt(buffer, n);
      if n + 2 <= |buffer| {
        assert PairedAt(buffer, n + 1);
        PairedTail(buffer, n + 2);
        PairedDefined(buffer[n + 2..]);
      }
    }
  }

  lemma {:induction false} FrameParts(buffer: string)
    requires Frame(buffer).Framed?
    ensures Clean(Frame(buffer).rest) && forall l :: l in Frame(buffer).lines ==> Clean(l)
    decreases |buffer|
  {
    hide FirstLineEnd;
    var n := FirstLineEnd(buffer);
    if n != |buffer| {
      FrameParts(buffer[n + 2..]);
      assert forall l :: l in Frame(buffer).lines ==> l == buffer[..n] || l in Frame(buffer[n + 2..]).lines;
    }
  }

  lemma ThreeParts(buffer: string, n: nat)
    requires n + 2 <= |buffer| && buffer[n] == '\r' && buffer[n + 1] == '\n'
    ensures buffer == buffer[..n] + "\r\n" + buffer[n + 2..]
  {
  }

  /** It then is the stream of its lines and the rest. */
  lemma {:induction false} FramePaired(buffer: string)
    requires Paired(buffer) && Frame(buffer).Framed?
    ensures buffer == Stream(Frame(buffer).lines) + Frame(buffer).rest
    decreases |buffer|
  {
    hide FirstLineEnd, Clean;
    var n := FirstLineEnd(buffer);
    if n == |buffer| {
      assert Stream([]) + buffer == buffer;
    } else {
      var tail := buffer[n + 2..];
      assert PairedAt(buffer, n) && PairedAt(buffer, n + 1);
      PairedTail(buffer, n + 2);
      FramePaired(tail);
      ThreeParts(buffer, n);
      hide Frame, Paired;
      assert Frame(buffer).lines[0] == buffer[..n] && Frame(buffer).lines[1..] == Frame(tail).lines;
    }
  }

  lemma PairedTail(s: string, n: nat)
    requires Paired(s) && 0 < n <= |s| && s[n - 1] == '\n'
    ensures Paired(s[n..])
  {
    var t := s[n..];
    forall i | 0 <= i < |t|
      ensures PairedAt(t, i)
    {
      assert PairedAt(s, n + i);
    }
  }

  lemma {:induction false} CutsForgetLines(a: string, b: string, chunks: seq<string>)
    requires a == "" || a[|a| - 1] == '\n'
    ensures CutsOutsidePairs(a + b, chunks) <==> CutsOutsidePairs(b, chunks)
    decreases |chunks|
  {
    if chunks != [] {
      assert a + b + chunks[0] == a + (b + chunks[0]);
      CutsForgetLines(a, b + chunks[0], chunks[1..]);
    }
  }

  lemma StreamEndsInLF(lines: seq<string>)
    ensures Stream(lines) == "" || Stream(lines)[|Stream(lines)| - 1] == '\n'
    decreases |lines|
  {
    if lines != [] {
      StreamEndsInLF(lines[1..]);
    }
  }

  lemma {:induction false} FeedPaired(left: string, chunks: seq<string>)
    requires Paired(left + Joined(chunks)) && Clean(left)
    ensures Feed(left, chunks).Framed? <==> CutsOutsidePairs(left, chunks)
    decreases |chunks|
  {
    hide Frame;
    if chunks != [] {
      var buffer, later := left + chunks[0], Joined(chunks[1..]);
      assert left + Joined(chunks) == buffer + later;
      PairedPrefix(buffer, later);
      PairedDefined(buffer);
      var f := Frame(buffer);
      if f.Framed? {
        FramePaired(buffer);
        FrameParts(buffer);
        var done := Stream(f.lines);
        StreamEndsInLF(f.lines);
        CutsForgetLines(done, f.rest, chunks[1..]);
        assert (buffer + later)[|done|..] == f.rest + later;
        if done == "" {
          assert buffer + later == f.rest + later;
        } else {
          PairedTail(buffer + later, |done|);
        }
        FeedPaired(f.rest, chunks[1..]);
      }
    }
  }

  lemma PairedPrefix(a: string, b: string)
    requires Paired(a + b)
    ensures Paired(a)
  {
    forall i | 0 <= i < |a|
      ensures PairedAt(a, i)
    {
      assert PairedAt(a + b, i);
    }
  }

  /**
    For every stream of clean lines and every way of cutting it into reads: the
    chunks can be parsed exactly when none of them ends between a CR and its LF,
    and then they give the lines and the unfinished rest.
   */
  lemma FramingIsChunkIndependent(lines: seq<string>, rest: string, chunks: seq<string>)
    requires Clean(rest) && forall l :: l in lines ==> Clean(l)
    requires Joined(chunks) == Stream(lines) + rest
    ensures Feed("", chunks).Framed? <==> CutsOutsidePairs("", chunks)
    ensures Feed("", chunks).Framed? ==> Feed("", chunks) == Framed(lines, rest)
  {
    hide Frame, Feed, CutsOutsidePairs;
    StreamIsPaired(lines, rest);
    assert "" + Joined(chunks) == Joined(chunks);
    FeedPaired("", chunks);
    if Feed("", chunks).Framed? {
      ChunksDoNotMatter("", chunks);
      FrameInvertsStream(lines, rest);
    }
  }

  lemma {:induction false} StreamIsPaired(lines: seq<string>, rest: string)
    requires Clean(rest) && forall l :: l in lines ==> Clean(l)
    ensures Paired(Stream(lines) + rest)
    decreases |lines|
  {
    if lines == [] {
      assert Stream(lines) + rest == rest;
    } else {
      var tail := Stream(lines[1..]) + rest;
      StreamIsPaired(lines[1..], rest);
      assert Stream(lines) + rest == lines[0] + "\r\n" + tail;
      LineThenPaired(lines[0], tail);
    }
  }

  lemma LineThenPaired(line: string, tail: string)
    requires Clean(line) && Paired(tail)
    ensures Paired(line + "\r\n" + tail)
  {
    var s, n := line + "\r\n" + tail, |line| + 2;
    assert s[n - 2] == '\r' && s[n - 1] == '\n';
    forall i | 0 <= i < |s|
      ensures PairedAt(s, i)
    {
      if i < |line| {
        assert s[i] == line[i];
      } else if n <= i {
        assert PairedAt(tail, i - n);
      }
    }
  }
}
