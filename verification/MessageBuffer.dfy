/** The bounded buffer of a channel's messages. */
module MessageBuffers {

  /** The last n elements of s, all of them if there are fewer. */
  function LastN<T>(s: seq<T>, n: nat): seq<T> {
    if |s| <= n then s else s[|s| - n..]
  }

  function Reversed<T>(s: seq<T>): (r: seq<T>)
    ensures |r| == |s|
    ensures forall i :: 0 <= i < |s| ==> r[i] == s[|s| - 1 - i]
  {
    seq(|s|, i requires 0 <= i < |s| => s[|s| - 1 - i])
  }

  class MessageBuffer<T> {
    const capacity: nat
    var queue: seq<T>

    ghost predicate Valid()
      reads this
    {
      0 < capacity && |queue| <= capacity
    }

    constructor (size: nat)
      requires size > 0
      ensures Valid() && capacity == size && queue == []
    {
      capacity := size;
      queue := [];
    }

    method Push(msg: T)
      requires Valid()
      modifies this
      ensures Valid()
      ensures queue == (if |old(queue)| < capacity then old(queue) else old(queue)[1..]) + [msg]
      ensures queue == LastN(old(queue) + [msg], capacity)
    {
      queue := queue + [msg];
      if |queue| > capacity {
        queue := queue[1..];
      }
    }

    /** called: whether the function passed in was called, with the lines as its argument. */
    method AccessLinesFromNow(lineCount: nat) returns (called: bool, lines: seq<T>)
      ensures called <==> lineCount > 0
      ensures called ==> |lines| == if lineCount < |queue| then lineCount else |queue|
      ensures called ==> forall i :: 0 <= i < |lines| ==> lines[i] == queue[|queue| - |lines| + i]
      ensures called ==> lines == LastN(queue, lineCount)
    {
      lines := [];
      if lineCount == 0 {
        return false, lines;
      }
      for i := 0 to lineCount
        invariant |lines| == if i <= |queue| then i else |queue|
        invariant forall j :: 0 <= j < |lines| ==> lines[j] == queue[|queue| - 1 - j]
      {
        if |queue| > i {
          lines := lines + [queue[|queue| - 1 - i]];
        } else {
          break;
        }
      }
      return true, Reversed(lines);
    }
  }

  lemma LastNIs<T>(s: seq<T>, n: nat)
    ensures LastN(s, n) == s[|s| - (if |s| < n then |s| else n)..]
  {
  }

  lemma LastNTwice<T>(s: seq<T>, m: nat, n: nat)
    ensures LastN(LastN(s, m), n) == LastN(s, if m < n then m else n)
  {
  }

  lemma LastNPush<T>(s: seq<T>, x: T, n: nat)
    requires n > 0
    ensures LastN(LastN(s, n) + [x], n) == LastN(s + [x], n)
  {
  }
}
