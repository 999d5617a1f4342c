/** `std::string_view` as an offset and a length into a string, with the searches the parsers use. */
module StringViews {

  datatype Option<+T> = None | Some(value: T)

  datatype View = View(off: nat, len: nat)

  predicate InBounds(v: View, size: nat) {
    v.off + v.len <= size
  }

  predicate Inside(v: View, outer: View) {
    outer.off <= v.off && v.off + v.len <= outer.off + outer.len
  }

  predicate Before(v: View, w: View) {
    v.off + v.len <= w.off
  }

  function Text(data: string, v: View): string
    requires InBounds(v, |data|)
  {
    data[v.off..v.off + v.len]
  }

  function Shift(v: View, distance: nat): View {
    View(v.off + distance, v.len)
  }

  /** `substr(pos - from, count)` of the view from..end, where a count below zero wraps around to "the rest". */
  function Substr(from: nat, end: nat, pos: nat, count: int): (r: View)
    requires from <= pos <= end
    ensures pos == r.off && r.off + r.len <= end
    ensures 0 <= count <= end - pos ==> r.len == count
  {
    View(pos, if 0 <= count < end - pos then count else end - pos)
  }

  /** i is the first position of c in s from `from` on. */
  ghost predicate FirstAt(s: string, c: char, from: nat, i: nat) {
    from <= i < |s| && s[i] == c && forall k :: from <= k < i ==> s[k] != c
  }

  /** `find` on the view of s that starts at `from`; positions are positions of s. */
  function Find(s: string, c: char, from: nat): (r: Option<nat>)
    requires from <= |s|
    ensures r.Some? ==> FirstAt(s, c, from, r.value)
    ensures r.None? ==> forall k :: from <= k < |s| ==> s[k] != c
    decreases |s| - from
  {
    if from == |s| then None
    else if s[from] == c then Some(from)
    else Find(s, c, from + 1)
  }

  /** `find` of the two characters c d. */
  function FindPair(s: string, c: char, d: char): (r: Option<nat>)
    ensures r.Some? ==>
      r.value + 1 < |s| && s[r.value] == c && s[r.value + 1] == d
      && forall k :: 0 <= k < r.value ==> !(s[k] == c && s[k + 1] == d)
    ensures r.None? ==> forall k :: 0 <= k < |s| - 1 ==> !(s[k] == c && s[k + 1] == d)
  {
    if |s| < 2 then None
    else if s[0] == c && s[1] == d then Some(0)
    else
      var t := s[1..];
      assert forall k :: 0 < k < |s| ==> s[k] == t[k - 1];
      match FindPair(t, c, d)
      case None => None
      case Some(i) => Some(i + 1)
  }

  lemma SliceOfSlice<T>(s: seq<T>, from: nat, end: nat, i: nat, j: nat)
    requires from <= end <= |s| && i <= j <= end - from
    ensures s[from..end][i..j] == s[from + i..from + j]
  {
    var a, b := s[from..end][i..j], s[from + i..from + j];
    assert |a| == |b| && forall k :: 0 <= k < |a| ==> a[k] == b[k];
  }
}
