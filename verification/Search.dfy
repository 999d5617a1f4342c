/** Searching a message for a target: the loops behind `count` and `find`. */
module Search {

  /** `std::tolower` in the "C" locale. */
  function ToLower(c: char): char {
    if 'A' <= c <= 'Z' then (c as int + 32) as char else c
  }

  function Lowered(s: string): string {
    seq(|s|, i requires 0 <= i < |s| => ToLower(s[i]))
  }

  /** The character predicate handed to the searcher. */
  predicate Same(caseless: bool, l: char, r: char) {
    if caseless then ToLower(l) == ToLower(r) else l == r
  }

  predicate MatchAt(s: string, target: string, caseless: bool, i: nat) {
    i + |target| <= |s| && forall k :: 0 <= k < |target| ==> Same(caseless, s[i + k], target[k])
  }

  /** The positions of s, end excluded, at which the target occurs; occurrences may overlap. */
  function Matches(s: string, target: string, caseless: bool): set<nat> {
    set i | 0 <= i < |s| && MatchAt(s, target, caseless, i)
  }

  /** `std::search` over the characters of s from position `from` on; |s| stands for the end. */
  function FirstMatch(s: string, target: string, caseless: bool, from: nat): (i: nat)
    requires from <= |s|
    ensures from <= i <= |s|
    ensures i < |s| ==> MatchAt(s, target, caseless, i)
    ensures forall j :: from <= j < i ==> !MatchAt(s, target, caseless, j)
    decreases |s| - from
  {
    if from == |s| || MatchAt(s, target, caseless, from) then from
    else FirstMatch(s, target, caseless, from + 1)
  }

  // ---------- in terms of the texts alone ----------

  /** Equal, or one is a letter from A to Z and the other the same letter in lower case. */
  predicate SameLetter(l: char, r: char) {
    || l == r
    || ('A' <= l <= 'Z' && r as int == l as int + 32)
    || ('A' <= r <= 'Z' && l as int == r as int + 32)
  }

  /** The texts are equal, up to the case of letters if so asked. */
  predicate Alike(caseless: bool, a: string, b: string) {
    |a| == |b| && forall i :: 0 <= i < |a| ==> if caseless then SameLetter(a[i], b[i]) else a[i] == b[i]
  }

  /** The piece of s from position i on is like the target. */
  predicate OccursAt(s: string, target: string, caseless: bool, i: nat) {
    i + |target| <= |s| && Alike(caseless, s[i..i + |target|], target)
  }

  function Occurrences(s: string, target: string, caseless: bool): set<nat> {
    set i | 0 <= i < |s| && OccursAt(s, target, caseless, i)
  }

  lemma SameExactly(caseless: bool, l: char, r: char)
    ensures Same(caseless, l, r) <==> if caseless then SameLetter(l, r) else l == r
  {
  }

  lemma MatchIsAlike(s: string, target: string, caseless: bool, i: nat)
    requires i + |target| <= |s|
    ensures MatchAt(s, target, caseless, i) <==> Alike(caseless, s[i..i + |target|], target)
    ensures Alike(false, s[i..i + |target|], target) <==> s[i..i + |target|] == target
  {
    var piece := s[i..i + |target|];
    forall k | 0 <= k < |target|
      ensures Same(caseless, s[i + k], target[k])
         <==> if caseless then SameLetter(piece[k], target[k]) else piece[k] == target[k]
    {
      SameExactly(caseless, s[i + k], target[k]);
    }
    if MatchAt(s, target, caseless, i) {
      assert forall k :: 0 <= k < |target| ==> Same(caseless, s[i + k], target[k]);
    }
  }

  lemma MatchesAreOccurrences(s: string, target: string, caseless: bool)
    ensures Matches(s, target, caseless) == Occurrences(s, target, caseless)
  {
    forall i: nat
      ensures MatchAt(s, target, caseless, i) <==> OccursAt(s, target, caseless, i)
    {
      if i + |target| <= |s| {
        MatchIsAlike(s, target, caseless, i);
      }
    }
  }

  /** The exact occurrences are the equal pieces; they are all found without regard to case, too. */
  lemma ExactOccurrences(s: string, target: string, i: nat)
    ensures i in Matches(s, target, false) <==> i < |s| && i + |target| <= |s| && s[i..i + |target|] == target
    ensures Matches(s, target, false) <= Matches(s, target, true)
  {
    MatchesAreOccurrences(s, target, false);
    MatchesAreOccurrences(s, target, true);
    if i + |target| <= |s| {
      MatchIsAlike(s, target, false, i);
    }
  }

  /** Changing the case of any letters, in the text or the target, changes no caseless match. */
  lemma CaseDoesNotMatter(s: string, t: string, other: string, target: string)
    requires Alike(true, s, other) && Alike(true, t, target)
    ensures Matches(s, t, true) == Matches(other, target, true)
  {
    forall i: nat
      ensures MatchAt(s, t, true, i) <==> MatchAt(other, target, true, i)
    {
      if i + |t| <= |s| {
        assert forall k :: 0 <= k < |t| ==> SameLetter(s[i + k], other[i + k]) && SameLetter(t[k], target[k]);
        assert forall k :: 0 <= k < |t| ==> (Same(true, s[i + k], t[k]) <==> Same(true, other[i + k], target[k]));
      }
    }
  }

  /** Texts are alike without case exactly when lower-casing makes them equal. */
  lemma AlikeIsLowered(a: string, b: string)
    ensures Alike(true, a, b) <==> Lowered(a) == Lowered(b)
  {
    assert |Lowered(a)| == |a| && |Lowered(b)| == |b|;
    if |a| == |b| {
      forall i | 0 <= i < |a|
        ensures SameLetter(a[i], b[i]) <==> Lowered(a)[i] == Lowered(b)[i]
      {
        SameExactly(true, a[i], b[i]);
      }
    }
  }

  method CountTargetOccurrences(s: string, target: string, caseless: bool) returns (count: nat)
    ensures count == |Occurrences(s, target, caseless)| == |Matches(s, target, caseless)|
  {
    MatchesAreOccurrences(s, target, caseless);
    count := 0;
    ghost var seen: set<nat> := {};
    var it := FirstMatch(s, target, caseless, 0);
    while it != |s|
      invariant it <= |s|
      invariant it < |s| ==> MatchAt(s, target, caseless, it)
      invariant seen == set i | 0 <= i < it && MatchAt(s, target, caseless, i)
      invariant count == |seen|
      decreases |s| - it
    {
      count := count + 1;
      seen := seen + {it};
      it := FirstMatch(s, target, caseless, it + 1);
    }
    assert seen == Matches(s, target, caseless);
  }

  /** `find_func` without -regex. */
  predicate FindFunc(s: string, target: string, caseless: bool) {
    FirstMatch(s, target, caseless, 0) != |s|
  }

  /** `find` lists a line exactly when `count` would count it. */
  lemma FindAgreesWithCount(s: string, target: string, caseless: bool)
    ensures FindFunc(s, target, caseless) <==> |Matches(s, target, caseless)| > 0
    ensures FindFunc(s, target, caseless) <==> Occurrences(s, target, caseless) != {}
  {
    MatchesAreOccurrences(s, target, caseless);
    var i := FirstMatch(s, target, caseless, 0);
    if i < |s| {
      assert i in Matches(s, target, caseless);
    } else {
      assert Matches(s, target, caseless) == {};
    }
  }

  /** -caseless counts what an exact search counts after lower-casing both strings. */
  lemma CaselessIsLowered(s: string, target: string)
    ensures Matches(s, target, true) == Matches(Lowered(s), Lowered(target), false)
    ensures Alike(true, s, Lowered(s)) && forall i :: 0 <= i < |s| ==> !('A' <= Lowered(s)[i] <= 'Z')
  {
    var ls, lt := Lowered(s), Lowered(target);
    forall i: nat
      ensures MatchAt(s, target, true, i) <==> MatchAt(ls, lt, false, i)
    {
      if i + |target| <= |s| {
        assert forall k :: 0 <= k < |target| ==>
          (Same(true, s[i + k], target[k]) <==> Same(false, ls[i + k], lt[k]));
      }
    }
  }

  /** The empty target is found at every position but not at the end. */
  lemma {:induction false} EmptyTarget(s: string, caseless: bool)
    ensures |Matches(s, "", caseless)| == |s|
  {
    if s != "" {
      var front := s[..|s| - 1];
      EmptyTarget(front, caseless);
      assert MatchAt(s, "", caseless, |front|);
      assert forall i: nat :: i < |front| ==> MatchAt(front, "", caseless, i);
      assert Matches(s, "", caseless) == Matches(front, "", caseless) + {|front|};
    }
  }

  method CaselessCompare(a: string, b: string) returns (same: bool)
    ensures same <==> Alike(true, a, b)
    ensures same <==> Lowered(a) == Lowered(b)
  {
    AlikeIsLowered(a, b);
    if |a| != |b| {
      assert |Lowered(a)| != |Lowered(b)|;
      return false;
    }
    for i := 0 to |a|
      invariant forall j :: 0 <= j < i ==> ToLower(a[j]) == ToLower(b[j])
    {
      if ToLower(a[i]) != ToLower(b[i]) {
        assert Lowered(a)[i] != Lowered(b)[i];
        return false;
      }
    }
    return true;
  }
}
