/**
 * The size trimming of `GoogleProducts.item_extra_kwargs` (its inner
 * function `filter_sizes`): an in-stock size list longer than ten entries
 * is cut down to ten, dropping half sizes ("8.5") first and then entries
 * from the end.
 *
 * Two versions are modelled. FilterSizesAsWritten follows the loop as the
 * code has it: after `sizes.pop(i)` the index still advances, so the entry
 * that slid into position `i` is never examined. FilterSizesAsWritten is
 * the one the feed record uses; FilterSizes, the loop with that step
 * corrected (advance only when nothing was popped), sits beside it for
 * comparison.
 */
module SizeFilter {
  import opened PyLib

  /** `MAX_ATTRS`: the most sizes (and colours, product types) a record lists. */
  const MAX_ATTRS := 10

  /** A half size ends in `.5`. */
  predicate IsHalfSize(size: string)
  {
    |size| >= 2 && size[|size| - 2] == '.' && size[|size| - 1] == '5'
  }

  /** `str(size)[-2:] == '.5'` is exactly `IsHalfSize`; a string shorter than two never passes. */
  lemma HalfSizeSuffix(size: string)
    ensures SliceFrom(size, -2) == ".5" <==> IsHalfSize(size)
  {
    var r := SliceFrom(size, -2);
    if |size| >= 2 {
      assert |r| == 2 && r[0] == size[|size| - 2] && r[1] == size[|size| - 1];
    }
  }

  /** The whole sizes of `s`, in order. */
  function Wholes(s: seq<string>): seq<string>
  {
    if s == [] then [] else (if IsHalfSize(s[0]) then [] else [s[0]]) + Wholes(s[1..])
  }

  /** How many half sizes `s` holds. */
  function HalfCount(s: seq<string>): nat
  {
    if s == [] then 0 else (if IsHalfSize(s[0]) then 1 else 0) + HalfCount(s[1..])
  }

  // ---------------------------------------------------------------------
  // Facts about the helpers

  lemma {:induction false} WholesAndHalves(s: seq<string>)
    ensures |Wholes(s)| + HalfCount(s) == |s|
    ensures HalfCount(s) == 0 ==> Wholes(s) == s
  {
    if s != [] {
      WholesAndHalves(s[1..]);
      assert s == [s[0]] + s[1..];
    }
  }

  /** A prefix of `s` keeps a prefix of its whole sizes and no more half sizes. */
  lemma {:induction false} WholesOfPrefix(s: seq<string>, n: nat)
    requires n <= |s|
    ensures Wholes(s[..n]) <= Wholes(s)
    ensures HalfCount(s[..n]) <= HalfCount(s)
  {
    if n > 0 {
      WholesOfPrefix(s[1..], n - 1);
      assert s[..n][0] == s[0];
      assert s[..n][1..] == s[1..][..n - 1];
    }
  }

  // ---------------------------------------------------------------------
  // The loop as written

  /**
   * Phase one as the code runs it, seen from the original list: a half
   * size is dropped while `surplus` is positive, and the entry after it
   * is then kept without being examined.
   */
  function AsWrittenDrop(s: seq<string>, surplus: int): (r: seq<string>)
    ensures |r| >= |s| - Max(surplus, 0)
    decreases |s|
  {
    if surplus <= 0 || |s| == 0 then s
    else if IsHalfSize(s[0]) then
      (if |s| == 1 then [] else [s[1]] + AsWrittenDrop(s[2..], surplus - 1))
    else [s[0]] + AsWrittenDrop(s[1..], surplus)
  }

  /** Phase one as written removes only half sizes: every whole size stays, in order. */
  lemma {:induction false} AsWrittenDropWholes(s: seq<string>, surplus: int)
    ensures Wholes(AsWrittenDrop(s, surplus)) == Wholes(s)
    decreases |s|
  {
    if surplus > 0 && |s| > 1 {
      if IsHalfSize(s[0]) {
        var rest := AsWrittenDrop(s[2..], surplus - 1);
        AsWrittenDropWholes(s[2..], surplus - 1);
        assert ([s[1]] + rest)[1..] == rest;
        assert s[1..][1..] == s[2..];
        calc {
          Wholes(AsWrittenDrop(s, surplus));
          Wholes([s[1]] + rest);
          (if IsHalfSize(s[1]) then [] else [s[1]]) + Wholes(rest);
          Wholes(s[1..]);
          Wholes(s);
        }
      } else {
        AsWrittenDropWholes(s[1..], surplus);
        assert ([s[0]] + AsWrittenDrop(s[1..], surplus))[1..] == AsWrittenDrop(s[1..], surplus);
      }
    } else if surplus > 0 && |s| == 1 && !IsHalfSize(s[0]) {
      assert AsWrittenDrop(s, surplus) == s;
    }
  }

  /** Phase one as written keeps the surviving entries in their order. */
  lemma {:induction false} AsWrittenDropSubsequence(s: seq<string>, surplus: int)
    ensures Subsequence(AsWrittenDrop(s, surplus), s)
    decreases |s|
  {
    if surplus <= 0 || |s| == 0 {
      SubsequenceRefl(s);
    } else if IsHalfSize(s[0]) {
      if |s| > 1 {
        var rest := AsWrittenDrop(s[2..], surplus - 1);
        AsWrittenDropSubsequence(s[2..], surplus - 1);
        var r := [s[1]] + rest;
        assert r[0] == s[1] && r[1..] == rest;
        assert s[1..][0] == s[1] && s[1..][1..] == s[2..];
        assert Subsequence(r, s[1..]);
      }
    } else {
      var rest := AsWrittenDrop(s[1..], surplus);
      AsWrittenDropSubsequence(s[1..], surplus);
      var r := [s[0]] + rest;
      assert r[0] == s[0] && r[1..] == rest;
    }
  }

  /** What `filter_sizes` returns as written: phase one, then the first ten. */
  function AsWrittenTrim(s: seq<string>): seq<string>
  {
    if |s| <= MAX_ATTRS then s else AsWrittenDrop(s, |s| - MAX_ATTRS)[..MAX_ATTRS]
  }

  /**
   * The as-written result has `min(len(sizes), 10)` entries, is the input
   * itself when that is short enough, is an order-preserving subsequence
   * of the input, and keeps a prefix of its whole sizes.
   */
  lemma AsWrittenTrimShape(s: seq<string>)
    ensures |AsWrittenTrim(s)| == Min(|s|, MAX_ATTRS)
    ensures |s| <= MAX_ATTRS ==> AsWrittenTrim(s) == s
    ensures Subsequence(AsWrittenTrim(s), s)
    ensures Wholes(AsWrittenTrim(s)) <= Wholes(s)
  {
    if |s| <= MAX_ATTRS {
      SubsequenceRefl(s);
    } else {
      var d := AsWrittenDrop(s, |s| - MAX_ATTRS);
      AsWrittenDropWholes(s, |s| - MAX_ATTRS);
      AsWrittenDropSubsequence(s, |s| - MAX_ATTRS);
      SubsequencePrefix(d, s, MAX_ATTRS);
      WholesOfPrefix(d, MAX_ATTRS);
    }
  }

  /**
   * What phase one will have produced, seen from the loop state: the
   * entries before `i` are settled and the rest still to be scanned.
   */
  function AsWrittenState(s: seq<string>, i: nat, surplus: int): seq<string>
  {
    s[..Min(i, |s|)] + AsWrittenDrop(s[Min(i, |s|)..], surplus)
  }

  /** One iteration of the first loop keeps AsWrittenState. */
  lemma AsWrittenStep(s: seq<string>, i: nat, surplus: int)
    requires surplus > 0 && i < |s|
    ensures IsHalfSize(s[i]) ==>
      AsWrittenState(s[..i] + s[i + 1..], i + 1, surplus - 1) == AsWrittenState(s, i, surplus)
    ensures !IsHalfSize(s[i]) ==> AsWrittenState(s, i + 1, surplus) == AsWrittenState(s, i, surplus)
  {
    var t := s[i..];
    assert t[0] == s[i];
    if IsHalfSize(s[i]) {
      var s' := s[..i] + s[i + 1..];
      if i + 1 < |s| {
        assert t[1] == s[i + 1] && t[2..] == s[i + 2..];
        assert s'[..i + 1] == s[..i] + [s[i + 1]];
        assert s'[i + 1..] == s[i + 2..];
      } else {
        assert s' == s[..i];
      }
    } else {
      assert t[1..] == s[i + 1..];
      assert s[..i + 1] == s[..i] + [s[i]];
    }
  }

  /**
   * The first loop of `filter_sizes` run to the end from the state
   * `(sizes, i, surplus)`; `i` may pass the end by one after the last
   * entry is popped.
   */
  function AsWrittenLoop(s: seq<string>, i: nat, surplus: int): seq<string>
    requires i <= |s| + 1
    decreases |s| + 1 - i
  {
    if surplus > 0 && i < |s| then
      if IsHalfSize(s[i]) then AsWrittenLoop(s[..i] + s[i + 1..], i + 1, surplus - 1)
      else AsWrittenLoop(s, i + 1, surplus)
    else s
  }

  /**
   * The index-and-pop loop computes AsWrittenDrop: popping at `i` and
   * then advancing `i` is the same as dropping a half size and keeping its
   * successor unexamined.
   */
  lemma {:induction false} AsWrittenLoopDrops(s: seq<string>, i: nat, surplus: int)
    requires i <= |s| + 1
    ensures AsWrittenLoop(s, i, surplus) == AsWrittenState(s, i, surplus)
    decreases |s| + 1 - i
  {
    if surplus > 0 && i < |s| {
      AsWrittenStep(s, i, surplus);
      if IsHalfSize(s[i]) {
        AsWrittenLoopDrops(s[..i] + s[i + 1..], i + 1, surplus - 1);
      } else {
        AsWrittenLoopDrops(s, i + 1, surplus);
      }
    } else {
      assert s[..Min(i, |s|)] + s[Min(i, |s|)..] == s;
    }
  }

  /** Run from the start, the first loop computes AsWrittenDrop. */
  lemma AsWrittenLoopFromStart(s: seq<string>, surplus: int)
    ensures AsWrittenLoop(s, 0, surplus) == AsWrittenDrop(s, surplus)
  {
    AsWrittenLoopDrops(s, 0, surplus);
    assert s[..0] + AsWrittenDrop(s[0..], surplus) == AsWrittenDrop(s, surplus);
  }

  /**
   * `filter_sizes` as written (feeds.py): the list is a fresh copy
   * (`list(...)`), so popping from a local sequence is what the caller
   * can observe.
   */
  method FilterSizesAsWritten(sizes: seq<string>) returns (r: seq<string>)
    ensures r == AsWrittenTrim(sizes)
  {
    var s := sizes;
    var surplus := |s| - MAX_ATTRS;
    ghost var phaseOne := AsWrittenLoop(sizes, 0, surplus);
    // Phase one: drop half sizes while more than ten entries remain.
    var i := 0;
    while surplus > 0 && i < |s|
      invariant 0 <= i <= |s| + 1
      invariant |s| - surplus == MAX_ATTRS
      invariant |sizes| > MAX_ATTRS ==> surplus >= 0
      invariant |sizes| <= MAX_ATTRS ==> surplus <= 0
      invariant phaseOne == AsWrittenLoop(s, i, surplus)
      decreases |s| + 1 - i
    {
      if IsHalfSize(s[i]) {
        s := s[..i] + s[i + 1..];
        surplus := surplus - 1;
      }
      i := i + 1;
    }
    AsWrittenLoopFromStart(sizes, |sizes| - MAX_ATTRS);
    // Phase two: drop entries from the end until ten remain.
    ghost var afterOne := s;
    while surplus > 0
      invariant |s| - surplus == MAX_ATTRS
      invariant |sizes| > MAX_ATTRS ==> surplus >= 0
      invariant |sizes| <= MAX_ATTRS ==> surplus <= 0
      invariant |s| <= |afterOne| && s == afterOne[..|s|]
      invariant |sizes| <= MAX_ATTRS ==> s == afterOne
      decreases surplus
    {
      assert afterOne[..|s|][..|s| - 1] == afterOne[..|s| - 1];
      s := s[..|s| - 1];
      surplus := surplus - 1;
    }
    r := s;
  }

  // ---------------------------------------------------------------------
  // The loop corrected

  /** Phase one as intended: the first `surplus` half sizes are dropped. */
  function DropHalves(s: seq<string>, surplus: int): (r: seq<string>)
    ensures |r| >= |s| - Max(surplus, 0)
    decreases |s|
  {
    if surplus <= 0 || |s| == 0 then s
    else if IsHalfSize(s[0]) then DropHalves(s[1..], surplus - 1)
    else [s[0]] + DropHalves(s[1..], surplus)
  }

  /**
   * Phase one as intended removes exactly `min(surplus, half sizes)`
   * entries, all of them half sizes, and keeps the rest in order.
   */
  lemma {:induction false} DropHalvesShape(s: seq<string>, surplus: int)
    ensures Wholes(DropHalves(s, surplus)) == Wholes(s)
    ensures HalfCount(DropHalves(s, surplus)) == Max(0, HalfCount(s) - Max(surplus, 0))
    ensures |DropHalves(s, surplus)| == |s| - Min(Max(surplus, 0), HalfCount(s))
    ensures Subsequence(DropHalves(s, surplus), s)
    decreases |s|
  {
    if surplus <= 0 || |s| == 0 {
      SubsequenceRefl(s);
    } else {
      DropHalvesShape(s[1..], if IsHalfSize(s[0]) then surplus - 1 else surplus);
      var r := DropHalves(s, surplus);
      if !IsHalfSize(s[0]) {
        assert r[0] == s[0] && r[1..] == DropHalves(s[1..], surplus);
      }
    }
  }

  /** What the corrected `filter_sizes` returns. */
  function IntendedTrim(s: seq<string>): seq<string>
  {
    if |s| <= MAX_ATTRS then s else DropHalves(s, |s| - MAX_ATTRS)[..MAX_ATTRS]
  }

  /**
   * The corrected trim has `min(len(sizes), 10)` entries, leaves a short
   * list alone, is an order-preserving subsequence, keeps a prefix of the
   * whole sizes, and drops a whole size only once no half size is left.
   */
  lemma IntendedTrimShape(s: seq<string>)
    ensures |IntendedTrim(s)| == Min(|s|, MAX_ATTRS)
    ensures |s| <= MAX_ATTRS ==> IntendedTrim(s) == s
    ensures Subsequence(IntendedTrim(s), s)
    ensures Wholes(IntendedTrim(s)) <= Wholes(s)
    ensures HalfCount(IntendedTrim(s)) > 0 ==> Wholes(IntendedTrim(s)) == Wholes(s)
  {
    if |s| <= MAX_ATTRS {
      SubsequenceRefl(s);
    } else {
      var k := |s| - MAX_ATTRS;
      var d := DropHalves(s, k);
      DropHalvesShape(s, k);
      SubsequencePrefix(d, s, MAX_ATTRS);
      WholesOfPrefix(d, MAX_ATTRS);
      if HalfCount(s) >= k {
        assert d[..MAX_ATTRS] == d;
      } else {
        WholesAndHalves(d);
        WholesAndHalves(d[..MAX_ATTRS]);
      }
    }
  }

  /** IntendedTrim's phase one seen from the state of the corrected loop. */
  function IntendedState(s: seq<string>, i: nat, surplus: int): seq<string>
    requires i <= |s|
  {
    s[..i] + DropHalves(s[i..], surplus)
  }

  /** One iteration of the corrected first loop keeps IntendedState. */
  lemma IntendedStep(s: seq<string>, i: nat, surplus: int)
    requires surplus > 0 && i < |s|
    ensures IsHalfSize(s[i]) ==>
      IntendedState(s[..i] + s[i + 1..], i, surplus - 1) == IntendedState(s, i, surplus)
    ensures !IsHalfSize(s[i]) ==> IntendedState(s, i + 1, surplus) == IntendedState(s, i, surplus)
  {
    assert s[i..][0] == s[i] && s[i..][1..] == s[i + 1..];
    if IsHalfSize(s[i]) {
      var s' := s[..i] + s[i + 1..];
      assert s'[..i] == s[..i] && s'[i..] == s[i + 1..];
    } else {
      assert s[..i + 1] == s[..i] + [s[i]];
    }
  }

  /** The corrected first loop run to the end from the state `(sizes, i, surplus)`. */
  function IntendedLoop(s: seq<string>, i: nat, surplus: int): seq<string>
    requires i <= |s|
    decreases |s| - i
  {
    if surplus > 0 && i < |s| then
      if IsHalfSize(s[i]) then IntendedLoop(s[..i] + s[i + 1..], i, surplus - 1)
      else IntendedLoop(s, i + 1, surplus)
    else s
  }

  /** The corrected loop computes DropHalves. */
  lemma {:induction false} IntendedLoopDrops(s: seq<string>, i: nat, surplus: int)
    requires i <= |s|
    ensures IntendedLoop(s, i, surplus) == IntendedState(s, i, surplus)
    decreases |s| - i
  {
    if surplus > 0 && i < |s| {
      IntendedStep(s, i, surplus);
      if IsHalfSize(s[i]) {
        IntendedLoopDrops(s[..i] + s[i + 1..], i, surplus - 1);
      } else {
        IntendedLoopDrops(s, i + 1, surplus);
      }
    } else {
      assert s[..i] + s[i..] == s;
    }
  }

  /** Run from the start, the corrected first loop computes DropHalves. */
  lemma IntendedLoopFromStart(s: seq<string>, surplus: int)
    ensures IntendedLoop(s, 0, surplus) == DropHalves(s, surplus)
  {
    IntendedLoopDrops(s, 0, surplus);
    assert s[..0] + DropHalves(s[0..], surplus) == DropHalves(s, surplus);
  }

  /** `filter_sizes` with the index advanced only past entries it keeps. */
  method FilterSizes(sizes: seq<string>) returns (r: seq<string>)
    ensures r == IntendedTrim(sizes)
  {
    var s := sizes;
    var surplus := |s| - MAX_ATTRS;
    ghost var phaseOne := IntendedLoop(sizes, 0, surplus);
    // Phase one: drop half sizes while more than ten entries remain.
    var i := 0;
    while surplus > 0 && i < |s|
      invariant 0 <= i <= |s|
      invariant |s| - surplus == MAX_ATTRS
      invariant |sizes| > MAX_ATTRS ==> surplus >= 0
      invariant |sizes| <= MAX_ATTRS ==> surplus <= 0
      invariant phaseOne == IntendedLoop(s, i, surplus)
      decreases |s| - i
    {
      if IsHalfSize(s[i]) {
        s := s[..i] + s[i + 1..];
        surplus := surplus - 1;
      } else {
        i := i + 1;
      }
    }
    IntendedLoopFromStart(sizes, |sizes| - MAX_ATTRS);
    // Phase two: drop entries from the end until ten remain.
    ghost var afterOne := s;
    while surplus > 0
      invariant |s| - surplus == MAX_ATTRS
      invariant |sizes| > MAX_ATTRS ==> surplus >= 0
      invariant |s| <= |afterOne| && s == afterOne[..|s|]
      invariant |sizes| <= MAX_ATTRS ==> surplus <= 0
      invariant |sizes| <= MAX_ATTRS ==> s == afterOne
      decreases surplus
    {
      assert afterOne[..|s|][..|s| - 1] == afterOne[..|s| - 1];
      s := s[..|s| - 1];
      surplus := surplus - 1;
    }
    assert |sizes| > MAX_ATTRS ==> s == phaseOne[..MAX_ATTRS];
    r := s;
  }

  // ---------------------------------------------------------------------
  // Where the two differ

  /** A list without half sizes passes phase one untouched, either way. */
  lemma {:induction false} NoHalfSizes(t: seq<string>, surplus: int)
    requires forall k :: 0 <= k < |t| ==> !IsHalfSize(t[k])
    ensures AsWrittenDrop(t, surplus) == t && DropHalves(t, surplus) == t
    ensures Wholes(t) == t && HalfCount(t) == 0
    decreases |t|
  {
    if t != [] {
      NoHalfSizes(t[1..], surplus);
      assert t == [t[0]] + t[1..];
    }
  }

  /**
   * Two adjacent half sizes followed by ten whole sizes: as written, the
   * first half size is popped, the second slides into its place and is
   * skipped, and the last whole size is chopped off the end instead; the
   * corrected loop drops both half sizes and keeps every whole size.
   */
  lemma {:induction false} AdjacentHalfSizeSkipped(h1: string, h2: string, w: seq<string>)
    requires IsHalfSize(h1) && IsHalfSize(h2)
    requires |w| == MAX_ATTRS && forall k :: 0 <= k < |w| ==> !IsHalfSize(w[k])
    ensures AsWrittenTrim([h1, h2] + w) == [h2] + w[..MAX_ATTRS - 1]
    ensures IntendedTrim([h1, h2] + w) == w
  {
    var s := [h1, h2] + w;
    NoHalfSizes(w, 1);
    NoHalfSizes(w, 0);
    assert s[0] == h1 && s[1] == h2 && s[2..] == w && s[1..][1..] == w;
    assert AsWrittenDrop(s, 2) == [h2] + w;
    assert DropHalves(s, 2) == DropHalves(s[1..], 1) == DropHalves(w, 0) == w;
  }

  /** Ten whole shoe sizes. */
  const WHOLE_EXAMPLE: seq<string> := ["8", "9", "10", "11", "12", "13", "14", "15", "16", "17"]

  lemma WholeExampleHasNoHalves()
    ensures |WHOLE_EXAMPLE| == MAX_ATTRS
    ensures forall k :: 0 <= k < |WHOLE_EXAMPLE| ==> !IsHalfSize(WHOLE_EXAMPLE[k])
  {
    forall k | 0 <= k < |WHOLE_EXAMPLE|
      ensures !IsHalfSize(WHOLE_EXAMPLE[k])
    {
      var w := WHOLE_EXAMPLE[k];
      assert |w| < 2 || w[|w| - 2] != '.';
    }
  }

  /**
   * The same with concrete sizes, "6.5" and "7.5" in front of the whole
   * sizes 8 to 17: as written "7.5" survives and "17" is lost.
   */
  lemma AdjacentHalfSizeExample()
    ensures AsWrittenTrim(["6.5", "7.5"] + WHOLE_EXAMPLE) == ["7.5"] + WHOLE_EXAMPLE[..9]
    ensures IntendedTrim(["6.5", "7.5"] + WHOLE_EXAMPLE) == WHOLE_EXAMPLE
  {
    WholeExampleHasNoHalves();
    assert IsHalfSize("6.5") && IsHalfSize("7.5");
    AdjacentHalfSizeSkipped("6.5", "7.5", WHOLE_EXAMPLE);
  }
}
