/**
 * The pieces of Python's value semantics that the feed code relies on:
 * optional values, slicing with possibly negative bounds, `%s` string
 * formatting and `str.join`.
 */
module PyLib {

  /** Python's `None` or a value. */
  datatype Option<+T> = None | Some(value: T)

  /** A value or the exception that replaced it. */
  datatype Result<+T, +E> = Success(value: T) | Failure(error: E)

  function Min(a: int, b: int): int { if a <= b then a else b }

  function Max(a: int, b: int): int { if a <= b then b else a }

  /** `[]` for `None`, the list itself otherwise (`if x is not None: for v in x`). */
  function OrEmpty<T>(o: Option<seq<T>>): (r: seq<T>)
    ensures o.Some? ==> r == o.value
    ensures o.None? ==> r == []
  {
    if o.Some? then o.value else []
  }

  /** A present value as a one-element list, `None` as the empty list. */
  function AsList<T>(o: Option<T>): seq<T>
  {
    if o.Some? then [o.value] else []
  }

  // ---------------------------------------------------------------------
  // Slicing

  /** `s[:stop]`: a negative stop counts from the end, and both ends clamp. */
  function SliceTo<T>(s: seq<T>, stop: int): (r: seq<T>)
    ensures r <= s
    ensures stop >= 0 ==> |r| == Min(stop, |s|)
    ensures stop < 0 ==> |r| == Max(0, |s| + stop)
  {
    if stop >= 0 then s[..Min(stop, |s|)] else s[..Max(0, |s| + stop)]
  }

  /** `s[start:]` with the same clamping rules. */
  function SliceFrom<T>(s: seq<T>, start: int): (r: seq<T>)
    ensures |r| <= |s| && r == s[|s| - |r|..]
    ensures start >= 0 ==> |r| == |s| - Min(start, |s|)
    ensures start < 0 ==> |r| == Min(-start, |s|)
  {
    if start >= 0 then s[Min(start, |s|)..] else s[Max(0, |s| + start)..]
  }

  // ---------------------------------------------------------------------
  // `template % (a, b, ...)` restricted to `%s` conversions

  /**
   * `t` is a template whose only conversions are `%s`, exactly `n` of
   * them; any other use of `%` makes Python raise, and the templates of
   * the feed never contain one.
   */
  predicate Template(t: string, n: nat)
    decreases |t|
  {
    if |t| == 0 then n == 0
    else if t[0] == '%' then |t| >= 2 && t[1] == 's' && n > 0 && Template(t[2..], n - 1)
    else Template(t[1..], n)
  }

  /** `t % tuple(args)`: every `%s` is replaced by the next argument. */
  function Format(t: string, args: seq<string>): string
    requires Template(t, |args|)
    decreases |t|
  {
    if |t| == 0 then ""
    else if t[0] == '%' then args[0] + Format(t[2..], args[1..])
    else [t[0]] + Format(t[1..], args)
  }

  /** Literal text in front of a template is copied unchanged. */
  lemma {:induction false} FormatLiteral(lit: string, t: string, args: seq<string>)
    requires '%' !in lit
    requires Template(t, |args|)
    ensures Template(lit + t, |args|)
    ensures Format(lit + t, args) == lit + Format(t, args)
  {
    if lit != [] {
      assert (lit + t)[0] == lit[0];
      assert (lit + t)[1..] == lit[1..] + t;
      FormatLiteral(lit[1..], t, args);
    } else {
      assert lit + t == t;
    }
  }

  /** A leading `%s` consumes the first argument. */
  lemma FormatConversion(t: string, a: string, args: seq<string>)
    requires Template(t, |args|)
    ensures Template("%s" + t, |[a] + args|)
    ensures Format("%s" + t, [a] + args) == a + Format(t, args)
  {
    assert ("%s" + t)[2..] == t;
    assert ([a] + args)[1..] == args;
  }

  /** Literal text, then a `%s` conversion, then the rest of the template. */
  lemma FormatStep(lit: string, a: string, t: string, args: seq<string>)
    requires '%' !in lit
    requires Template(t, |args|)
    ensures Template(lit + ("%s" + t), |[a] + args|)
    ensures Format(lit + ("%s" + t), [a] + args) == lit + (a + Format(t, args))
  {
    FormatConversion(t, a, args);
    FormatLiteral(lit, "%s" + t, [a] + args);
  }

  /** A template without conversions formats to itself. */
  lemma FormatPlain(t: string)
    requires '%' !in t
    ensures Template(t, 0)
    ensures Format(t, []) == t
  {
    assert Template("", 0) && Format("", []) == "";
    FormatLiteral(t, "", []);
    assert t + "" == t;
  }

  /** `(head + "%s" + tail) % (a,)`. */
  lemma FormatOne(head: string, tail: string, a: string)
    requires '%' !in head && '%' !in tail
    ensures Template(head + ("%s" + tail), 1)
    ensures Format(head + ("%s" + tail), [a]) == head + (a + tail)
  {
    FormatPlain(tail);
    FormatStep(head, a, tail, []);
    assert [a] + [] == [a];
  }

  /** `(head + "%s" + mid + "%s" + tail) % (a, b)`. */
  lemma FormatTwo(head: string, mid: string, tail: string, a: string, b: string)
    requires '%' !in head && '%' !in mid && '%' !in tail
    ensures Template(head + ("%s" + (mid + ("%s" + tail))), 2)
    ensures Format(head + ("%s" + (mid + ("%s" + tail))), [a, b]) == head + (a + (mid + (b + tail)))
  {
    FormatOne(mid, tail, b);
    FormatStep(head, a, mid + ("%s" + tail), [b]);
    assert [a] + [b] == [a, b];
  }

  /** `(head + "%s" + mid1 + "%s" + mid2 + "%s" + tail) % (a, b, c)`. */
  lemma FormatThree(head: string, mid1: string, mid2: string, tail: string, a: string, b: string, c: string)
    requires '%' !in head && '%' !in mid1 && '%' !in mid2 && '%' !in tail
    ensures Template(head + ("%s" + (mid1 + ("%s" + (mid2 + ("%s" + tail))))), 3)
    ensures Format(head + ("%s" + (mid1 + ("%s" + (mid2 + ("%s" + tail))))), [a, b, c])
         == head + (a + (mid1 + (b + (mid2 + (c + tail)))))
  {
    FormatTwo(mid1, mid2, tail, b, c);
    FormatStep(head, a, mid1 + ("%s" + (mid2 + ("%s" + tail))), [b, c]);
    assert [a] + [b, c] == [a, b, c];
  }

  // ---------------------------------------------------------------------
  // `str(n)` for an integer and its inverse `int(s)`

  predicate IsDigit(c: char) { '0' <= c <= '9' }

  function Digit(d: nat): (c: char)
    requires d < 10
    ensures IsDigit(c)
  {
    ('0' as int + d) as char
  }

  function DigitValue(c: char): nat
  {
    if IsDigit(c) then c as int - '0' as int else 0
  }

  /** `str(n)` for `n >= 0`: its decimal digits, most significant first. */
  function NatToStr(n: nat): (r: string)
    ensures |r| >= 1
    decreases n
  {
    if n < 10 then [Digit(n)] else NatToStr(n / 10) + [Digit(n % 10)]
  }

  /** `str(n)`: a minus sign in front of a negative number. */
  function IntToStr(n: int): string
  {
    if n < 0 then "-" + NatToStr(-n) else NatToStr(n)
  }

  /** `int(s)` for a string of digits. */
  function ParseNat(s: string): nat
    decreases |s|
  {
    if s == [] then 0 else 10 * ParseNat(s[..|s| - 1]) + DigitValue(s[|s| - 1])
  }

  /** `int(s)` with an optional leading minus sign. */
  function ParseInt(s: string): int
  {
    if |s| > 0 && s[0] == '-' then -(ParseNat(s[1..]) as int) else ParseNat(s)
  }

  /** The digits of `str(n)` are digits, without a leading zero, and read back as `n`. */
  lemma {:induction false} NatToStrDigits(n: nat)
    ensures forall k :: 0 <= k < |NatToStr(n)| ==> IsDigit(NatToStr(n)[k])
    ensures NatToStr(n)[0] == '0' ==> n == 0
    ensures ParseNat(NatToStr(n)) == n
    decreases n
  {
    var r := NatToStr(n);
    if n >= 10 {
      NatToStrDigits(n / 10);
      var front := NatToStr(n / 10);
      assert r == front + [Digit(n % 10)];
      assert r[..|r| - 1] == front;
      assert DigitValue(Digit(n % 10)) == n % 10;
      assert r[0] == front[0];
    } else {
      assert DigitValue(Digit(n)) == n;
      assert r[..0] == [];
    }
  }

  /** `int(str(n)) == n`. */
  lemma IntToStrRoundTrip(n: int)
    ensures ParseInt(IntToStr(n)) == n
  {
    if n < 0 {
      NatToStrDigits(-n);
      var digits := NatToStr(-n);
      assert ("-" + digits)[1..] == digits;
    } else {
      NatToStrDigits(n);
      assert IsDigit(NatToStr(n)[0]);
    }
  }

  // ---------------------------------------------------------------------
  // `sep.join(xs)` and its inverse

  /** `sep.join(xs)`. */
  function Join(sep: string, xs: seq<string>): string
    decreases |xs|
  {
    if |xs| == 0 then ""
    else if |xs| == 1 then xs[0]
    else xs[0] + sep + Join(sep, xs[1..])
  }

  /** `s.split(c)`: the pieces between occurrences of `c`; never empty. */
  function Split(c: char, s: string): (r: seq<string>)
    ensures |r| >= 1
    decreases |s|
  {
    if |s| == 0 then [""]
    else if s[0] == c then [""] + Split(c, s[1..])
    else
      var rest := Split(c, s[1..]);
      [[s[0]] + rest[0]] + rest[1..]
  }

  /** A piece free of the separator is read back whole, up to the next separator. */
  lemma {:induction false} SplitPiece(c: char, w: string, t: string)
    requires c !in w
    ensures Split(c, w + t) == [w + Split(c, t)[0]] + Split(c, t)[1..]
  {
    if w != [] {
      assert (w + t)[0] == w[0];
      assert (w + t)[1..] == w[1..] + t;
      SplitPiece(c, w[1..], t);
      assert [w[0]] + (w[1..] + Split(c, t)[0]) == w + Split(c, t)[0];
    } else {
      var r := Split(c, t);
      assert w + t == t && w + r[0] == r[0];
      assert [r[0]] + r[1..] == r;
    }
  }

  /**
   * Joining pieces that do not contain the one-character separator and
   * splitting again gives the pieces back.
   */
  lemma {:induction false} SplitJoin(c: char, xs: seq<string>)
    requires |xs| > 0
    requires forall k :: 0 <= k < |xs| ==> c !in xs[k]
    ensures Split(c, Join([c], xs)) == xs
  {
    if |xs| == 1 {
      SplitPiece(c, xs[0], "");
      assert xs[0] + "" == xs[0];
    } else {
      var tail := Join([c], xs[1..]);
      SplitJoin(c, xs[1..]);
      assert Join([c], xs) == xs[0] + ([c] + tail);
      SplitPiece(c, xs[0], [c] + tail);
      assert ([c] + tail)[0] == c && ([c] + tail)[1..] == tail;
      assert Split(c, [c] + tail) == [""] + xs[1..];
      assert xs[0] + "" == xs[0];
      assert [xs[0]] + xs[1..] == xs;
    }
  }

  // ---------------------------------------------------------------------
  // Subsequences

  /** `r` is `s` with some entries deleted, the rest kept in order. */
  predicate Subsequence<T(==)>(r: seq<T>, s: seq<T>)
    decreases |s|
  {
    r == [] || (s != [] && ((r[0] == s[0] && Subsequence(r[1..], s[1..])) || Subsequence(r, s[1..])))
  }

  lemma {:induction false} SubsequenceRefl<T>(s: seq<T>)
    ensures Subsequence(s, s)
  {
    if s != [] {
      SubsequenceRefl(s[1..]);
    }
  }

  /** Cutting a subsequence short keeps it a subsequence. */
  lemma {:induction false} SubsequencePrefix<T>(r: seq<T>, s: seq<T>, n: nat)
    requires Subsequence(r, s)
    requires n <= |r|
    ensures Subsequence(r[..n], s)
    decreases |s|
  {
    if n > 0 {
      if r[0] == s[0] && Subsequence(r[1..], s[1..]) {
        SubsequencePrefix(r[1..], s[1..], n - 1);
        assert r[..n][1..] == r[1..][..n - 1];
      } else {
        SubsequencePrefix(r, s[1..], n);
      }
    }
  }

  /** Appending the same entry to both sides, or to the longer one only, keeps a subsequence. */
  lemma {:induction false} SubsequenceSnoc<T>(r: seq<T>, s: seq<T>, x: T)
    requires Subsequence(r, s)
    ensures Subsequence(r + [x], s + [x])
    ensures Subsequence(r, s + [x])
    decreases |s|
  {
    if s == [] {
      assert r == [];
      assert (s + [x])[1..] == [];
      assert (r + [x])[1..] == [];
    } else {
      assert (s + [x])[0] == s[0] && (s + [x])[1..] == s[1..] + [x];
      if r == [] {
        SubsequenceSnoc(r, s[1..], x);
        assert r + [x] == [x];
      } else {
        assert (r + [x])[0] == r[0] && (r + [x])[1..] == r[1..] + [x];
        if r[0] == s[0] && Subsequence(r[1..], s[1..]) {
          SubsequenceSnoc(r[1..], s[1..], x);
        } else {
          SubsequenceSnoc(r, s[1..], x);
        }
      }
    }
  }

  // ---------------------------------------------------------------------
  // Proof helpers: facts about concatenation and slicing, each stated over
  // plain variables so that the solver proves it apart from any program
  // definition. They say nothing about the feed.

  lemma AppendAssoc<T>(x: seq<T>, y: seq<T>, z: seq<T>)
    ensures x + (y + z) == (x + y) + z
  {
  }

  lemma PairAppend<T>(x: T, y: T)
    ensures [x] + [y] == [x, y]
  {
  }

  lemma AppendEmpty<T>(x: seq<T>)
    ensures x + [] == x
  {
  }

  lemma SnocSplit<T>(s: seq<T>)
    requires s != []
    ensures s[..|s| - 1] + [s[|s| - 1]] == s
  {
  }

  lemma ConsSplit<T>(s: seq<T>)
    requires s != []
    ensures s[..1] + s[1..] == s
  {
  }

  /** A suffix of a suffix is a suffix. */
  lemma SuffixOfSuffix<T>(d: seq<T>, s: seq<T>, j: seq<T>)
    requires |j| <= |s| <= |d|
    requires d[|d| - |s|..] == s
    requires s[|s| - |j|..] == j
    ensures d[|d| - |j|..] == j
  {
    assert d[|d| - |j|..] == s[|s| - |j|..];
  }

  /** A stream written piece by piece, regrouped into its blocks. */
  lemma Regroup4<T>(e: seq<T>, a: seq<T>, b: seq<T>, c: seq<T>, d: seq<T>)
    ensures e + a + b + c + d == e + (a + b + c + d)
  {}

  lemma Regroup5<T>(e: seq<T>, a: seq<T>, b: seq<T>, c: seq<T>, d: seq<T>, f: seq<T>)
    ensures e + a + b + c + d + f == e + (a + b + c + d + f)
  {}

  lemma Regroup6<T>(e: seq<T>, a: seq<T>, b: seq<T>, c: seq<T>, d: seq<T>, f: seq<T>, g: seq<T>)
    ensures e + a + b + c + d + f + g == e + (a + b + c + d + f + g)
  {}

  lemma Regroup7<T>(e: seq<T>, a: seq<T>, b: seq<T>, c: seq<T>, d: seq<T>, f: seq<T>, g: seq<T>, h: seq<T>)
    ensures e + a + b + c + d + f + g + h == e + (a + b + c + d + f + g + h)
  {}

  /** Six blocks of which only the fourth and the sixth are not empty. */
  lemma KeepTwo<T>(h: seq<T>, i: seq<T>, m: seq<T>, p: seq<T>, d: seq<T>, s: seq<T>)
    requires h == [] && i == [] && m == [] && d == []
    ensures h + i + m + p + d + s == p + s
  {
  }
}
