/**
 * The versionsort comparator: a lexicographic order on strings that reads a
 * run of decimal digits as a number, so that "1.2" sorts before "1.10".
 *
 * A Go string is a sequence of bytes and the comparator works byte by byte;
 * here each `char` of a Dafny `string` stands for one byte. Go's built-in
 * string `<` is `LexLess`.
 */
module VersionSort {

  predicate IsDigit(c: char)
  {
    '0' <= c <= '9'
  }

  /** Go's `a < b` on strings: byte-wise lexicographic order, a proper prefix first. */
  function LexLess(a: string, b: string): bool
  {
    if |a| == 0 then |b| > 0
    else if |b| == 0 then false
    else if a[0] != b[0] then a[0] < b[0]
    else LexLess(a[1..], b[1..])
  }

  /** The length of the longest common prefix of a and b. */
  function CommonPrefix(a: string, b: string): (n: nat)
    ensures n <= |a| && n <= |b|
    ensures forall i :: 0 <= i < n ==> a[i] == b[i]
    ensures n < |a| && n < |b| ==> a[n] != b[n]
    ensures n == |a| && n == |b| ==> a == b
  {
    if |a| == 0 || |b| == 0 || a[0] != b[0] then 0
    else 1 + CommonPrefix(a[1..], b[1..])
  }

  /** Whether the byte just before pos is a digit: the common prefix ends inside a run of digits. */
  predicate InDigitRun(s: string, pos: nat)
  {
    0 < pos <= |s| && IsDigit(s[pos - 1])
  }

  /** The end of the run of digits starting at p: the first non-digit from p on, or the end of s. */
  function DigitRunEnd(s: string, p: nat): (e: nat)
    ensures p <= e
    ensures e == p || e <= |s|
    ensures forall i :: p <= i < e ==> i < |s| && IsDigit(s[i])
    ensures e < |s| ==> !IsDigit(s[e])
    decreases |s| - p
  {
    if p >= |s| || !IsDigit(s[p]) then p else DigitRunEnd(s, p + 1)
  }

  /**
   * The start of the number in s[p..e] once its leading zeros are skipped; a
   * non-empty run keeps at least its last digit, so "000" becomes "0".
   */
  function ZeroSkip(s: string, p: nat, e: nat): (start: nat)
    requires p <= e && (e <= |s| || e == p)
    ensures p <= start <= e
    ensures forall i :: p <= i < start ==> s[i] == '0'
    ensures p < e ==> start < e
    ensures start + 1 < e ==> s[start] != '0'
    decreases e - p
  {
    if p + 1 < e && s[p] == '0' then ZeroSkip(s, p + 1, e) else p
  }

  /**
   * The version order the comparator implements. Equal strings are not
   * ordered; past the common prefix, a string that ends first is smaller;
   * a difference outside a run of digits, where one differing byte is not a
   * digit, is decided by byte order; otherwise the digit runs starting at
   * the difference, leading zeros skipped, are compared by length and then
   * byte by byte.
   */
  function VersionLess(v1: string, v2: string): bool
  {
    if v1 == v2 then false
    else
      var pos := CommonPrefix(v1, v2);
      if pos == |v1| then true
      else if pos == |v2| then false
      else if !InDigitRun(v1, pos) && (!IsDigit(v1[pos]) || !IsDigit(v2[pos])) then LexLess(v1, v2)
      else
        var e1 := DigitRunEnd(v1, pos);
        var s1 := ZeroSkip(v1, pos, e1);
        var e2 := DigitRunEnd(v2, pos);
        var s2 := ZeroSkip(v2, pos, e2);
        if e1 - s1 > e2 - s2 then false
        else if e1 - s1 < e2 - s2 then true
        else LexLess(v1[s1..e1], v2[s2..e2])
  }

  /** `integerStartEnd`: the digit run of s from p on, and where its number starts once leading zeros are skipped. */
  method IntegerStartEnd(s: string, p: nat) returns (start: nat, end: nat)
    ensures end == DigitRunEnd(s, p)
    ensures start == ZeroSkip(s, p, end)
  {
    start := p;
    end := p;
    while end < |s|
      invariant p <= end && (end <= |s| || end == p)
      invariant DigitRunEnd(s, end) == DigitRunEnd(s, p)
    {
      if !IsDigit(s[end]) {
        break;
      }
      end := end + 1;
    }
    while start + 1 < end && s[start] == '0'
      invariant p <= start <= end
      invariant ZeroSkip(s, start, end) == ZeroSkip(s, p, end)
    {
      start := start + 1;
    }
  }

  /** `Less`: whether v1 sorts strictly before v2 in version order. */
  method Less(v1: string, v2: string) returns (less: bool)
    ensures less == VersionLess(v1, v2)
  {
    if v1 == v2 {
      return false;
    }
    // vStart is -1 exactly when the common prefix so far does not end in a digit
    var vStart := -1;
    var smallestLen := |v1|;
    if |v2| < smallestLen {
      smallestLen := |v2|;
    }
    var pos := 0;
    while pos < smallestLen
      invariant pos <= smallestLen
      invariant forall i :: 0 <= i < pos ==> v1[i] == v2[i]
      invariant -1 <= vStart < pos
      invariant vStart == -1 <==> !InDigitRun(v1, pos)
    {
      if v1[pos] != v2[pos] {
        break;
      }
      if vStart == -1 {
        if IsDigit(v1[pos]) {
          vStart := pos;
        }
      } else {
        if !IsDigit(v1[pos]) {
          vStart := -1;
        }
      }
      pos := pos + 1;
    }
    CommonPrefixUnique(v1, v2, pos);
    if pos == |v1| {
      return true;
    } else if pos == |v2| {
      return false;
    } else if vStart == -1 && (!IsDigit(v1[pos]) || !IsDigit(v2[pos])) {
      return LexLess(v1, v2);
    }
    var v1s, v1e := IntegerStartEnd(v1, pos);
    var v2s, v2e := IntegerStartEnd(v2, pos);
    if v1e - v1s > v2e - v2s {
      return false;
    } else if v1e - v1s < v2e - v2s {
      return true;
    } else {
      return LexLess(v1[v1s..v1e], v2[v2s..v2e]);
    }
  }

  /** Any n at which a and b agree before and differ (or one ends) is their common prefix length. */
  lemma {:induction false} CommonPrefixUnique(a: string, b: string, n: nat)
    requires n <= |a| && n <= |b|
    requires forall i :: 0 <= i < n ==> a[i] == b[i]
    requires n == |a| || n == |b| || a[n] != b[n]
    ensures CommonPrefix(a, b) == n
  {
    if n > 0 {
      assert a[0] == b[0];
      CommonPrefixUnique(a[1..], b[1..], n - 1);
    }
  }

  lemma {:induction false} CommonPrefixSymmetric(a: string, b: string)
    ensures CommonPrefix(a, b) == CommonPrefix(b, a)
  {
    CommonPrefixUnique(b, a, CommonPrefix(a, b));
  }

  // ---------------------------------------------------------------------
  // Go's string order

  /** a < b exactly when a is a proper prefix of b, or at the first difference a's byte is smaller. */
  lemma {:induction false} LexLessAt(a: string, b: string)
    ensures var k := CommonPrefix(a, b);
      LexLess(a, b) <==> (k == |a| && k < |b|) || (k < |a| && k < |b| && a[k] < b[k])
  {
    if |a| != 0 && |b| != 0 && a[0] == b[0] {
      LexLessAt(a[1..], b[1..]);
    }
  }

  /** The string order is strict: never both a < b and b < a. */
  lemma LexLessAsymmetric(a: string, b: string)
    ensures !(LexLess(a, b) && LexLess(b, a))
  {
    LexLessAt(a, b);
    LexLessAt(b, a);
    CommonPrefixSymmetric(a, b);
  }

  /** The string order is total on distinct strings. */
  lemma LexLessTotal(a: string, b: string)
    requires a != b
    ensures LexLess(a, b) || LexLess(b, a)
  {
    LexLessAt(a, b);
    LexLessAt(b, a);
    CommonPrefixSymmetric(a, b);
  }

  // ---------------------------------------------------------------------
  // What the comparator promises

  /** No string is less than itself. */
  lemma LessIrreflexive(v: string)
    ensures !VersionLess(v, v)
  {
  }

  /** A proper prefix sorts first. */
  lemma LessPrefix(v1: string, v2: string)
    requires |v1| < |v2| && v1 == v2[..|v1|]
    ensures VersionLess(v1, v2) && !VersionLess(v2, v1)
  {
    CommonPrefixUnique(v1, v2, |v1|);
    CommonPrefixUnique(v2, v1, |v1|);
  }

  /**
   * Where the first difference is not inside a run of digits and one of
   * the two differing bytes is not a digit, the order is that of those bytes.
   */
  lemma LessByteFallback(v1: string, v2: string)
    requires v1 != v2
    requires var pos := CommonPrefix(v1, v2);
      pos < |v1| && pos < |v2| && !InDigitRun(v1, pos) && (!IsDigit(v1[pos]) || !IsDigit(v2[pos]))
    ensures var pos := CommonPrefix(v1, v2);
      VersionLess(v1, v2) == (v1[pos] < v2[pos])
  {
    LexLessAt(v1, v2);
  }

  /** The two strings agree before pos, so they agree on whether pos follows a digit. */
  lemma InDigitRunCommon(v1: string, v2: string)
    ensures InDigitRun(v1, CommonPrefix(v1, v2)) == InDigitRun(v2, CommonPrefix(v1, v2))
  {
  }

  /** The comparator is asymmetric: never both v1 < v2 and v2 < v1. */
  lemma LessAsymmetric(v1: string, v2: string)
    ensures !(VersionLess(v1, v2) && VersionLess(v2, v1))
  {
    CommonPrefixSymmetric(v1, v2);
    InDigitRunCommon(v1, v2);
    var pos := CommonPrefix(v1, v2);
    if v1 != v2 && pos < |v1| && pos < |v2| {
      if !InDigitRun(v1, pos) && (!IsDigit(v1[pos]) || !IsDigit(v2[pos])) {
        LexLessAsymmetric(v1, v2);
      } else {
        var e1 := DigitRunEnd(v1, pos);
        var s1 := ZeroSkip(v1, pos, e1);
        var e2 := DigitRunEnd(v2, pos);
        var s2 := ZeroSkip(v2, pos, e2);
        LexLessAsymmetric(v1[s1..e1], v2[s2..e2]);
      }
    }
  }

  // ---------------------------------------------------------------------
  // Digit runs are compared as numbers

  /** A string of decimal digits. */
  predicate AllDigits(s: string)
  {
    forall i :: 0 <= i < |s| ==> IsDigit(s[i])
  }

  function Pow10(k: nat): (p: nat)
    ensures p >= 1
  {
    if k == 0 then 1 else 10 * Pow10(k - 1)
  }

  /** The value of a decimal digit. */
  function Digit(c: char): (d: nat)
    ensures IsDigit(c) ==> d <= 9 && (d == 0 <==> c == '0')
  {
    if IsDigit(c) then c as int - '0' as int else 0
  }

  /** The number a string of decimal digits spells. */
  function Value(s: string): nat
  {
    if |s| == 0 then 0
    else Digit(s[0]) * Pow10(|s| - 1) + Value(s[1..])
  }

  lemma MulMonotone(x: nat, y: nat, p: nat)
    requires x <= y
    ensures x * p <= y * p
  {
  }

  /** A k-digit string spells a number below 10^k. */
  lemma {:induction false} ValueBelow(s: string)
    requires AllDigits(s)
    ensures Value(s) < Pow10(|s|)
  {
    if |s| > 0 {
      ValueBelow(s[1..]);
      var p := Pow10(|s| - 1);
      MulMonotone(Digit(s[0]), 9, p);
      assert Pow10(|s|) == 10 * p;
    }
  }

  /** A string without a leading zero spells at least 10^(k-1). */
  lemma ValueAtLeast(s: string)
    requires AllDigits(s) && |s| > 0 && s[0] != '0'
    ensures Value(s) >= Pow10(|s| - 1)
  {
    MulMonotone(1, Digit(s[0]), Pow10(|s| - 1));
  }

  /** Among digit strings of equal length, byte order is numeric order. */
  lemma {:induction false} SameLengthValue(a: string, b: string)
    requires AllDigits(a) && AllDigits(b) && |a| == |b|
    ensures LexLess(a, b) <==> Value(a) < Value(b)
  {
    if |a| > 0 {
      if a[0] == b[0] {
        assert AllDigits(a[1..]) && AllDigits(b[1..]);
        SameLengthValue(a[1..], b[1..]);
      } else if a[0] < b[0] {
        LeadingDigitDecides(a, b);
      } else {
        LeadingDigitDecides(b, a);
      }
    }
  }

  /** Of two digit strings of equal length, the one with the smaller leading digit spells the smaller number. */
  lemma LeadingDigitDecides(a: string, b: string)
    requires AllDigits(a) && AllDigits(b) && 0 < |a| == |b| && a[0] < b[0]
    ensures Value(a) < Value(b)
  {
    assert AllDigits(a[1..]);
    ValueBelow(a[1..]);
    LeadingBound(Digit(a[0]), Digit(b[0]), Pow10(|a| - 1), Value(a[1..]), Value(b[1..]));
  }

  lemma LeadingBound(c: nat, d: nat, p: nat, x: nat, y: nat)
    requires c < d && x < p
    ensures c * p + x < d * p + y
  {
    MulMonotone(c + 1, d, p);
  }

  /**
   * A run of digits with its leading zeros skipped is the canonical spelling
   * of its number: comparing two such runs by length and then byte by byte
   * is comparing the numbers.
   */
  lemma NumericOrder(a: string, b: string)
    requires AllDigits(a) && AllDigits(b) && |a| > 0 && |b| > 0
    requires a[0] != '0' || |a| == 1
    requires b[0] != '0' || |b| == 1
    ensures (|a| < |b| || (|a| == |b| && LexLess(a, b))) <==> Value(a) < Value(b)
  {
    if |a| < |b| {
      ValueBelow(a);
      ValueAtLeast(b);
      Pow10Monotone(|a|, |b| - 1);
    } else if |b| < |a| {
      ValueBelow(b);
      ValueAtLeast(a);
      Pow10Monotone(|b|, |a| - 1);
    } else {
      SameLengthValue(a, b);
    }
  }

  lemma {:induction false} Pow10Monotone(i: nat, j: nat)
    requires i <= j
    ensures Pow10(i) <= Pow10(j)
  {
    if i < j {
      Pow10Monotone(i, j - 1);
    }
  }

  /** The number the comparator reads at pos: the digit run from pos on, leading zeros skipped. */
  function RunAt(s: string, pos: nat): (run: string)
    requires pos <= |s|
    ensures AllDigits(run)
    ensures pos < |s| && IsDigit(s[pos]) ==> |run| > 0 && (run[0] != '0' || |run| == 1)
  {
    var e := DigitRunEnd(s, pos);
    s[ZeroSkip(s, pos, e)..e]
  }

  /**
   * Where both differing bytes are digits, the comparator orders the two
   * strings by the numbers spelt from there on: "1.2" < "1.10", "x99" < "x100".
   */
  lemma LessNumeric(v1: string, v2: string)
    requires v1 != v2
    requires var pos := CommonPrefix(v1, v2);
      pos < |v1| && pos < |v2| && IsDigit(v1[pos]) && IsDigit(v2[pos])
    ensures var pos := CommonPrefix(v1, v2);
      VersionLess(v1, v2) <==> Value(RunAt(v1, pos)) < Value(RunAt(v2, pos))
  {
    var pos := CommonPrefix(v1, v2);
    NumericOrder(RunAt(v1, pos), RunAt(v2, pos));
  }

  /**
   * Where the first difference follows a digit and exactly one differing
   * byte is a digit, the string with the digit (the longer number) is greater.
   */
  lemma LessRunEnds(v1: string, v2: string)
    requires v1 != v2
    requires var pos := CommonPrefix(v1, v2);
      pos < |v1| && pos < |v2| && InDigitRun(v1, pos) && IsDigit(v1[pos]) != IsDigit(v2[pos])
    ensures VersionLess(v1, v2) <==> IsDigit(v2[CommonPrefix(v1, v2)])
  {
  }

  /** "1.2" sorts before "1.10": the numbers 2 and 10 differ in length. */
  lemma ExampleMinor()
    ensures VersionLess("1.2", "1.10") && !VersionLess("1.10", "1.2")
  {
    CommonPrefixUnique("1.2", "1.10", 2);
    CommonPrefixUnique("1.10", "1.2", 2);
    assert DigitRunEnd("1.2", 2) == 3;
    assert DigitRunEnd("1.10", 2) == 4;
  }

  /** "x99" sorts before "x100": a shorter number is smaller. */
  lemma ExampleMagnitude()
    ensures VersionLess("x99", "x100") && !VersionLess("x100", "x99")
  {
    CommonPrefixUnique("x99", "x100", 1);
    CommonPrefixUnique("x100", "x99", 1);
    assert DigitRunEnd("x99", 1) == 3;
    assert DigitRunEnd("x100", 1) == 4;
  }

  /** "1.2.3" sorts before "1.3.1": numbers of equal length compare digit by digit. */
  lemma ExamplePatch()
    ensures VersionLess("1.2.3", "1.3.1") && !VersionLess("1.3.1", "1.2.3")
  {
    CommonPrefixUnique("1.2.3", "1.3.1", 2);
    CommonPrefixUnique("1.3.1", "1.2.3", 2);
    assert DigitRunEnd("1.2.3", 2) == 3;
    assert DigitRunEnd("1.3.1", 2) == 3;
  }

  /** "abc" sorts before "xyz": no digits, plain byte order. */
  lemma ExampleLetters()
    ensures VersionLess("abc", "xyz") && !VersionLess("xyz", "abc")
  {
    CommonPrefixUnique("abc", "xyz", 0);
    CommonPrefixUnique("xyz", "abc", 0);
  }

  /** The cases of the package's test of `integerStartEnd`, through the method. */
  method IntegerStartEndExamples() returns (results: seq<(nat, nat)>)
    ensures results == [(0, 1), (1, 2), (0, 1), (1, 2), (0, 1), (0, 2),
                       (0, 1), (0, 2), (1, 2), (1, 2), (1, 2), (1, 2)]
  {
    var s0, e0 := IntegerStartEnd("0", 0);
    var s1, e1 := IntegerStartEnd("00", 0);
    var s2, e2 := IntegerStartEnd("0x", 0);
    var s3, e3 := IntegerStartEnd("00x", 0);
    var s4, e4 := IntegerStartEnd("1", 0);
    var s5, e5 := IntegerStartEnd("11", 0);
    var s6, e6 := IntegerStartEnd("1x", 0);
    var s7, e7 := IntegerStartEnd("11x", 0);
    var s8, e8 := IntegerStartEnd("01", 0);
    var s9, e9 := IntegerStartEnd("01x", 0);
    var s10, e10 := IntegerStartEnd("x1", 1);
    var s11, e11 := IntegerStartEnd("x1x", 1);
    results := [(s0, e0), (s1, e1), (s2, e2), (s3, e3), (s4, e4), (s5, e5), (s6, e6), (s7, e7), (s8, e8), (s9, e9), (s10, e10), (s11, e11)];
  }

  // ---------------------------------------------------------------------
  // Distinct strings the comparator leaves unordered

  /**
   * As written, two strings whose first difference is a pair of non-digits
   * right after a shared digit are not ordered either way: both digit runs
   * at the difference are empty, so the numeric comparison ties.
   */
  lemma UnorderedAfterDigit()
    ensures "1a" != "1b"
    ensures !VersionLess("1a", "1b") && !VersionLess("1b", "1a")
  {
    CommonPrefixUnique("1a", "1b", 1);
    CommonPrefixUnique("1b", "1a", 1);
  }

  /**
   * Whether the comparator reaches its numeric comparison at the first
   * difference and finds the same number spelt the same way on both sides,
   * which decides nothing.
   */
  predicate NumbersTie(v1: string, v2: string)
  {
    var pos := CommonPrefix(v1, v2);
    v1 != v2 && pos < |v1| && pos < |v2| &&
    !(!InDigitRun(v1, pos) && (!IsDigit(v1[pos]) || !IsDigit(v2[pos]))) &&
    RunAt(v1, pos) == RunAt(v2, pos)
  }

  /**
   * The comparator with a tie in the numeric comparison broken by Go's
   * string order, so that distinct versions are never left unordered.
   */
  function VersionLessFixed(v1: string, v2: string): bool
  {
    if NumbersTie(v1, v2) then LexLess(v1, v2) else VersionLess(v1, v2)
  }

  /** The corrected comparator orders every two distinct strings one way and not the other. */
  lemma FixedTrichotomy(v1: string, v2: string)
    requires v1 != v2
    ensures VersionLessFixed(v1, v2) != VersionLessFixed(v2, v1)
  {
    CommonPrefixSymmetric(v1, v2);
    InDigitRunCommon(v1, v2);
    var pos := CommonPrefix(v1, v2);
    if NumbersTie(v1, v2) {
      assert NumbersTie(v2, v1);
      LexLessTotal(v1, v2);
      LexLessAsymmetric(v1, v2);
    } else {
      assert !NumbersTie(v2, v1);
      LessAsymmetric(v1, v2);
      if pos < |v1| && pos < |v2| {
        if !InDigitRun(v1, pos) && (!IsDigit(v1[pos]) || !IsDigit(v2[pos])) {
          LexLessTotal(v1, v2);
        } else {
          var r1, r2 := RunAt(v1, pos), RunAt(v2, pos);
          if |r1| == |r2| {
            LexLessTotal(r1, r2);
          }
        }
      }
    }
  }

  /** The corrected comparator agrees with the original wherever the original decides. */
  lemma FixedAgrees(v1: string, v2: string)
    requires VersionLess(v1, v2) || VersionLess(v2, v1)
    ensures VersionLessFixed(v1, v2) == VersionLess(v1, v2)
  {
    if NumbersTie(v1, v2) {
      var pos := CommonPrefix(v1, v2);
      CommonPrefixSymmetric(v1, v2);
      InDigitRunCommon(v1, v2);
      LexLessAsymmetric(RunAt(v1, pos), RunAt(v2, pos));
    }
  }

  // ---------------------------------------------------------------------
  // Numbers compared from the first difference rather than from their start

  /**
   * As written, a first difference inside a number compares only the digits
   * from the difference on: "1.100" sorts before "1.19", because the run
   * "00", read as 0, is shorter than nothing and less than the run "9".
   */
  lemma SplitNumberMisordered()
    ensures VersionLess("1.100", "1.19") && !VersionLess("1.19", "1.100")
  {
    CommonPrefixUnique("1.100", "1.19", 3);
    CommonPrefixUnique("1.19", "1.100", 3);
    assert DigitRunEnd("1.100", 3) == 5;
    assert DigitRunEnd("1.19", 3) == 4;
  }

  /** Where the run of digits that ends just before pos begins (the comparator's `vStart`), or pos itself. */
  function RunStart(s: string, pos: nat): (start: nat)
    requires pos <= |s|
    ensures start <= pos
  {
    if pos > 0 && IsDigit(s[pos - 1]) then RunStart(s, pos - 1) else pos
  }

  /**
   * The comparator as evidently intended: a difference inside a number
   * compares the whole numbers, read from `vStart`, and two numbers that
   * tie leave the decision to Go's string order.
   */
  function VersionLessWhole(v1: string, v2: string): bool
  {
    if v1 == v2 then false
    else
      var pos := CommonPrefix(v1, v2);
      if pos == |v1| then true
      else if pos == |v2| then false
      else if !InDigitRun(v1, pos) && (!IsDigit(v1[pos]) || !IsDigit(v2[pos])) then LexLess(v1, v2)
      else
        var start := RunStart(v1, pos);
        var r1, r2 := RunAt(v1, start), RunAt(v2, start);
        if |r1| != |r2| then |r1| < |r2|
        else if r1 != r2 then LexLess(r1, r2)
        else LexLess(v1, v2)
  }

  /** Where a digit run begins depends only on the bytes before it. */
  lemma {:induction false} RunStartPrefix(a: string, b: string, pos: nat)
    requires pos <= |a| && pos <= |b|
    requires forall i :: 0 <= i < pos ==> a[i] == b[i]
    ensures RunStart(a, pos) == RunStart(b, pos)
    decreases pos
  {
    if pos > 0 {
      RunStartPrefix(a, b, pos - 1);
    }
  }

  /** The corrected comparator orders every two distinct strings one way and not the other. */
  lemma WholeTrichotomy(v1: string, v2: string)
    requires v1 != v2
    ensures VersionLessWhole(v1, v2) != VersionLessWhole(v2, v1)
  {
    CommonPrefixSymmetric(v1, v2);
    InDigitRunCommon(v1, v2);
    var pos := CommonPrefix(v1, v2);
    if pos < |v1| && pos < |v2| {
      if !InDigitRun(v1, pos) && (!IsDigit(v1[pos]) || !IsDigit(v2[pos])) {
        LexLessTotal(v1, v2);
        LexLessAsymmetric(v1, v2);
      } else {
        RunStartPrefix(v1, v2, pos);
        var start := RunStart(v1, pos);
        var r1, r2 := RunAt(v1, start), RunAt(v2, start);
        if |r1| == |r2| && r1 != r2 {
          LexLessTotal(r1, r2);
          LexLessAsymmetric(r1, r2);
        } else if r1 == r2 {
          LexLessTotal(v1, v2);
          LexLessAsymmetric(v1, v2);
        }
      }
    }
  }

  /** A number written without leading zeros. */
  predicate Canonical(a: string)
  {
    AllDigits(a) && |a| > 0 && (a[0] != '0' || |a| == 1)
  }

  /** A run of digits from q to e, with no digit right after it, ends at e. */
  lemma {:induction false} DigitRunEndAt(v: string, q: nat, e: nat)
    requires q <= e <= |v|
    requires forall i :: q <= i < e ==> IsDigit(v[i])
    requires e == |v| || !IsDigit(v[e])
    ensures DigitRunEnd(v, q) == e
    decreases e - q
  {
    if q < e {
      DigitRunEndAt(v, q + 1, e);
    }
  }

  /** A run of digits from n to q, with no digit right before it, starts at n. */
  lemma {:induction false} RunStartAt(v: string, n: nat, q: nat)
    requires n <= q <= |v|
    requires forall i :: n <= i < q ==> IsDigit(v[i])
    requires n == 0 || !IsDigit(v[n - 1])
    ensures RunStart(v, q) == n
    decreases q
  {
    if q > n {
      RunStartAt(v, n, q - 1);
    }
  }

  /** Where a number a stands in v at offset n, followed by a non-digit or the end, the comparator reads a there. */
  lemma EmbeddedRun(v: string, n: nat, a: string)
    requires n + |a| <= |v| && v[n..n + |a|] == a && Canonical(a)
    requires n + |a| == |v| || !IsDigit(v[n + |a|])
    ensures RunAt(v, n) == a
  {
    EmbeddedDigits(v, n, a);
    DigitRunEndAt(v, n, n + |a|);
    assert v[n] == a[0];
  }

  lemma EmbeddedDigits(v: string, n: nat, a: string)
    requires n + |a| <= |v| && v[n..n + |a|] == a && AllDigits(a)
    ensures forall i :: n <= i < n + |a| ==> IsDigit(v[i])
  {
    forall i | n <= i < n + |a|
      ensures IsDigit(v[i])
    {
      assert v[i] == a[i - n];
    }
  }

  /** Two strings that agree up to offset n and hold different numbers a and b there first differ where a and b do. */
  lemma CommonPrefixEmbedded(v1: string, v2: string, n: nat, a: string, b: string, k: nat)
    requires n + |a| <= |v1| && v1[n..n + |a|] == a && AllDigits(a)
    requires n + |b| <= |v2| && v2[n..n + |b|] == b && AllDigits(b)
    requires v1[..n] == v2[..n]
    requires n + |a| == |v1| || !IsDigit(v1[n + |a|])
    requires n + |b| == |v2| || !IsDigit(v2[n + |b|])
    requires k <= |a| && k <= |b| && a[..k] == b[..k]
    requires (k < |a| && k < |b| && a[k] != b[k]) || (k == |a| && k < |b|) || (k == |b| && k < |a|)
    ensures CommonPrefix(v1, v2) == n + k
  {
    forall i | 0 <= i < n + k
      ensures v1[i] == v2[i]
    {
      if i < n {
        assert v1[..n][i] == v2[..n][i];
      } else {
        assert v1[i] == a[..k][i - n] && v2[i] == b[..k][i - n];
      }
    }
    if k < |a| && k < |b| {
      assert v1[n + k] == a[k] && v2[n + k] == b[k];
    } else if k == |a| {
      assert v2[n + k] == b[k];
    } else {
      assert v1[n + k] == a[k];
    }
    CommonPrefixUnique(v1, v2, n + k);
  }

  /** Where two different strings first differ, or where the shorter one ends. */
  lemma FirstDifference(a: string, b: string) returns (k: nat)
    requires a != b
    ensures k <= |a| && k <= |b| && a[..k] == b[..k]
    ensures (k < |a| && k < |b| && a[k] != b[k]) || (k == |a| && k < |b|) || (k == |b| && k < |a|)
  {
    k := CommonPrefix(a, b);
    assert a[..k] == b[..k];
  }

  /** The corrected comparator where the first difference lies in a number: the numbers read from `vStart` decide. */
  lemma WholeByRuns(v1: string, v2: string, c: nat, start: nat, r1: string, r2: string)
    requires v1 != v2 && c == CommonPrefix(v1, v2) && c < |v1| && c < |v2|
    requires InDigitRun(v1, c) || (IsDigit(v1[c]) && IsDigit(v2[c]))
    requires start == RunStart(v1, c) && r1 == RunAt(v1, start) && r2 == RunAt(v2, start)
    ensures VersionLessWhole(v1, v2) ==
      if |r1| != |r2| then |r1| < |r2| else if r1 != r2 then LexLess(r1, r2) else LexLess(v1, v2)
  {
  }

  /** Where two strings holding the different numbers a and b at n first differ, and what the runs there are. */
  lemma EmbeddedNumbers(v1: string, v2: string, n: nat, a: string, b: string) returns (c: nat)
    requires n + |a| <= |v1| && v1[n..n + |a|] == a && Canonical(a)
    requires n + |b| <= |v2| && v2[n..n + |b|] == b && Canonical(b)
    requires v1[..n] == v2[..n]
    requires n == 0 || !IsDigit(v1[n - 1])
    requires n + |a| == |v1| || !IsDigit(v1[n + |a|])
    requires n + |b| == |v2| || !IsDigit(v2[n + |b|])
    requires a != b
    ensures v1 != v2 && c == CommonPrefix(v1, v2)
    ensures c == |v1| ==> |a| < |b| && c < |v2|
    ensures c == |v2| ==> |b| < |a| && c < |v1|
    ensures c < |v1| && c < |v2| ==> InDigitRun(v1, c) || (IsDigit(v1[c]) && IsDigit(v2[c]))
    ensures c < |v1| && c < |v2| ==> RunStart(v1, c) == n && RunAt(v1, n) == a && RunAt(v2, n) == b
  {
    var k := FirstDifference(a, b);
    EmbeddedRun(v1, n, a);
    EmbeddedRun(v2, n, b);
    CommonPrefixEmbedded(v1, v2, n, a, b, k);
    c := n + k;
    assert RunStart(v1, c) == n by {
      EmbeddedDigits(v1, n, a);
      RunStartAt(v1, n, c);
    }
    if k < |a| && k < |b| {
      assert v1[c] == a[k] && v2[c] == b[k];
    } else if k == |a| {
      assert c < |v1| ==> v1[c - 1] == a[k - 1];
    } else {
      assert c < |v2| ==> v1[c - 1] == a[k - 1];
    }
  }

  /** v1 and v2 agree before n and hold the different numbers a and b from n on: the shorter number, or else the lesser, comes first. */
  lemma NumbersCompareAt(v1: string, v2: string, n: nat, a: string, b: string)
    requires n + |a| <= |v1| && v1[n..n + |a|] == a && Canonical(a)
    requires n + |b| <= |v2| && v2[n..n + |b|] == b && Canonical(b)
    requires v1[..n] == v2[..n]
    requires n == 0 || !IsDigit(v1[n - 1])
    requires n + |a| == |v1| || !IsDigit(v1[n + |a|])
    requires n + |b| == |v2| || !IsDigit(v2[n + |b|])
    requires a != b
    ensures VersionLessWhole(v1, v2) <==> |a| < |b| || (|a| == |b| && LexLess(a, b))
  {
    var c := EmbeddedNumbers(v1, v2, n, a, b);
    if c < |v1| && c < |v2| {
      WholeByRuns(v1, v2, c, n, a, b);
    }
  }

  /**
   * The promise "1.2" < "1.10", for every number: two strings that agree
   * up to a number and differ in it are ordered by the values of the two
   * numbers, whatever follows them.
   */
  lemma NumbersCompare(p: string, a: string, s1: string, b: string, s2: string)
    requires p == [] || !IsDigit(p[|p| - 1])
    requires Canonical(a) && Canonical(b) && Value(a) != Value(b)
    requires s1 == [] || !IsDigit(s1[0])
    requires s2 == [] || !IsDigit(s2[0])
    ensures VersionLessWhole(p + a + s1, p + b + s2) <==> Value(a) < Value(b)
  {
    var v1, v2 := p + a + s1, p + b + s2;
    var n := |p|;
    assert v1[n..n + |a|] == a && v2[n..n + |b|] == b;
    assert v1[..n] == p == v2[..n];
    assert n > 0 ==> v1[n - 1] == p[n - 1];
    assert n + |a| < |v1| ==> v1[n + |a|] == s1[0];
    assert n + |b| < |v2| ==> v2[n + |b|] == s2[0];
    NumbersCompareAt(v1, v2, n, a, b);
    NumericOrder(a, b);
  }
}

/**
 * `Versions`: a slice of strings viewed as a `sort.Interface` under the
 * version order. The Go type is a slice, so a `Versions` shares its strings
 * with the slice it was made from and `Swap` reorders them in place.
 */
module VersionSlice {
  import VersionSort

  /** The slice s with the elements at i and j exchanged. */
  function Swapped(s: seq<string>, i: nat, j: nat): (r: seq<string>)
    requires i < |s| && j < |s|
  {
    s[i := s[j]][j := s[i]]
  }

  /** Exchanging two elements exchanges exactly those positions and keeps every string. */
  lemma SwappedPermutes(s: seq<string>, i: nat, j: nat)
    requires i < |s| && j < |s|
    ensures |Swapped(s, i, j)| == |s|
    ensures Swapped(s, i, j)[i] == s[j] && Swapped(s, i, j)[j] == s[i]
    ensures forall k :: 0 <= k < |s| && k != i && k != j ==> Swapped(s, i, j)[k] == s[k]
    ensures multiset(Swapped(s, i, j)) == multiset(s)
  {
    if i != j {
      var t := s[i := s[j]];
      assert multiset(t) == multiset(s) - multiset{s[i]} + multiset{s[j]};
      assert t[j] == s[j];
      assert multiset(t[j := s[i]]) == multiset(t) - multiset{s[j]} + multiset{s[i]};
    }
  }

  /** Swapping the same pair twice restores the slice. */
  lemma SwappedTwice(s: seq<string>, i: nat, j: nat)
    requires i < |s| && j < |s|
    ensures Swapped(Swapped(s, i, j), i, j) == s
  {
  }

  class Versions {
    const items: array<string>

    /** `Versions(versions)`: a view of the slice, sharing its elements. */
    constructor (items: array<string>)
      ensures this.items == items
    {
      this.items := items;
    }

    /** `Len`: the number of strings. */
    method Len() returns (n: nat)
      ensures n == items.Length
    {
      n := items.Length;
    }

    /** `Less`: whether the i-th string sorts strictly before the j-th. */
    method Less(i: nat, j: nat) returns (less: bool)
      requires i < items.Length && j < items.Length
      ensures less == VersionSort.VersionLess(items[i], items[j])
    {
      less := VersionSort.Less(items[i], items[j]);
    }

    /** `Swap`: exchanges the i-th and j-th strings in place. */
    method Swap(i: nat, j: nat)
      requires i < items.Length && j < items.Length
      modifies items
      ensures items[..] == Swapped(old(items[..]), i, j)
    {
      items[i], items[j] := items[j], items[i];
    }
  }
}
