/**
 * How the plugin picks its WorldGuard adapter: the first version-looking part
 * of WorldGuard's version string, compared level by level against 7.0.0 and
 * 6.1.3 with the plugin's own version comparator.
 */
module WorldGuardVersions {
  import opened Wrappers
  import opened JavaStrings

  predicate IsDigit(c: char) { '0' <= c <= '9' }

  predicate IsDigits(s: string) { s != [] && forall i :: 0 <= i < |s| ==> IsDigit(s[i]) }

  /** The whole string matches \d+(\.\d+)* : dot-separated, non-empty runs of ASCII digits. */
  predicate IsVersion(s: string)
  {
    forall p :: p in Pieces(s, '.') ==> IsDigits(p)
  }

  /** v.split("\\.") */
  function Levels(v: string): seq<string>
  {
    Split(v, '.')
  }

  /** A version has no empty level, so split keeps every piece. */
  lemma LevelsOfVersion(v: string)
    requires IsVersion(v)
    ensures Levels(v) == Pieces(v, '.')
    ensures forall i :: 0 <= i < |Levels(v)| ==> IsDigits(Levels(v)[i])
  {
    var p := Pieces(v, '.');
    assert p[|p| - 1] in p;
    if '.' in v {
      DropTrailingEmptyUnique(p, |p|);
    } else {
      PiecesWithoutSeparator(v, '.');
    }
  }

  function DigitValue(c: char): nat requires IsDigit(c) { c as nat - '0' as nat }

  /** The decimal value of a digit string. */
  function DigitsValue(s: string): nat
    requires forall i :: 0 <= i < |s| ==> IsDigit(s[i])
  {
    if s == [] then 0 else DigitsValue(s[..|s| - 1]) * 10 + DigitValue(s[|s| - 1])
  }

  /** The value of "." followed by the digits of s, exactly (Double.valueOf before rounding). */
  function FractionValue(s: string): real
    requires forall i :: 0 <= i < |s| ==> IsDigit(s[i])
  {
    if s == [] then 0.0 else (DigitValue(s[0]) as real + FractionValue(s[1..])) / 10.0
  }

  const IntMax: int := 0x7fff_ffff

  datatype VersionError = IllegalArgument | NumberFormat

  /** Integer.valueOf / Integer.parseInt of a digit string: NumberFormatException above Integer.MAX_VALUE. */
  function IntValue(s: string): Result<int, VersionError>
    requires IsDigits(s)
  {
    if DigitsValue(s) <= IntMax then Ok(DigitsValue(s)) else Err(NumberFormat)
  }

  function Sign(x: real): int { if x < 0.0 then -1 else if x > 0.0 then 1 else 0 }

  /**
   * One level present in both versions: a non-major level with a leading zero
   * on either side compares as decimal fractions (".01" < ".1"), otherwise as integers.
   */
  function LevelCompare(i: nat, l1: string, l2: string): Result<int, VersionError>
    requires IsDigits(l1) && IsDigits(l2)
  {
    if i > 0 && (l1[0] == '0' || l2[0] == '0') then
      Ok(Sign(FractionValue(l1) - FractionValue(l2)))
    else
      match IntValue(l1)
      case Err(e) => Err(e)
      case Ok(n1) =>
        match IntValue(l2)
        case Err(e) => Err(e)
        case Ok(n2) => Ok(if n1 < n2 then -1 else if n1 > n2 then 1 else 0)
  }

  predicate AllDigits(levels: seq<string>) { forall i :: 0 <= i < |levels| ==> IsDigits(levels[i]) }

  /** The comparator's loop from level i on. */
  function CompareFrom(levels1: seq<string>, levels2: seq<string>, i: nat): (r: Result<int, VersionError>)
    requires AllDigits(levels1) && AllDigits(levels2)
    ensures r.Ok? ==> -1 <= r.value <= 1
    decreases |levels1| + |levels2| - i
  {
    if i >= |levels1| && i >= |levels2| then Ok(0)
    else if i < |levels1| && i < |levels2| then
      match LevelCompare(i, levels1[i], levels2[i])
      case Err(e) => Err(e)
      case Ok(d) => if d != 0 then Ok(d) else CompareFrom(levels1, levels2, i + 1)
    else if i >= |levels1| then
      match IntValue(levels2[i])
      case Err(e) => Err(e)
      case Ok(n) => if n != 0 then Ok(-1) else CompareFrom(levels1, levels2, i + 1)
    else
      match IntValue(levels1[i])
      case Err(e) => Err(e)
      case Ok(n) => if n != 0 then Ok(1) else CompareFrom(levels1, levels2, i + 1)
  }

  /** VersionComparator.compare */
  function Compare(v1: string, v2: string): Result<int, VersionError>
  {
    if !IsVersion(v1) || !IsVersion(v2) then Err(IllegalArgument)
    else
      LevelsOfVersion(v1);
      LevelsOfVersion(v2);
      CompareFrom(Levels(v1), Levels(v2), 0)
  }

  // ---- properties of the comparator ----

  lemma {:induction false} CompareFromAntisymmetric(l1: seq<string>, l2: seq<string>, i: nat)
    requires AllDigits(l1) && AllDigits(l2)
    ensures CompareFrom(l1, l2, i).Err? <==> CompareFrom(l2, l1, i).Err?
    ensures CompareFrom(l1, l2, i).Ok? ==> CompareFrom(l2, l1, i).value == -CompareFrom(l1, l2, i).value
    decreases |l1| + |l2| - i
  {
    if i < |l1| || i < |l2| {
      CompareFromAntisymmetric(l1, l2, i + 1);
    }
  }

  /** Swapping the arguments negates the result, and fails alike. */
  lemma CompareAntisymmetric(v1: string, v2: string)
    ensures Compare(v1, v2).Err? <==> Compare(v2, v1).Err?
    ensures Compare(v1, v2).Ok? ==> Compare(v2, v1).value == -Compare(v1, v2).value
  {
    if IsVersion(v1) && IsVersion(v2) {
      LevelsOfVersion(v1);
      LevelsOfVersion(v2);
      CompareFromAntisymmetric(Levels(v1), Levels(v2), 0);
    }
  }

  predicate FitsInt(levels: seq<string>) requires AllDigits(levels)
  {
    forall i :: 0 <= i < |levels| ==> DigitsValue(levels[i]) <= IntMax
  }

  lemma {:induction false} CompareFromReflexive(l: seq<string>, i: nat)
    requires AllDigits(l) && FitsInt(l)
    ensures CompareFrom(l, l, i) == Ok(0)
    decreases |l| - i
  {
    if i < |l| {
      CompareFromReflexive(l, i + 1);
    }
  }

  /** A version whose levels fit in an int equals itself. */
  lemma CompareReflexive(v: string)
    requires IsVersion(v)
    ensures AllDigits(Levels(v))
    ensures FitsInt(Levels(v)) ==> Compare(v, v) == Ok(0)
  {
    LevelsOfVersion(v);
    if FitsInt(Levels(v)) {
      CompareFromReflexive(Levels(v), 0);
    }
  }

  /** The level "0": a digit run worth zero as an integer and as a fraction. */
  lemma ZeroLevel()
    ensures IsDigits("0") && DigitsValue("0") == 0 && FractionValue("0") == 0.0
  {
    assert "0"[..0] == "" && "0"[1..] == "";
  }

  /** n levels "0". */
  function Zeros(n: nat): (z: seq<string>)
    ensures |z| == n && forall k :: 0 <= k < n ==> z[k] == "0"
    ensures AllDigits(z) && FitsInt(z)
  {
    ZeroLevel();
    seq(n, _ => "0")
  }

  /** A level list padded with zero levels. */
  lemma PaddedDigits(l: seq<string>, k: nat)
    requires AllDigits(l)
    ensures AllDigits(l + Zeros(k))
    ensures FitsInt(l) ==> FitsInt(l + Zeros(k))
  {
    var p := l + Zeros(k);
    forall j | |l| <= j < |p| ensures p[j] == "0" {
      assert p[j] == Zeros(k)[j - |l|];
    }
    ZeroLevel();
  }

  /** n trailing ".0" levels. */
  function ZeroLevels(n: nat): string
  {
    if n == 0 then "" else ZeroLevels(n - 1) + ".0"
  }

  /** One more ".0" adds one level "0". */
  lemma AppendZeroLevel(v: string)
    requires IsVersion(v)
    ensures IsVersion(v + ".0") && Levels(v + ".0") == Levels(v) + ["0"]
  {
    LevelsOfVersion(v);
    var w := v + ".0";
    PiecesJoin(v, "0", '.');
    assert w == v + ['.'] + "0";
    PiecesWithoutSeparator("0", '.');
    assert Pieces(w, '.') == Pieces(v, '.') + ["0"];
    assert IsVersion(w) by {
      forall p | p in Pieces(w, '.') ensures IsDigits(p) {
        if p != "0" { assert p in Pieces(v, '.'); }
      }
    }
    LevelsOfVersion(w);
  }

  lemma {:induction false} LevelsWithZeros(v: string, n: nat)
    requires IsVersion(v)
    ensures IsVersion(v + ZeroLevels(n)) && Levels(v + ZeroLevels(n)) == Levels(v) + Zeros(n)
  {
    if n == 0 {
      assert v + ZeroLevels(n) == v;
    } else {
      LevelsWithZeros(v, n - 1);
      var w := v + ZeroLevels(n - 1);
      assert v + ZeroLevels(n) == w + ".0";
      AppendZeroLevel(w);
      assert Zeros(n - 1) + ["0"] == Zeros(n);
    }
  }

  /** A digit run is worth zero as an integer exactly when all its digits are '0'. */
  lemma {:induction false} DigitsValueZero(s: string)
    requires forall k :: 0 <= k < |s| ==> IsDigit(s[k])
    ensures DigitsValue(s) == 0 <==> forall k :: 0 <= k < |s| ==> s[k] == '0'
    decreases |s|
  {
    if s != [] {
      var init := s[..|s| - 1];
      DigitsValueZero(init);
      assert forall k :: 0 <= k < |init| ==> init[k] == s[k];
    }
  }

  /** A digit run is worth zero as a fraction exactly when all its digits are '0'. */
  lemma {:induction false} FractionValueZero(s: string)
    requires forall k :: 0 <= k < |s| ==> IsDigit(s[k])
    ensures FractionValue(s) == 0.0 <==> forall k :: 0 <= k < |s| ==> s[k] == '0'
    decreases |s|
  {
    if s != [] {
      var rest := s[1..];
      FractionValueZero(rest);
      FractionBelowOne(rest);
      assert forall k :: 1 <= k < |s| ==> s[k] == rest[k - 1];
    }
  }

  /**
   * A missing level compares as a level "0" would: below the major level
   * "0" is a fraction of zero, and the major level "0" an integer zero.
   */
  lemma MissingLevel(i: nat, l: string)
    requires IsDigits(l) && DigitsValue(l) <= IntMax
    ensures LevelCompare(i, "0", l) == Ok(if DigitsValue(l) != 0 then -1 else 0)
  {
    ZeroLevel();
    DigitsValueZero(l);
    FractionValueZero(l);
    FractionBelowOne(l);
  }

  /** Padding a level list with zero levels changes no comparison with a list that fits in an int. */
  lemma {:induction false} CompareFromPadded(l1: seq<string>, l2: seq<string>, k: nat, i: nat)
    requires AllDigits(l1) && AllDigits(l2) && FitsInt(l2)
    ensures AllDigits(l1 + Zeros(k))
    ensures CompareFrom(l1 + Zeros(k), l2, i) == CompareFrom(l1, l2, i)
    decreases |l1| + k + |l2| - i
  {
    PaddedDigits(l1, k);
    var p := l1 + Zeros(k);
    if i < |p| || i < |l2| {
      CompareFromPadded(l1, l2, k, i + 1);
      if i < |l1| {
        assert p[i] == l1[i];
      } else if i < |p| {
        ZeroLevel();
        if i < |l2| {
          MissingLevel(i, l2[i]);
        }
      }
    }
  }

  /** Both sides padded with zero levels compare as they did unpadded. */
  lemma CompareFromPaddedBoth(l1: seq<string>, l2: seq<string>, k1: nat, k2: nat)
    requires AllDigits(l1) && AllDigits(l2) && FitsInt(l1) && FitsInt(l2)
    ensures AllDigits(l1 + Zeros(k1)) && AllDigits(l2 + Zeros(k2))
    ensures CompareFrom(l1 + Zeros(k1), l2 + Zeros(k2), 0) == CompareFrom(l1, l2, 0)
  {
    PaddedDigits(l1, k1);
    PaddedDigits(l2, k2);
    var p2 := l2 + Zeros(k2);
    CompareFromPadded(l1, p2, k1, 0);
    CompareFromPadded(l2, l1, k2, 0);
    CompareFromAntisymmetric(l1, p2, 0);
    CompareFromAntisymmetric(l2, l1, 0);
    CompareFromFits(l1, l2, 0);
    CompareFromFits(l1, p2, 0);
  }

  /** Any number of extra "0" levels changes nothing, on either side. */
  lemma CompareFromTrailingZeros(l: seq<string>, k: nat)
    requires AllDigits(l) && FitsInt(l)
    ensures AllDigits(l + Zeros(k))
    ensures CompareFrom(l, l + Zeros(k), 0) == Ok(0) && CompareFrom(l + Zeros(k), l, 0) == Ok(0)
  {
    CompareFromPadded(l, l, k, 0);
    CompareFromReflexive(l, 0);
    CompareFromAntisymmetric(l + Zeros(k), l, 0);
  }

  /** Trailing ".0" levels, any number of them, change nothing (1.3.1 equals 1.3.1.0.0). */
  lemma TrailingZeroLevels(v: string, n: nat)
    requires IsVersion(v)
    ensures AllDigits(Levels(v))
    ensures FitsInt(Levels(v)) ==> Compare(v, v + ZeroLevels(n)) == Ok(0) && Compare(v + ZeroLevels(n), v) == Ok(0)
  {
    LevelsOfVersion(v);
    LevelsWithZeros(v, n);
    LevelsOfVersion(v + ZeroLevels(n));
    if FitsInt(Levels(v)) {
      CompareFromTrailingZeros(Levels(v), n);
    }
  }

  /** The levels of a shared prefix that fits in an int compare equal. */
  lemma {:induction false} CompareFromSharedPrefix(l: seq<string>, t: seq<string>, i: nat)
    requires AllDigits(l) && AllDigits(t) && FitsInt(l) && i <= |l|
    ensures AllDigits(l + t)
    ensures CompareFrom(l, l + t, i) == CompareFrom(l, l + t, |l|)
    decreases |l| - i
  {
    assert AllDigits(l + t) by {
      forall k | 0 <= k < |l + t| ensures IsDigits((l + t)[k]) {
        if k >= |l| { assert (l + t)[k] == t[k - |l|]; }
      }
    }
    if i < |l| {
      assert (l + t)[i] == l[i];
      LevelCompareByKey(i, l[i], l[i]);
      CompareFromSharedPrefix(l, t, i + 1);
    }
  }

  /** Past the end of the shorter list, zero levels are skipped and the first non-zero one decides. */
  lemma {:induction false} CompareFromExtraLevels(l: seq<string>, m: seq<string>, i: nat, j: nat)
    requires AllDigits(l) && AllDigits(m) && |l| <= i <= j < |m|
    requires DigitsValue(m[j]) != 0 && forall k :: i <= k < j ==> DigitsValue(m[k]) == 0
    ensures CompareFrom(l, m, i) == if DigitsValue(m[j]) <= IntMax then Ok(-1) else Err(NumberFormat)
    decreases j - i
  {
    if i < j {
      CompareFromExtraLevels(l, m, i + 1, j);
    }
  }

  /**
   * Extra levels: the longer version is the greater exactly by its first
   * non-zero extra level (1.3 < 1.3.0.2), unless that level overflows an int,
   * when the comparison throws a NumberFormatException.
   */
  lemma ExtraNonZeroLevel(l: seq<string>, t: seq<string>, j: nat)
    requires AllDigits(l) && AllDigits(t) && FitsInt(l)
    requires j < |t| && DigitsValue(t[j]) != 0 && forall k :: 0 <= k < j ==> DigitsValue(t[k]) == 0
    ensures AllDigits(l + t)
    ensures CompareFrom(l, l + t, 0) == if DigitsValue(t[j]) <= IntMax then Ok(-1) else Err(NumberFormat)
    ensures CompareFrom(l + t, l, 0) == if DigitsValue(t[j]) <= IntMax then Ok(1) else Err(NumberFormat)
  {
    CompareFromSharedPrefix(l, t, 0);
    var m := l + t;
    assert forall k :: |l| <= k < |m| ==> m[k] == t[k - |l|];
    CompareFromExtraLevels(l, m, |l|, |l| + j);
    CompareFromAntisymmetric(l, m, 0);
    CompareFromNeverIllegal(m, l, 0);
    var r := CompareFrom(m, l, 0);
    if DigitsValue(t[j]) <= IntMax {
      assert r.Ok? && r.value == 1;
    } else {
      assert r.Err? && r.error != IllegalArgument;
    }
  }

  /**
   * Where a level sorts at position i: below the major level, a level with
   * a leading zero sorts by its fraction, under every other level, which
   * sorts by its integer value.
   */
  function LevelKey(i: nat, l: string): real
    requires IsDigits(l)
  {
    if i > 0 && l[0] == '0' then FractionValue(l) else DigitsValue(l) as real + 1.0
  }

  /** Two levels that fit in an int compare by their keys. */
  lemma LevelCompareByKey(i: nat, l1: string, l2: string)
    requires IsDigits(l1) && IsDigits(l2) && DigitsValue(l1) <= IntMax && DigitsValue(l2) <= IntMax
    ensures LevelCompare(i, l1, l2) == Ok(Sign(LevelKey(i, l1) - LevelKey(i, l2)))
  {
    FractionBelowOne(l1);
    FractionBelowOne(l2);
    if i > 0 && l1[0] == '0' && l2[0] != '0' {
      LeadingZeroSortsFirst(i, l1, l2);
    } else if i > 0 && l2[0] == '0' && l1[0] != '0' {
      LeadingZeroSortsFirst(i, l2, l1);
    }
  }

  /** Level lists that fit in an int always compare. */
  lemma {:induction false} CompareFromFits(l1: seq<string>, l2: seq<string>, i: nat)
    requires AllDigits(l1) && AllDigits(l2) && FitsInt(l1) && FitsInt(l2)
    ensures CompareFrom(l1, l2, i).Ok?
    decreases |l1| + |l2| - i
  {
    if i < |l1| || i < |l2| {
      CompareFromFits(l1, l2, i + 1);
      if i < |l1| && i < |l2| {
        LevelCompareByKey(i, l1[i], l2[i]);
      }
    }
  }

  /** Transitivity for lists of one length: the loop is a lexicographic order on the level keys. */
  lemma {:induction false} CompareFromTransitiveSameLength(a: seq<string>, b: seq<string>, c: seq<string>, i: nat)
    requires AllDigits(a) && AllDigits(b) && AllDigits(c) && FitsInt(a) && FitsInt(b) && FitsInt(c)
    requires |a| == |b| == |c|
    ensures CompareFrom(a, b, i).Ok? && CompareFrom(b, c, i).Ok? && CompareFrom(a, c, i).Ok?
    ensures CompareFrom(a, b, i).value <= 0 && CompareFrom(b, c, i).value <= 0 ==>
      CompareFrom(a, c, i).value <= 0
      && (CompareFrom(a, c, i).value == 0 ==> CompareFrom(a, b, i).value == 0 && CompareFrom(b, c, i).value == 0)
    decreases |a| - i
  {
    CompareFromFits(a, b, i);
    CompareFromFits(b, c, i);
    CompareFromFits(a, c, i);
    if i < |a| {
      CompareFromTransitiveSameLength(a, b, c, i + 1);
      LevelCompareByKey(i, a[i], b[i]);
      LevelCompareByKey(i, b[i], c[i]);
      LevelCompareByKey(i, a[i], c[i]);
    }
  }

  /**
   * The comparator is transitive on level lists that fit in an int: at or
   * below, then at or below, is at or below, and equal only when both steps
   * were equal.
   */
  lemma CompareFromTransitive(a: seq<string>, b: seq<string>, c: seq<string>)
    requires AllDigits(a) && AllDigits(b) && AllDigits(c) && FitsInt(a) && FitsInt(b) && FitsInt(c)
    ensures CompareFrom(a, b, 0).Ok? && CompareFrom(b, c, 0).Ok? && CompareFrom(a, c, 0).Ok?
    ensures CompareFrom(a, b, 0).value <= 0 && CompareFrom(b, c, 0).value <= 0 ==>
      CompareFrom(a, c, 0).value <= 0
      && (CompareFrom(a, c, 0).value == 0 ==> CompareFrom(a, b, 0).value == 0 && CompareFrom(b, c, 0).value == 0)
  {
    var n := if |a| >= |b| && |a| >= |c| then |a| else if |b| >= |c| then |b| else |c|;
    var ka, kb, kc := n - |a|, n - |b|, n - |c|;
    PaddedDigits(a, ka);
    PaddedDigits(b, kb);
    PaddedDigits(c, kc);
    var pa, pb, pc := a + Zeros(ka), b + Zeros(kb), c + Zeros(kc);
    CompareFromPaddedBoth(a, b, ka, kb);
    CompareFromPaddedBoth(b, c, kb, kc);
    CompareFromPaddedBoth(a, c, ka, kc);
    CompareFromTransitiveSameLength(pa, pb, pc, 0);
    var x, y, z := CompareFrom(a, b, 0), CompareFrom(b, c, 0), CompareFrom(a, c, 0);
    assert x == CompareFrom(pa, pb, 0);
    assert y == CompareFrom(pb, pc, 0);
    assert z == CompareFrom(pa, pc, 0);
  }

  /** A version the comparator accepts whose levels all fit in an int. */
  predicate Comparable(v: string)
  {
    IsVersion(v) && AllDigits(Levels(v)) && FitsInt(Levels(v))
  }

  /**
   * Together with CompareAntisymmetric and CompareReflexive: on versions
   * whose levels fit in an int the comparator is a total preorder.
   */
  lemma CompareTransitive(u: string, v: string, w: string)
    requires Comparable(u) && Comparable(v) && Comparable(w)
    ensures Compare(u, v).Ok? && Compare(v, w).Ok? && Compare(u, w).Ok?
    ensures Compare(u, v).value <= 0 && Compare(v, w).value <= 0 ==>
      Compare(u, w).value <= 0
      && (Compare(u, w).value == 0 ==> Compare(u, v).value == 0 && Compare(v, w).value == 0)
    ensures Compare(u, v).value == 0 && Compare(v, w).value == 0 ==> Compare(u, w).value == 0
  {
    var a, b, c := Levels(u), Levels(v), Levels(w);
    CompareFromTransitive(a, b, c);
    CompareFromTransitive(c, b, a);
    CompareFromAntisymmetric(a, b, 0);
    CompareFromAntisymmetric(b, c, 0);
    CompareFromAntisymmetric(a, c, 0);
  }

  lemma {:induction false} FractionBelowOne(s: string)
    requires forall i :: 0 <= i < |s| ==> IsDigit(s[i])
    ensures 0.0 <= FractionValue(s) < 1.0
    decreases |s|
  {
    if s != [] {
      FractionBelowOne(s[1..]);
    }
  }

  /**
   * Below the major level, a level written with a leading zero sorts before
   * every level written without one: ".0x" is under 0.1 while ".y" with
   * y not starting in 0 is at least 0.1.
   */
  lemma LeadingZeroSortsFirst(i: nat, zeroLed: string, other: string)
    requires i > 0 && IsDigits(zeroLed) && IsDigits(other)
    requires zeroLed[0] == '0' && other[0] != '0'
    ensures LevelCompare(i, zeroLed, other) == Ok(-1)
  {
    FractionBelowOne(zeroLed[1..]);
    FractionBelowOne(other[1..]);
    assert FractionValue(zeroLed) == FractionValue(zeroLed[1..]) / 10.0;
    assert DigitValue(other[0]) >= 1;
  }

  /** A version written out from its levels, for the examples below. */
  lemma VersionOfLevels(v: string, levels: seq<string>)
    requires levels != [] && AllDigits(levels) && v == JoinWith(levels, '.')
    ensures IsVersion(v) && Levels(v) == levels
  {
    forall i | 0 <= i < |levels| ensures '.' !in levels[i] {
      assert IsDigits(levels[i]);
    }
    PiecesOfJoin(levels, '.');
    LevelsOfVersion(v);
  }

  /** "a.b.c" splits into its three levels. */
  lemma ThreeLevels(a: string, b: string, c: string)
    requires IsDigits(a) && IsDigits(b) && IsDigits(c)
    ensures IsVersion(a + "." + b + "." + c) && Levels(a + "." + b + "." + c) == [a, b, c]
  {
    assert JoinWith([a, b, c], '.') == a + "." + b + "." + c by {
      assert [a, b, c][..2] == [a, b] && [a, b][..1] == [a];
      assert JoinWith([a, b], '.') == a + "." + b;
    }
    VersionOfLevels(a + "." + b + "." + c, [a, b, c]);
  }

  /** "a.b" splits into its two levels. */
  lemma TwoLevels(a: string, b: string)
    requires IsDigits(a) && IsDigits(b)
    ensures IsVersion(a + "." + b) && Levels(a + "." + b) == [a, b]
  {
    assert JoinWith([a, b], '.') == a + "." + b by {
      assert [a, b][..1] == [a];
    }
    VersionOfLevels(a + "." + b, [a, b]);
  }

  /** The examples written beside the comparator's branches. */
  lemma LeadingZeroExample()
    ensures Compare("1.3.01", "1.3.1") == Ok(-1)
  {
    ThreeLevels("1", "3", "01");
    ThreeLevels("1", "3", "1");
    assert "1" + "." + "3" + "." + "01" == "1.3.01";
    assert "1" + "." + "3" + "." + "1" == "1.3.1";
    LeadingZeroLevels();
  }

  lemma LeadingZeroLevels()
    ensures CompareFrom(["1", "3", "01"], ["1", "3", "1"], 0) == Ok(-1)
  {
    var l1, l2 := ["1", "3", "01"], ["1", "3", "1"];
    assert FractionValue("01") == 0.01 && FractionValue("1") == 0.1;
    assert CompareFrom(l1, l2, 2) == Ok(-1);
    assert DigitsValue("3") == 3;
    assert CompareFrom(l1, l2, 1) == Ok(-1);
    assert DigitsValue("1") == 1;
  }

  lemma IntegerLevelExample()
    ensures Compare("1.3.10", "1.3.1") == Ok(1)
  {
    ThreeLevels("1", "3", "10");
    ThreeLevels("1", "3", "1");
    assert "1" + "." + "3" + "." + "10" == "1.3.10";
    assert "1" + "." + "3" + "." + "1" == "1.3.1";
    IntegerLevels();
  }

  lemma IntegerLevels()
    ensures CompareFrom(["1", "3", "10"], ["1", "3", "1"], 0) == Ok(1)
  {
    var l1, l2 := ["1", "3", "10"], ["1", "3", "1"];
    assert DigitsValue("10") == 10 && DigitsValue("1") == 1;
    assert CompareFrom(l1, l2, 2) == Ok(1);
    assert DigitsValue("3") == 3;
    assert CompareFrom(l1, l2, 1) == Ok(1);
  }

  lemma ExtraLevelExample()
    ensures Compare("1.3", "1.3.2") == Ok(-1)
    ensures Compare("1.3.2", "1.3") == Ok(1)
  {
    TwoLevels("1", "3");
    ThreeLevels("1", "3", "2");
    assert "1" + "." + "3" == "1.3";
    assert "1" + "." + "3" + "." + "2" == "1.3.2";
    ExtraLevels();
  }

  lemma ExtraLevels()
    ensures CompareFrom(["1", "3"], ["1", "3", "2"], 0) == Ok(-1)
    ensures CompareFrom(["1", "3", "2"], ["1", "3"], 0) == Ok(1)
  {
    var l1, l2 := ["1", "3"], ["1", "3", "2"];
    assert DigitsValue("2") == 2;
    assert CompareFrom(l1, l2, 2) == Ok(-1) && CompareFrom(l2, l1, 2) == Ok(1);
    assert DigitsValue("3") == 3 && DigitsValue("1") == 1;
    assert CompareFrom(l1, l2, 1) == Ok(-1) && CompareFrom(l2, l1, 1) == Ok(1);
  }


  /**
   * Integer.valueOf gives up above Integer.MAX_VALUE: a version whose major
   * level exceeds it cannot be compared with any version at all.
   */
  lemma MajorLevelOverflow(v: string, w: string)
    requires IsVersion(v) && IsVersion(w)
    ensures Levels(v) != [] && AllDigits(Levels(v))
    ensures DigitsValue(Levels(v)[0]) > IntMax ==> Compare(v, w) == Err(NumberFormat)
  {
    LevelsOfVersion(v);
    LevelsOfVersion(w);
  }

  // ---- WorldGuardAdapter.getInstance ----

  /** End of the run of digits starting at j. */
  function DigitsEnd(s: string, j: nat): (e: nat)
    requires j <= |s|
    ensures j <= e <= |s| && (e == |s| || !IsDigit(s[e]))
    ensures forall k :: j <= k < e ==> IsDigit(s[k])
    decreases |s| - j
  {
    if j < |s| && IsDigit(s[j]) then DigitsEnd(s, j + 1) else j
  }

  /** Greedy (\.\d+)* from j on: each '.' that is followed by a digit takes its digit run. */
  function MatchEnd(s: string, j: nat): (e: nat)
    requires j <= |s|
    ensures j <= e <= |s|
    decreases |s| - j
  {
    if j + 1 < |s| && s[j] == '.' && IsDigit(s[j + 1]) then MatchEnd(s, DigitsEnd(s, j + 1)) else j
  }

  function FirstDigit(s: string, j: nat): (r: Option<nat>)
    requires j <= |s|
    ensures r.Some? ==> j <= r.value < |s| && IsDigit(s[r.value])
    ensures forall k :: j <= k < |s| && (r.None? || k < r.value) ==> !IsDigit(s[k])
    decreases |s| - j
  {
    if j == |s| then None else if IsDigit(s[j]) then Some(j) else FirstDigit(s, j + 1)
  }

  /**
   * VERSION_PATTERN.matcher(s).find() and group(): the leftmost match of
   * \d+(\.\d+)*, starting at the first ASCII digit and taken greedily.
   */
  function FindVersion(s: string): Option<string>
  {
    match FirstDigit(s, 0)
    case None => None
    case Some(i) => Some(s[i..MatchEnd(s, DigitsEnd(s, i))])
  }

  lemma DigitsAreVersion(d: string)
    requires IsDigits(d)
    ensures IsVersion(d) && Pieces(d, '.') == [d]
  {
    assert '.' !in d by {
      forall k | 0 <= k < |d| ensures d[k] != '.' { assert IsDigit(d[k]); }
    }
    PiecesWithoutSeparator(d, '.');
  }

  /** Every stretch MatchEnd adds to a version keeps it a version. */
  lemma {:induction false} MatchEndIsVersion(s: string, i: nat, j: nat)
    requires i <= j <= |s| && IsVersion(s[i..j]) && (j == |s| || !IsDigit(s[j]))
    ensures IsVersion(s[i..MatchEnd(s, j)])
    ensures MatchEnd(s, j) == |s| || !IsDigit(s[MatchEnd(s, j)])
    ensures MatchEnd(s, j) + 1 < |s| ==> !(s[MatchEnd(s, j)] == '.' && IsDigit(s[MatchEnd(s, j) + 1]))
    decreases |s| - j
  {
    if j + 1 < |s| && s[j] == '.' && IsDigit(s[j + 1]) {
      var e := DigitsEnd(s, j + 1);
      var run := s[j + 1..e];
      assert IsDigits(run) by {
        forall k | 0 <= k < |run| ensures IsDigit(run[k]) { assert run[k] == s[j + 1 + k]; }
      }
      DigitsAreVersion(run);
      assert s[i..e] == s[i..j] + ['.'] + run;
      PiecesJoin(s[i..j], run, '.');
      assert IsVersion(s[i..e]) by {
        forall p | p in Pieces(s[i..e], '.') ensures IsDigits(p) {
          if p != run { assert p in Pieces(s[i..j], '.'); }
        }
      }
      MatchEndIsVersion(s, i, e);
    }
  }

  /**
   * What find() returns: nothing exactly when the string holds no ASCII
   * digit; otherwise a version starting at the first digit, which the
   * match could not have extended by another digit or another ".digits".
   */
  lemma FindVersionMatches(s: string)
    ensures FindVersion(s).None? <==> forall k :: 0 <= k < |s| ==> !IsDigit(s[k])
    ensures FindVersion(s).Some? ==> IsVersion(FindVersion(s).value)
    ensures FindVersion(s).Some? ==> exists i, e :: (0 <= i < e <= |s| && FindVersion(s).value == s[i..e]
      && (forall k :: 0 <= k < i ==> !IsDigit(s[k]))
      && (e == |s| || !IsDigit(s[e]))
      && (e + 1 < |s| ==> !(s[e] == '.' && IsDigit(s[e + 1]))))
  {
    match FirstDigit(s, 0)
    case None =>
    case Some(i) =>
      var d := DigitsEnd(s, i);
      var run := s[i..d];
      assert IsDigits(run) by {
        assert d > i;
        forall k | 0 <= k < |run| ensures IsDigit(run[k]) { assert run[k] == s[i + k]; }
      }
      DigitsAreVersion(run);
      MatchEndIsVersion(s, i, d);
      assert FindVersion(s).value == s[i..MatchEnd(s, d)];
  }

  datatype Adapter = V7 | V6_1_3 | Legacy

  datatype AdapterError = Unsupported | Comparison(cause: VersionError)

  /**
   * The adapter for a WorldGuard version string: WorldGuardAdapterV7 from
   * 7.0.0 on, WorldGuardAdapterV6_1_3 from 6.1.3 on, the legacy adapter
   * below; UnsupportedOperationException when no version is found, and the
   * comparator's exception passed on.
   */
  function SelectAdapter(worldGuardVersion: string): Result<Adapter, AdapterError>
  {
    match FindVersion(worldGuardVersion)
    case None => Err(Unsupported)
    case Some(v) =>
      match Compare(v, "7.0.0")
      case Err(e) => Err(Comparison(e))
      case Ok(c7) =>
        if c7 >= 0 then Ok(V7)
        else
          match Compare(v, "6.1.3")
          case Err(e) => Err(Comparison(e))
          case Ok(c6) => if c6 >= 0 then Ok(V6_1_3) else Ok(Legacy)
  }

  /** Levels that are all "0" from i on never make a version compare below them. */
  lemma {:induction false} CompareFromAgainstZeros(l1: seq<string>, l2: seq<string>, i: nat)
    requires AllDigits(l1) && AllDigits(l2) && i > 0
    requires forall k :: i <= k < |l2| ==> l2[k] == "0"
    ensures CompareFrom(l1, l2, i).Ok? ==> CompareFrom(l1, l2, i).value >= 0
    decreases |l1| + |l2| - i
  {
    assert DigitsValue("0") == 0 by { assert "0"[..0] == ""; }
    assert FractionValue("0") == 0.0 by { assert "0"[1..] == ""; }
    if i < |l1| && i < |l2| {
      FractionBelowOne(l1[i]);
      CompareFromAgainstZeros(l1, l2, i + 1);
    } else if i < |l1| || i < |l2| {
      CompareFromAgainstZeros(l1, l2, i + 1);
    }
  }

  lemma SevenLevels()
    ensures IsVersion("7.0.0") && Levels("7.0.0") == ["7", "0", "0"]
    ensures DigitsValue("7") == 7
  {
    VersionOfLevels("7.0.0", ["7", "0", "0"]);
    assert "7"[..0] == "";
  }

  /**
   * Against 7.0.0 only the major level decides: a version compares at or
   * above 7.0.0 exactly when its major level is at least 7.
   */
  lemma AtLeastSevenByMajor(v: string)
    requires IsVersion(v)
    ensures Levels(v) != [] && AllDigits(Levels(v))
    ensures Compare(v, "7.0.0").Ok? ==> (Compare(v, "7.0.0").value >= 0 <==> DigitsValue(Levels(v)[0]) >= 7)
  {
    LevelsOfVersion(v);
    SevenLevels();
    var l1, l2 := Levels(v), Levels("7.0.0");
    CompareFromAgainstZeros(l1, l2, 1);
  }

  /** Comparing a found version with either threshold never meets IllegalArgumentException. */
  lemma ThresholdsAreVersions(v: string)
    requires IsVersion(v)
    ensures Compare(v, "7.0.0") != Err(IllegalArgument) && Compare(v, "6.1.3") != Err(IllegalArgument)
  {
    SevenLevels();
    VersionOfLevels("6.1.3", ["6", "1", "3"]);
    LevelsOfVersion(v);
    LevelsOfVersion("7.0.0");
    LevelsOfVersion("6.1.3");
    assert Compare(v, "7.0.0") == CompareFrom(Levels(v), Levels("7.0.0"), 0);
    assert Compare(v, "6.1.3") == CompareFrom(Levels(v), Levels("6.1.3"), 0);
    CompareFromNeverIllegal(Levels(v), Levels("7.0.0"), 0);
    CompareFromNeverIllegal(Levels(v), Levels("6.1.3"), 0);
  }

  lemma {:induction false} CompareFromNeverIllegal(l1: seq<string>, l2: seq<string>, i: nat)
    requires AllDigits(l1) && AllDigits(l2)
    ensures CompareFrom(l1, l2, i) != Err(IllegalArgument)
    decreases |l1| + |l2| - i
  {
    if i < |l1| || i < |l2| {
      CompareFromNeverIllegal(l1, l2, i + 1);
    }
  }

  /**
   * The adapter choice never meets the comparator's IllegalArgumentException,
   * fails as unsupported exactly when the string holds no ASCII digit, and
   * picks the V7 adapter exactly for a major version of 7 or more.
   */
  lemma SelectAdapterSound(worldGuardVersion: string)
    ensures SelectAdapter(worldGuardVersion) != Err(Comparison(IllegalArgument))
    ensures SelectAdapter(worldGuardVersion) == Err(Unsupported)
      <==> forall k :: 0 <= k < |worldGuardVersion| ==> !IsDigit(worldGuardVersion[k])
    ensures FindVersion(worldGuardVersion).Some? ==> IsVersion(FindVersion(worldGuardVersion).value)
    ensures SelectAdapter(worldGuardVersion).Ok? ==>
      var v := FindVersion(worldGuardVersion).value;
      Levels(v) != [] && AllDigits(Levels(v)) &&
      (SelectAdapter(worldGuardVersion) == Ok(V7) <==> DigitsValue(Levels(v)[0]) >= 7)
  {
    FindVersionMatches(worldGuardVersion);
    match FindVersion(worldGuardVersion)
    case None =>
    case Some(v) =>
      ThresholdsAreVersions(v);
      AtLeastSevenByMajor(v);
  }
}
