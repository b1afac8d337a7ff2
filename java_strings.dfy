/**
 * The java.lang.String operations the plugin relies on: split on a
 * one-character literal separator, prefix tests, and the case-insensitive
 * comparison of user input against upper-case enum constant names.
 */
module JavaStrings {

  /** Every piece of `s` between occurrences of `sep`, empty pieces included. */
  function Pieces(s: string, sep: char): (r: seq<string>)
    ensures |r| >= 1
    decreases |s|
  {
    if s == [] then [""] else ConsPieces(s[0], Pieces(s[1..], sep), sep)
  }

  /** The pieces of `[c] + t` from the pieces of `t`: a separator starts a new piece, any other character joins the first. */
  function ConsPieces(c: char, rest: seq<string>, sep: char): (r: seq<string>)
    requires |rest| >= 1
    ensures |r| >= 1
  {
    if c == sep then [""] + rest else [[c] + rest[0]] + rest[1..]
  }

  /** Removes the empty strings at the end of `r`. */
  function DropTrailingEmpty(r: seq<string>): (d: seq<string>)
    ensures |d| <= |r| && d == r[..|d|]
  {
    if r != [] && r[|r| - 1] == "" then DropTrailingEmpty(r[..|r| - 1]) else r
  }

  /**
   * String.split(regex) with a regex that is one literal character and the
   * implicit limit zero: when the separator does not occur the result is the
   * whole string (so "" gives [""]); otherwise the pieces with the trailing
   * empty ones removed (so ":" gives [] and "a::" gives ["a"]).
   */
  function Split(s: string, sep: char): seq<string>
  {
    if sep !in s then [s] else DropTrailingEmpty(Pieces(s, sep))
  }

  predicate StartsWith(s: string, prefix: string) { prefix <= s }

  /** Lower-casing of the ASCII capitals that enum constant names consist of. */
  function LowerAscii(c: char): char
  {
    if 'A' <= c <= 'Z' then (c as int + 32) as char else c
  }

  function ToLowerAscii(s: string): (r: string)
    ensures |r| == |s| && forall i :: 0 <= i < |s| ==> r[i] == LowerAscii(s[i])
  {
    if s == [] then [] else [LowerAscii(s[0])] + ToLowerAscii(s[1..])
  }

  predicate IsUpperName(name: string)
  {
    forall i :: 0 <= i < |name| ==> 'A' <= name[i] <= 'Z'
  }

  /**
   * Whether String.equalsIgnoreCase accepts character `c` against the ASCII
   * capital `u`: either case of the letter, and the four non-ASCII characters
   * whose Character.toUpperCase or Character.toLowerCase is an ASCII letter
   * (dotless i and dotted capital I for I, long s for S, the Kelvin sign for K).
   */
  predicate CharMatchesIgnoreCase(u: char, c: char)
  {
    c == u || c == LowerAscii(u)
    || (u == 'I' && (c == 'İ' || c == 'ı'))
    || (u == 'S' && c == 'ſ')
    || (u == 'K' && c == 'K')
  }

  /** `name.equalsIgnoreCase(s)` for an upper-case ASCII `name`. */
  predicate EqualsIgnoreCase(name: string, s: string)
  {
    |name| == |s| && forall i :: 0 <= i < |s| ==> CharMatchesIgnoreCase(name[i], s[i])
  }

  lemma LowerMatchesName(name: string)
    requires IsUpperName(name)
    ensures EqualsIgnoreCase(name, ToLowerAscii(name)) && EqualsIgnoreCase(name, name)
  {
  }

  // ---- facts about Pieces and Split ----

  lemma {:induction false} PiecesSeparatorFree(s: string, sep: char)
    ensures forall p :: p in Pieces(s, sep) ==> sep !in p
    decreases |s|
  {
    if s != [] {
      PiecesSeparatorFree(s[1..], sep);
    }
  }

  lemma {:induction false} PiecesWithoutSeparator(s: string, sep: char)
    requires sep !in s
    ensures Pieces(s, sep) == [s]
    decreases |s|
  {
    if s != [] {
      PiecesWithoutSeparator(s[1..], sep);
      assert [s[0]] + s[1..] == s;
    }
  }

  /** A separator ends the last piece of what precedes it. */
  lemma {:induction false} PiecesJoin(a: string, b: string, sep: char)
    ensures Pieces(a + [sep] + b, sep) == Pieces(a, sep) + Pieces(b, sep)
    decreases |a|
  {
    if a == [] {
      PiecesCons(sep, b, sep);
      assert a + [sep] + b == [sep] + b;
    } else {
      PiecesJoin(a[1..], b, sep);
      PiecesJoinStep(a, b, sep);
    }
  }

  lemma PiecesJoinStep(a: string, b: string, sep: char)
    requires a != [] && Pieces(a[1..] + [sep] + b, sep) == Pieces(a[1..], sep) + Pieces(b, sep)
    ensures Pieces(a + [sep] + b, sep) == Pieces(a, sep) + Pieces(b, sep)
  {
    var t := a[1..] + [sep] + b;
    assert a + [sep] + b == [a[0]] + t;
    assert a == [a[0]] + a[1..];
    ConsJoin(a[0], a[1..], t, Pieces(b, sep), sep);
  }

  /** Prepending a character to two strings whose pieces differ by a suffix keeps that difference. */
  lemma ConsJoin(c: char, u: string, t: string, suffix: seq<string>, sep: char)
    requires Pieces(t, sep) == Pieces(u, sep) + suffix
    ensures Pieces([c] + t, sep) == Pieces([c] + u, sep) + suffix
  {
    PiecesCons(c, u, sep);
    PiecesCons(c, t, sep);
    ConsPiecesAppend(c, Pieces(u, sep), suffix, sep);
  }

  lemma ConsPiecesAppend(c: char, rest: seq<string>, suffix: seq<string>, sep: char)
    requires |rest| >= 1
    ensures ConsPieces(c, rest + suffix, sep) == ConsPieces(c, rest, sep) + suffix
  {
    if c != sep {
      assert (rest + suffix)[1..] == rest[1..] + suffix;
    }
  }


  /** Pieces of a string with a first character, as the definition reads. */
  lemma PiecesCons(c: char, t: string, sep: char)
    ensures Pieces([c] + t, sep) == ConsPieces(c, Pieces(t, sep), sep)
  {
    assert ([c] + t)[1..] == t;
  }


  /** Text without the separator in front of `s` joins the first piece of `s`. */
  lemma {:induction false} PiecesPrepend(c: string, s: string, sep: char)
    requires sep !in c
    ensures Pieces(c + s, sep) == [c + Pieces(s, sep)[0]] + Pieces(s, sep)[1..]
    decreases |c|
  {
    if c != [] {
      PiecesPrepend(c[1..], s, sep);
      assert (c + s)[0] == c[0] && c[0] != sep;
      assert (c + s)[1..] == c[1..] + s;
      var rest := Pieces(c[1..] + s, sep);
      assert Pieces(c + s, sep) == [[c[0]] + rest[0]] + rest[1..];
      assert rest[0] == c[1..] + Pieces(s, sep)[0];
      assert rest[1..] == Pieces(s, sep)[1..];
      assert [c[0]] + (c[1..] + Pieces(s, sep)[0]) == c + Pieces(s, sep)[0];
      assert [c[0]] + rest[0] == c + Pieces(s, sep)[0];
    } else {
      assert c + s == s;
      assert c + Pieces(s, sep)[0] == Pieces(s, sep)[0];
      assert Pieces(s, sep) == [Pieces(s, sep)[0]] + Pieces(s, sep)[1..];
    }
  }

  /** What DropTrailingEmpty keeps: a prefix ending in a non-empty piece, with only empty pieces after it. */
  lemma {:induction false} DropTrailingEmptyShape(r: seq<string>)
    ensures var d := DropTrailingEmpty(r);
      d == r[..|d|] && (d == [] || d[|d| - 1] != "")
      && forall j :: |d| <= j < |r| ==> r[j] == ""
    decreases |r|
  {
    if r != [] && r[|r| - 1] == "" {
      DropTrailingEmptyShape(r[..|r| - 1]);
    }
  }

  /** The shape of DropTrailingEmptyShape determines the result. */
  lemma {:induction false} DropTrailingEmptyUnique(r: seq<string>, k: nat)
    requires k <= |r| && (k == 0 || r[k - 1] != "")
    requires forall j :: k <= j < |r| ==> r[j] == ""
    ensures DropTrailingEmpty(r) == r[..k]
    decreases |r|
  {
    if r != [] && r[|r| - 1] == "" {
      assert k < |r|;
      DropTrailingEmptyUnique(r[..|r| - 1], k);
      assert r[..|r| - 1][..k] == r[..k];
    } else if r != [] {
      assert k == |r|;
    }
  }

  lemma SplitSeparatorFree(s: string, sep: char)
    ensures forall p :: p in Split(s, sep) ==> sep !in p
  {
    if sep in s {
      PiecesSeparatorFree(s, sep);
      DropTrailingEmptyShape(Pieces(s, sep));
      var d := DropTrailingEmpty(Pieces(s, sep));
      forall p | p in d ensures sep !in p {
        var i :| 0 <= i < |d| && d[i] == p;
        assert d[i] == Pieces(s, sep)[..|d|][i] == Pieces(s, sep)[i];
        assert Pieces(s, sep)[i] in Pieces(s, sep);
      }
    }
  }

  /**
   * Text without the separator written in front of `s` joins the first piece
   * of `s`, provided `s` splits into at least one piece.
   */
  lemma SplitPrepend(c: string, s: string, sep: char)
    requires sep !in c && Split(s, sep) != []
    ensures Split(c + s, sep) == [c + Split(s, sep)[0]] + Split(s, sep)[1..]
  {
    if sep !in s {
      assert sep !in c + s;
    } else {
      assert sep in c + s by {
        var i :| 0 <= i < |s| && s[i] == sep;
        assert (c + s)[|c| + i] == sep;
      }
      PiecesPrepend(c, s, sep);
      DropAfterPrepend(Pieces(s, sep), c);
    }
  }

  /** Text prepended to the first piece survives the removal of trailing empty pieces. */
  lemma {:induction false} DropAfterPrepend(p: seq<string>, c: string)
    requires |p| >= 1 && DropTrailingEmpty(p) != []
    ensures var d := DropTrailingEmpty(p);
      DropTrailingEmpty([c + p[0]] + p[1..]) == [c + d[0]] + d[1..]
    decreases |p|
  {
    var q := [c + p[0]] + p[1..];
    if |p| == 1 {
      assert q == [c + p[0]];
    } else if p[|p| - 1] == "" {
      var init := p[..|p| - 1];
      assert DropTrailingEmpty(p) == DropTrailingEmpty(init);
      assert q[|q| - 1] == "" && q[..|q| - 1] == [c + init[0]] + init[1..];
      DropAfterPrepend(init, c);
    } else {
      assert q[|q| - 1] == p[|p| - 1];
    }
  }




  /** The split of text whose separator-free parts are all non-empty. */
  lemma SplitTwo(a: string, b: string, sep: char)
    requires sep !in a && sep !in b && b != ""
    ensures Split(a + [sep] + b, sep) == [a, b]
  {
    PiecesJoin(a, b, sep);
    PiecesWithoutSeparator(a, sep);
    PiecesWithoutSeparator(b, sep);
    assert (a + [sep] + b)[|a|] == sep;
    DropTrailingEmptyUnique([a, b], 2);
  }

  lemma SplitThree(a: string, b: string, c: string, sep: char)
    requires sep !in a && sep !in b && sep !in c && b != "" && c != ""
    ensures Split(a + [sep] + b + [sep] + c, sep) == [a, b, c]
  {
    var ab := a + [sep] + b;
    var whole := ab + [sep] + c;
    assert a + [sep] + b + [sep] + c == whole;
    assert Pieces(ab, sep) == [a, b] by {
      PiecesJoin(a, b, sep);
      PiecesWithoutSeparator(a, sep);
      PiecesWithoutSeparator(b, sep);
    }
    assert Pieces(whole, sep) == [a, b, c] by {
      PiecesJoin(ab, c, sep);
      PiecesWithoutSeparator(c, sep);
    }
    assert whole[|ab|] == sep;
    DropTrailingEmptyUnique([a, b, c], 3);
  }


  /** The parts joined with the separator between them. */
  function JoinWith(parts: seq<string>, sep: char): string
    requires parts != []
  {
    if |parts| == 1 then parts[0] else JoinWith(parts[..|parts| - 1], sep) + [sep] + parts[|parts| - 1]
  }

  /** Joining separator-free parts and cutting at the separators gives the parts back. */
  lemma {:induction false} PiecesOfJoin(parts: seq<string>, sep: char)
    requires parts != [] && forall i :: 0 <= i < |parts| ==> sep !in parts[i]
    ensures Pieces(JoinWith(parts, sep), sep) == parts
    decreases |parts|
  {
    if |parts| == 1 {
      PiecesWithoutSeparator(parts[0], sep);
    } else {
      var init := parts[..|parts| - 1];
      PiecesOfJoin(init, sep);
      PiecesJoin(JoinWith(init, sep), parts[|parts| - 1], sep);
      PiecesWithoutSeparator(parts[|parts| - 1], sep);
      assert init + [parts[|parts| - 1]] == parts;
    }
  }

  lemma SplitWhole(s: string, sep: char)
    requires sep !in s
    ensures Split(s, sep) == [s]
  {
  }

  // ---- UTF-16 ----

  predicate IsHighSurrogate(u: int) { 0xD800 <= u < 0xDC00 }

  predicate IsLowSurrogate(u: int) { 0xDC00 <= u < 0xE000 }

  /**
   * The UTF-16 code units of one character, as a Java String holds it:
   * the character itself in the Basic Multilingual Plane, a surrogate pair
   * above it.
   */
  function CharUnits(ch: char): (u: seq<int>)
    ensures |u| == (if ch as int < 0x1_0000 then 1 else 2)
    ensures forall k :: 0 <= k < |u| ==> 0 <= u[k] < 0x1_0000
    ensures |u| == 1 ==> u[0] == ch as int && !IsHighSurrogate(u[0])
    ensures |u| == 2 ==> IsHighSurrogate(u[0]) && IsLowSurrogate(u[1])
    ensures |u| == 2 ==> ch as int == 0x1_0000 + (u[0] - 0xD800) * 0x400 + (u[1] - 0xDC00)
  {
    if ch as int < 0x1_0000 then [ch as int]
    else
      var v := ch as int - 0x1_0000;
      [0xD800 + v / 0x400, 0xDC00 + v % 0x400]
  }

  /** The UTF-16 code units of a string. */
  function Utf16(s: string): (u: seq<int>)
    ensures |s| <= |u| <= 2 * |s|
  {
    if s == [] then [] else CharUnits(s[0]) + Utf16(s[1..])
  }

  /** The first character's units decide the character, so what follows is the rest's encoding. */
  lemma CharUnitsPrefix(x: char, y: char, p: seq<int>, q: seq<int>)
    requires CharUnits(x) + p == CharUnits(y) + q
    ensures x == y && p == q
  {
    var a, b := CharUnits(x), CharUnits(y);
    assert a[0] == (a + p)[0] == (b + q)[0] == b[0];
    if |a| == 2 {
      assert a[1] == (a + p)[1] == (b + q)[1] == b[1];
      assert x as int == y as int;
    }
    assert a == b;
    assert p == (a + p)[|a|..] == (b + q)[|b|..] == q;
  }

  /** Different strings have different encodings. */
  lemma {:induction false} Utf16Injective(s: string, t: string)
    ensures Utf16(s) == Utf16(t) ==> s == t
    decreases |s|
  {
    if s != [] && t != [] && Utf16(s) == Utf16(t) {
      CharUnitsPrefix(s[0], t[0], Utf16(s[1..]), Utf16(t[1..]));
      Utf16Injective(s[1..], t[1..]);
      assert s == [s[0]] + s[1..] && t == [t[0]] + t[1..];
    }
  }

  // ---- String.compareTo ----

  /**
   * The comparison on code units: the difference of the first differing
   * units, or the difference of the lengths when one is a prefix of the
   * other.
   */
  function CompareUnits(u: seq<int>, w: seq<int>): (r: int)
    ensures r == 0 <==> u == w
    decreases |u|
  {
    if u == [] || w == [] then |u| - |w|
    else if u[0] != w[0] then u[0] - w[0]
    else
      var r := CompareUnits(u[1..], w[1..]);
      assert r == 0 ==> u == [u[0]] + u[1..] == [w[0]] + w[1..] == w;
      r
  }

  /**
   * String.compareTo: CompareUnits on the UTF-16 code units, so a character
   * above the Basic Multilingual Plane compares by its high surrogate.
   */
  function CompareTo(s: string, t: string): (r: int)
    ensures r == 0 <==> s == t
  {
    Utf16Injective(s, t);
    CompareUnits(Utf16(s), Utf16(t))
  }

  /** U+FF21 sorts after U+1F600, whose high surrogate is 0xD83D. */
  lemma CompareToSurrogateExample()
    ensures CompareTo("\U{FF21}", "\U{1F600}") == 0xFF21 - 0xD83D
  {
  }

  lemma {:induction false} CompareUnitsAntisymmetric(u: seq<int>, w: seq<int>)
    ensures CompareUnits(w, u) == -CompareUnits(u, w)
    decreases |u|
  {
    if u != [] && w != [] && u[0] == w[0] {
      CompareUnitsAntisymmetric(u[1..], w[1..]);
    }
  }

  lemma {:induction false} CompareUnitsTransitive(a: seq<int>, b: seq<int>, c: seq<int>)
    requires CompareUnits(a, b) < 0 && CompareUnits(b, c) < 0
    ensures CompareUnits(a, c) < 0
    decreases |a|
  {
    if a != [] && b != [] && c != [] && a[0] == b[0] && b[0] == c[0] {
      CompareUnitsTransitive(a[1..], b[1..], c[1..]);
    }
  }

  lemma CompareToAntisymmetric(s: string, t: string)
    ensures CompareTo(t, s) == -CompareTo(s, t)
  {
    CompareUnitsAntisymmetric(Utf16(s), Utf16(t));
  }

  lemma CompareToTransitive(a: string, b: string, c: string)
    requires CompareTo(a, b) < 0 && CompareTo(b, c) < 0
    ensures CompareTo(a, c) < 0
  {
    CompareUnitsTransitive(Utf16(a), Utf16(b), Utf16(c));
  }
}
