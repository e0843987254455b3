/**
  Characters and strings with the meaning Python gives them: `str.isspace`,
  `str.strip`, `str.upper` / `str.lower` (ASCII letters), `str.split(sep)`,
  `str.split()`, `str(int)` and `int(str)`.
*/
module Text {
  import opened Wrappers

  /** Python's `str.isspace` for one character. */
  predicate IsSpace(c: char) {
    || c == ' '
    || ('\t' <= c <= '\r')
    || ('\U{1C}' <= c <= '\U{1F}')
    || c == '\U{85}' || c == '\U{A0}' || c == '\U{1680}'
    || ('\U{2000}' <= c <= '\U{200A}')
    || c == '\U{2028}' || c == '\U{2029}' || c == '\U{202F}' || c == '\U{205F}' || c == '\U{3000}'
  }

  predicate IsDigit(c: char) {
    '0' <= c <= '9'
  }

  predicate AllDigits(s: string) {
    forall i :: 0 <= i < |s| ==> IsDigit(s[i])
  }

  function UpperChar(c: char): char {
    if 'a' <= c <= 'z' then (c as int - 32) as char else c
  }

  function LowerChar(c: char): char {
    if 'A' <= c <= 'Z' then (c as int + 32) as char else c
  }

  /** `s.upper()` on ASCII letters. */
  function Upper(s: string): string {
    seq(|s|, i requires 0 <= i < |s| => UpperChar(s[i]))
  }

  /** `s.lower()` on ASCII letters. */
  function Lower(s: string): string {
    seq(|s|, i requires 0 <= i < |s| => LowerChar(s[i]))
  }

  /** `s.lstrip()`: removes exactly the leading whitespace. */
  function TrimStart(s: string): (r: string)
    ensures |r| <= |s| && r == s[|s| - |r|..]
    ensures r == [] || !IsSpace(r[0])
    ensures forall i :: 0 <= i < |s| - |r| ==> IsSpace(s[i])
  {
    if s != [] && IsSpace(s[0]) then TrimStart(s[1..]) else s
  }

  /** `s.rstrip()`: removes exactly the trailing whitespace. */
  function TrimEnd(s: string): (r: string)
    ensures |r| <= |s| && r == s[..|r|]
    ensures r == [] || !IsSpace(r[|r| - 1])
    ensures forall i :: |r| <= i < |s| ==> IsSpace(s[i])
  {
    if s != [] && IsSpace(s[|s| - 1]) then TrimEnd(s[..|s| - 1]) else s
  }

  /** `s.strip()` */
  function Trim(s: string): string {
    TrimEnd(TrimStart(s))
  }

  /**
    `s.split(c)` generalised to every character `isSep` accepts: the pieces
    between consecutive separators, so n separators give n + 1 pieces.
  */
  function Split(s: string, isSep: char -> bool): (r: seq<string>)
    ensures |r| >= 1
  {
    if s == [] then [[]]
    else
      var rest := Split(s[1..], isSep);
      if isSep(s[0]) then [[]] + rest
      else [[s[0]] + rest[0]] + rest[1..]
  }

  /** No piece of a split holds a separator. */
  lemma {:induction false} SplitPiecesHaveNoSep(s: string, isSep: char -> bool)
    ensures forall k, i :: 0 <= k < |Split(s, isSep)| && 0 <= i < |Split(s, isSep)[k]| ==> !isSep(Split(s, isSep)[k][i])
  {
    if s != [] {
      SplitPiecesHaveNoSep(s[1..], isSep);
      var rest := Split(s[1..], isSep);
      if !isSep(s[0]) {
        var r := Split(s, isSep);
        forall k, i | 0 <= k < |r| && 0 <= i < |r[k]|
          ensures !isSep(r[k][i])
        {
          if k == 0 && i > 0 {
            assert r[0][i] == rest[0][i - 1];
          } else if k > 0 {
            assert r[k] == rest[k];
          }
        }
      }
    }
  }

  /** `c.join(xs)` */
  function Join(xs: seq<string>, c: char): string {
    if xs == [] then []
    else if |xs| == 1 then xs[0]
    else xs[0] + [c] + Join(xs[1..], c)
  }

  /** Drops the empty strings, keeping the order of the others. */
  function NonEmpty(xs: seq<string>): (r: seq<string>)
    ensures forall k :: 0 <= k < |r| ==> r[k] != []
    ensures forall x :: x in r <==> x in xs && x != []
  {
    if xs == [] then []
    else (if xs[0] == [] then [] else [xs[0]]) + NonEmpty(xs[1..])
  }

  /** `s.split()`: the maximal runs of non-whitespace characters. */
  function Words(s: string): seq<string> {
    NonEmpty(Split(s, IsSpace))
  }

  function DigitChar(d: int): char
    requires 0 <= d < 10
  {
    ('0' as int + d) as char
  }

  function DigitValue(c: char): int
    requires IsDigit(c)
  {
    c as int - '0' as int
  }

  /** Decimal digits of a natural number, most significant first, no leading zero. */
  function ShowNat(n: nat): (r: string)
    ensures r != [] && AllDigits(r)
  {
    if n < 10 then [DigitChar(n)] else ShowNat(n / 10) + [DigitChar(n % 10)]
  }

  /** `str(n)` for a Python int. */
  function ShowInt(n: int): string {
    if n < 0 then "-" + ShowNat(-n) else ShowNat(n)
  }

  function DigitsValue(s: string): nat
    requires AllDigits(s)
  {
    if s == [] then 0 else DigitsValue(s[..|s| - 1]) * 10 + DigitValue(s[|s| - 1])
  }

  /**
    `int(s)`: surrounding whitespace, an optional sign, then one or more ASCII
    digits; anything else raises, which is `None` here.
  */
  function ParseInt(s: string): Option<int> {
    var t := Trim(s);
    if t != [] && (t[0] == '-' || t[0] == '+') then
      if |t| > 1 && AllDigits(t[1..]) then
        var v: int := DigitsValue(t[1..]);
        Some(if t[0] == '-' then -v else v)
      else None
    else if t != [] && AllDigits(t) then Some(DigitsValue(t))
    else None
  }

  // ---------------------------------------------------------------------
  // Lemmas

  lemma {:induction false} DigitsValueShowNat(n: nat)
    ensures DigitsValue(ShowNat(n)) == n
  {
    if n >= 10 {
      var s := ShowNat(n / 10) + [DigitChar(n % 10)];
      assert s[..|s| - 1] == ShowNat(n / 10);
      DigitsValueShowNat(n / 10);
    }
  }

  /** The decimal text has no surrounding whitespace. */
  lemma ShowIntTrimmed(n: int)
    ensures Trim(ShowInt(n)) == ShowInt(n)
  {
    var s := ShowInt(n);
    assert !IsSpace(s[0]) && !IsSpace(s[|s| - 1]);
    assert TrimStart(s) == s;
  }

  /** `int(str(n)) == n`: reading back the decimal text gives the number. */
  lemma ParseShowInt(n: int)
    ensures ParseInt(ShowInt(n)) == Some(n)
  {
    var s := ShowInt(n);
    ShowIntTrimmed(n);
    if n < 0 {
      DigitsValueShowNat(-n);
      assert s[1..] == ShowNat(-n);
    } else {
      DigitsValueShowNat(n);
      assert IsDigit(s[0]);
    }
  }

  /** Distinct integers have distinct decimal texts. */
  lemma ShowIntInjective(a: int, b: int)
    requires ShowInt(a) == ShowInt(b)
    ensures a == b
  {
    ParseShowInt(a);
    ParseShowInt(b);
  }

  lemma {:induction false} SplitNoSeparator(a: string, isSep: char -> bool)
    requires forall i :: 0 <= i < |a| ==> !isSep(a[i])
    ensures Split(a, isSep) == [a]
  {
    if a != [] {
      SplitNoSeparator(a[1..], isSep);
      assert [a[0]] + a[1..] == a;
    }
  }

  lemma {:induction false} SplitPiece(a: string, c: char, rest: string, isSep: char -> bool)
    requires forall i :: 0 <= i < |a| ==> !isSep(a[i])
    requires isSep(c)
    ensures Split(a + [c] + rest, isSep) == [a] + Split(rest, isSep)
  {
    var s := a + [c] + rest;
    if a == [] {
      assert s[1..] == rest;
    } else {
      assert s[1..] == a[1..] + [c] + rest;
      SplitPiece(a[1..], c, rest, isSep);
      assert [a[0]] + a[1..] == a;
    }
  }

  /** Splitting a joined list on its separator gives the list back. */
  lemma {:induction false} SplitJoin(xs: seq<string>, c: char, isSep: char -> bool)
    requires |xs| >= 1 && isSep(c)
    requires forall k, i :: 0 <= k < |xs| && 0 <= i < |xs[k]| ==> !isSep(xs[k][i])
    ensures Split(Join(xs, c), isSep) == xs
  {
    if |xs| == 1 {
      SplitNoSeparator(xs[0], isSep);
    } else {
      SplitPiece(xs[0], c, Join(xs[1..], c), isSep);
      SplitJoin(xs[1..], c, isSep);
      assert [xs[0]] + xs[1..] == xs;
    }
  }

  lemma {:induction false} NonEmptyKeepsNonEmpty(xs: seq<string>)
    requires forall k :: 0 <= k < |xs| ==> xs[k] != []
    ensures NonEmpty(xs) == xs
  {
    if xs != [] {
      NonEmptyKeepsNonEmpty(xs[1..]);
      assert [xs[0]] + xs[1..] == xs;
    }
  }

  /** `" ".join(xs).split() == xs` for non-empty words without whitespace. */
  lemma WordsJoin(xs: seq<string>)
    requires forall k :: 0 <= k < |xs| ==> xs[k] != []
    requires forall k, i :: 0 <= k < |xs| && 0 <= i < |xs[k]| ==> !IsSpace(xs[k][i])
    ensures Words(Join(xs, ' ')) == xs
  {
    if xs != [] {
      SplitJoin(xs, ' ', IsSpace);
      NonEmptyKeepsNonEmpty(xs);
    } else {
      var pieces: seq<string> := [[]];
      assert Split(Join(xs, ' '), IsSpace) == pieces;
      assert pieces[1..] == [];
    }
  }

  /** `[s.strip() for s in xs if s.strip()]` */
  function TrimmedPieces(xs: seq<string>): (r: seq<string>)
    ensures forall k :: 0 <= k < |r| ==> r[k] != [] && Trim(r[k]) == r[k]
    ensures forall x :: x in r <==> x != [] && exists i :: 0 <= i < |xs| && Trim(xs[i]) == x
    ensures |r| <= |xs|
  {
    var r := MapNonEmpty(xs, Trim);
    MapNonEmptyMembers(xs, Trim);
    assert forall k :: 0 <= k < |r| ==> Trim(r[k]) == r[k] by {
      forall k | 0 <= k < |r|
        ensures Trim(r[k]) == r[k]
      {
        assert r[k] in r;
        var i :| 0 <= i < |xs| && Trim(xs[i]) == r[k];
        TrimTrimmed(xs[i]);
      }
    }
    r
  }

  /**
    The comprehension keeps the input order: the pieces of `a + b` are those
    of `a` followed by those of `b`.
  */
  lemma TrimmedPiecesAppend(a: seq<string>, b: seq<string>)
    ensures TrimmedPieces(a + b) == TrimmedPieces(a) + TrimmedPieces(b)
  {
    MapNonEmptyAppend(a, b, Trim);
  }

  /** One piece contributes its stripped text exactly when that is not empty. */
  lemma TrimmedPiecesOne(x: string)
    ensures TrimmedPieces([x]) == if Trim(x) == [] then [] else [Trim(x)]
  {
    MapNonEmptyOne(x, Trim);
  }

  /** `[f(s) for s in xs if f(s)]` */
  function MapNonEmpty(xs: seq<string>, f: string -> string): (r: seq<string>)
    ensures forall k :: 0 <= k < |r| ==> r[k] != []
    ensures |r| <= |xs|
  {
    if xs == [] then []
    else
      var n := f(xs[|xs| - 1]);
      MapNonEmpty(xs[..|xs| - 1], f) + (if n != [] then [n] else [])
  }

  /** What MapNonEmpty keeps: the non-empty images of the inputs. */
  lemma {:induction false} MapNonEmptyMembers(xs: seq<string>, f: string -> string)
    ensures forall x :: x in MapNonEmpty(xs, f) <==> x != [] && exists i :: 0 <= i < |xs| && f(xs[i]) == x
  {
    if xs != [] {
      var init := xs[..|xs| - 1];
      MapNonEmptyMembers(init, f);
      forall x
        ensures x in MapNonEmpty(xs, f) <==> x != [] && exists i :: 0 <= i < |xs| && f(xs[i]) == x
      {
        if x in MapNonEmpty(xs, f) {
          if x in MapNonEmpty(init, f) {
            var i :| 0 <= i < |init| && f(init[i]) == x;
            assert xs[i] == init[i];
          } else {
            assert f(xs[|xs| - 1]) == x;
          }
        }
        if x != [] && exists i :: 0 <= i < |xs| && f(xs[i]) == x {
          var i :| 0 <= i < |xs| && f(xs[i]) == x;
          if i < |init| {
            assert init[i] == xs[i];
          }
        }
      }
    }
  }

  /** `[f(s) for s in a + b if f(s)]` is the comprehension over `a` followed by the one over `b`. */
  lemma {:induction false} MapNonEmptyAppend(a: seq<string>, b: seq<string>, f: string -> string)
    ensures MapNonEmpty(a + b, f) == MapNonEmpty(a, f) + MapNonEmpty(b, f)
  {
    if b == [] {
      assert a + b == a;
    } else {
      var init, last := b[..|b| - 1], b[|b| - 1];
      assert (a + b)[..|a + b| - 1] == a + init;
      assert (a + b)[|a + b| - 1] == last;
      MapNonEmptyAppend(a, init, f);
    }
  }

  /** One input contributes its image exactly when that is non-empty. */
  lemma MapNonEmptyOne(x: string, f: string -> string)
    ensures MapNonEmpty([x], f) == if f(x) == [] then [] else [f(x)]
  {
    assert [x][..0] == [];
    assert MapNonEmpty([x], f) == MapNonEmpty([], f) + (if f(x) != [] then [f(x)] else []);
  }

  /** A map that sends every input to itself, non-empty, keeps the list as it is. */
  lemma {:induction false} MapNonEmptyFixed(xs: seq<string>, f: string -> string)
    requires forall k :: 0 <= k < |xs| ==> xs[k] != [] && f(xs[k]) == xs[k]
    ensures MapNonEmpty(xs, f) == xs
  {
    if xs != [] {
      MapNonEmptyFixed(xs[..|xs| - 1], f);
      assert xs[..|xs| - 1] + [xs[|xs| - 1]] == xs;
    }
  }

  /** Pieces that are already stripped and non-empty are kept as they are. */
  lemma TrimmedPiecesFixed(xs: seq<string>)
    requires forall k :: 0 <= k < |xs| ==> xs[k] != [] && Trim(xs[k]) == xs[k]
    ensures TrimmedPieces(xs) == xs
  {
    MapNonEmptyFixed(xs, Trim);
  }

  lemma SplitCons(x: char, t: string, isSep: char -> bool)
    ensures Split([x] + t, isSep) ==
              if isSep(x) then [[]] + Split(t, isSep)
              else [[x] + Split(t, isSep)[0]] + Split(t, isSep)[1..]
  {
    assert ([x] + t)[1..] == t;
  }

  lemma SplitAppendStep(x: char, t: string, c: char, b: string, isSep: char -> bool)
    requires Split(t + [c] + b, isSep) == Split(t, isSep) + Split(b, isSep)
    ensures Split([x] + t + [c] + b, isSep) == Split([x] + t, isSep) + Split(b, isSep)
  {
    assert [x] + t + [c] + b == [x] + (t + [c] + b);
    SplitCons(x, t + [c] + b, isSep);
    SplitCons(x, t, isSep);
    PieceCons(x, Split(t, isSep), Split(b, isSep));
  }

  /** Extending the first piece commutes with appending further pieces. */
  lemma PieceCons(x: char, ra: seq<string>, rb: seq<string>)
    requires |ra| >= 1
    ensures [[]] + (ra + rb) == ([[]] + ra) + rb
    ensures [[x] + (ra + rb)[0]] + (ra + rb)[1..] == ([[x] + ra[0]] + ra[1..]) + rb
  {
    assert (ra + rb)[1..] == ra[1..] + rb;
  }

  /** Splitting at a separator splits the text on either side of it. */
  lemma {:induction false} SplitAppend(a: string, c: char, b: string, isSep: char -> bool)
    requires isSep(c)
    ensures Split(a + [c] + b, isSep) == Split(a, isSep) + Split(b, isSep)
  {
    if a == [] {
      assert a + [c] + b == [c] + b;
      SplitCons(c, b, isSep);
    } else {
      SplitAppend(a[1..], c, b, isSep);
      SplitAppendStep(a[0], a[1..], c, b, isSep);
      assert [a[0]] + a[1..] == a;
    }
  }

  /** `s.strip().strip() == s.strip()` */
  lemma TrimTrimmed(s: string)
    ensures Trim(Trim(s)) == Trim(s)
  {
    var t := Trim(s);
    assert t == [] || (!IsSpace(t[0]) && !IsSpace(t[|t| - 1]));
    assert TrimStart(t) == t;
  }
}
