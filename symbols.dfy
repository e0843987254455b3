/**
  Trading-pair symbols: normalisation (`btc/usdt` becomes `BTCUSDT`),
  order-preserving de-duplication, and the split of requested symbols into
  those the exchange lists and those it does not.
*/
module Symbols {
  import opened Text

  predicate IsSymbolChar(c: char) {
    ('A' <= c <= 'Z') || ('0' <= c <= '9')
  }

  /** Text made of `[A-Z0-9]` only. */
  predicate IsSymbol(s: string) {
    forall i :: 0 <= i < |s| ==> IsSymbolChar(s[i])
  }

  /** `re.sub('[^A-Z0-9]', '', s)` */
  function KeepSymbolChars(s: string): (r: string)
    ensures IsSymbol(r)
    ensures |r| <= |s|
    ensures forall c :: c in r <==> c in s && IsSymbolChar(c)
  {
    if s == [] then []
    else
      assert s == [s[0]] + s[1..];
      (if IsSymbolChar(s[0]) then [s[0]] else []) + KeepSymbolChars(s[1..])
  }

  /**
    `normalize_symbol` of the trading core: empty stays empty, otherwise
    upper-case, strip, and drop every character outside `[A-Z0-9]`.
  */
  function Normalize(sym: string): (r: string)
    ensures IsSymbol(r)
    ensures sym == [] ==> r == []
  {
    if sym == [] then [] else KeepSymbolChars(Trim(Upper(sym)))
  }

  /** `normalize_symbol` of the chat front end: the same steps, stripping before upper-casing. */
  function FrontEndNormalize(sym: string): (r: string)
    ensures IsSymbol(r)
    ensures sym == [] ==> r == []
  {
    if sym == [] then [] else KeepSymbolChars(Upper(Trim(sym)))
  }

  /**
    Filtering distributes over concatenation, and one character is kept
    exactly when it is in `[A-Z0-9]`: together these fix the kept
    characters, their order and their multiplicity.
  */
  lemma {:induction false} KeepSymbolCharsAppend(a: string, b: string)
    ensures KeepSymbolChars(a + b) == KeepSymbolChars(a) + KeepSymbolChars(b)
  {
    if a != [] {
      assert (a + b)[0] == a[0];
      assert (a + b)[1..] == a[1..] + b;
      KeepSymbolCharsAppend(a[1..], b);
    } else {
      assert a + b == b;
    }
  }

  lemma KeepSymbolCharsOne(c: char)
    ensures KeepSymbolChars([c]) == if IsSymbolChar(c) then [c] else []
  {
    assert [c][1..] == [];
  }

  lemma UpperExample()
    ensures Upper("btc/usdt") == "BTC/USDT"
  {
    var u: string := "BTC/USDT";
    assert forall i :: 0 <= i < |u| ==> Upper("btc/usdt")[i] == u[i];
  }

  lemma TrimExample()
    ensures Trim("BTC/USDT") == "BTC/USDT"
  {
    var u: string := "BTC/USDT";
    assert !IsSpace(u[0]) && !IsSpace(u[|u| - 1]);
    assert TrimStart(u) == u;
  }

  /** Two symbols around a separator keep both symbols and lose the separator. */
  lemma KeepAroundSeparator(a: string, c: char, b: string)
    requires IsSymbol(a) && IsSymbol(b) && !IsSymbolChar(c)
    ensures KeepSymbolChars(a + [c] + b) == a + b
  {
    var ac := a + [c];
    KeepFixesSymbol(a);
    KeepSymbolCharsOne(c);
    KeepSymbolCharsAppend(a, [c]);
    assert KeepSymbolChars(ac) == a;
    KeepFixesSymbol(b);
    KeepSymbolCharsAppend(ac, b);
    assert KeepSymbolChars(ac + b) == a + b;
  }

  lemma KeepExample()
    ensures KeepSymbolChars("BTC/USDT") == "BTCUSDT"
  {
    var a: string := "BTC";
    var b: string := "USDT";
    assert "BTC/USDT" == a + ['/'] + b;
    assert a + b == "BTCUSDT";
    KeepAroundSeparator(a, '/', b);
  }

  /** `normalize_symbol("btc/usdt") == "BTCUSDT"`. */
  lemma NormalizeExample()
    ensures Normalize("btc/usdt") == "BTCUSDT"
  {
    UpperExample();
    TrimExample();
    KeepExample();
  }

  // ---------------------------------------------------------------------
  // Normalisation lemmas

  lemma {:induction false} KeepFixesSymbol(s: string)
    requires IsSymbol(s)
    ensures KeepSymbolChars(s) == s
  {
    if s != [] {
      KeepFixesSymbol(s[1..]);
      assert [s[0]] + s[1..] == s;
    }
  }

  lemma UpperFixesSymbol(s: string)
    requires IsSymbol(s)
    ensures Upper(s) == s
  {
    assert forall i :: 0 <= i < |s| ==> Upper(s)[i] == s[i];
  }

  lemma TrimFixesSymbol(s: string)
    requires IsSymbol(s)
    ensures Trim(s) == s
  {
    assert TrimStart(s) == s;
  }

  /** Text already in `[A-Z0-9]*` is its own normal form. */
  lemma NormalizeFixesSymbol(s: string)
    requires IsSymbol(s)
    ensures Normalize(s) == s
  {
    if s != [] {
      UpperFixesSymbol(s);
      TrimFixesSymbol(s);
      KeepFixesSymbol(s);
    }
  }

  /** Normalising twice is normalising once. */
  lemma NormalizeIdempotent(s: string)
    ensures Normalize(Normalize(s)) == Normalize(s)
  {
    NormalizeFixesSymbol(Normalize(s));
  }

  /** Upper-casing never turns a space into a non-space or back. */
  lemma UpperCharSpace(c: char)
    ensures IsSpace(UpperChar(c)) <==> IsSpace(c)
  {
  }

  lemma UpperDrop(s: string)
    requires s != []
    ensures Upper(s[1..]) == Upper(s)[1..]
    ensures Upper(s)[0] == UpperChar(s[0])
  {
  }

  lemma UpperTake(s: string)
    requires s != []
    ensures Upper(s[..|s| - 1]) == Upper(s)[..|s| - 1]
    ensures Upper(s)[|s| - 1] == UpperChar(s[|s| - 1])
  {
  }

  lemma {:induction false} UpperTrimStart(s: string)
    ensures Upper(TrimStart(s)) == TrimStart(Upper(s))
  {
    if s != [] {
      UpperDrop(s);
      UpperCharSpace(s[0]);
      if IsSpace(s[0]) {
        UpperTrimStart(s[1..]);
      }
    }
  }

  lemma {:induction false} UpperTrimEnd(s: string)
    ensures Upper(TrimEnd(s)) == TrimEnd(Upper(s))
  {
    if s != [] {
      UpperTake(s);
      UpperCharSpace(s[|s| - 1]);
      if IsSpace(s[|s| - 1]) {
        UpperTrimEnd(s[..|s| - 1]);
      }
    }
  }

  /** Stripping before or after upper-casing gives the same symbol. */
  lemma FrontEndNormalizeAgrees(sym: string)
    ensures FrontEndNormalize(sym) == Normalize(sym)
  {
    UpperTrimStart(sym);
    UpperTrimEnd(TrimStart(sym));
  }

  // ---------------------------------------------------------------------
  // Order-preserving de-duplication

  ghost predicate Distinct<T>(s: seq<T>) {
    forall i, j :: 0 <= i < j < |s| ==> s[i] != s[j]
  }

  /** Position of the first occurrence of `x`. */
  ghost function FirstIndex<T>(s: seq<T>, x: T): (k: nat)
    requires x in s
    ensures k < |s| && s[k] == x && x !in s[..k]
  {
    if s[0] == x then 0
    else
      var k := 1 + FirstIndex(s[1..], x);
      assert s[..k] == [s[0]] + s[1..][..k - 1];
      k
  }

  lemma FirstIndexUnique<T>(s: seq<T>, x: T, k: nat)
    requires k < |s| && s[k] == x && x !in s[..k]
    ensures FirstIndex(s, x) == k
  {
    var f := FirstIndex(s, x);
    assert forall j :: 0 <= j < k ==> s[..k][j] == s[j];
    assert forall j :: 0 <= j < f ==> s[..f][j] == s[j];
  }

  lemma FirstIndexExtend<T>(p: seq<T>, y: T, x: T)
    requires x in p
    ensures FirstIndex(p + [y], x) == FirstIndex(p, x)
  {
    var k := FirstIndex(p, x);
    assert (p + [y])[..k] == p[..k];
    FirstIndexUnique(p + [y], x, k);
  }

  lemma FirstIndexNew<T>(p: seq<T>, x: T)
    requires x !in p
    ensures FirstIndex(p + [x], x) == |p|
  {
    assert (p + [x])[..|p|] == p;
    FirstIndexUnique(p + [x], x, |p|);
  }

  /** The distinct elements of `s`, each kept at its first occurrence (the `uniq` helper). */
  function Dedup<T(==,!new)>(s: seq<T>): (r: seq<T>)
    ensures Distinct(r)
    ensures forall x :: x in r <==> x in s
    decreases |s|
  {
    if s == [] then []
    else
      var init := s[..|s| - 1];
      var d := Dedup(init);
      assert s == init + [s[|s| - 1]];
      if s[|s| - 1] in d then d else d + [s[|s| - 1]]
  }

  /** Dedup lists the elements in the order of their first occurrence in the input. */
  lemma {:induction false} DedupKeepsFirstOccurrenceOrder<T(!new)>(s: seq<T>)
    ensures forall i, j :: 0 <= i < j < |Dedup(s)| ==> FirstIndex(s, Dedup(s)[i]) < FirstIndex(s, Dedup(s)[j])
  {
    if s != [] {
      var init := s[..|s| - 1];
      var last := s[|s| - 1];
      assert s == init + [last];
      var d := Dedup(init);
      DedupKeepsFirstOccurrenceOrder(init);
      forall y | y in d
        ensures FirstIndex(s, y) == FirstIndex(init, y)
      {
        FirstIndexExtend(init, last, y);
      }
      if last !in d {
        FirstIndexNew(init, last);
        assert Dedup(s) == d + [last];
      }
    }
  }

  /** `uniq(seq)`: a loop with a `seen` set. */
  method Uniq<T(==,!new)>(s: seq<T>) returns (out: seq<T>)
    ensures out == Dedup(s)
  {
    out := [];
    var seen: set<T> := {};
    for i := 0 to |s|
      invariant out == Dedup(s[..i])
      invariant forall x :: x in seen <==> x in out
    {
      var x := s[i];
      assert s[..i + 1][..i] == s[..i];
      if x !in seen {
        seen := seen + {x};
        out := out + [x];
      }
    }
    assert s[..|s|] == s;
  }

  // ---------------------------------------------------------------------
  // Validation against the exchange's symbol list

  /** `[normalize_symbol(s) for s in xs if normalize_symbol(s)]`: the non-empty normal forms, in input order. */
  function NormalizeAll(xs: seq<string>): (r: seq<string>)
    ensures forall x :: x in r <==> x != [] && exists i :: 0 <= i < |xs| && Normalize(xs[i]) == x
  {
    MapNonEmptyMembers(xs, Normalize);
    MapNonEmpty(xs, Normalize)
  }

  /**
    The normal forms keep the input order: the list of `a + b` is that of
    `a` followed by that of `b`.
  */
  lemma NormalizeAllAppend(a: seq<string>, b: seq<string>)
    ensures NormalizeAll(a + b) == NormalizeAll(a) + NormalizeAll(b)
  {
    MapNonEmptyAppend(a, b, Normalize);
  }

  /** One input contributes its normal form exactly when that is non-empty. */
  lemma NormalizeAllOne(x: string)
    ensures NormalizeAll([x]) == if Normalize(x) == [] then [] else [Normalize(x)]
  {
    MapNonEmptyOne(x, Normalize);
  }

  /** Normalising an already normalised list gives back the same list. */
  lemma NormalizeAllTwice(xs: seq<string>)
    ensures NormalizeAll(NormalizeAll(xs)) == NormalizeAll(xs)
  {
    var n := NormalizeAll(xs);
    NormalizeAllSymbols(xs);
    forall k | 0 <= k < |n|
      ensures n[k] != [] && Normalize(n[k]) == n[k]
    {
      assert n[k] in n;
      NormalizeFixesSymbol(n[k]);
    }
    MapNonEmptyFixed(n, Normalize);
  }

  /** Every kept normal form is a non-empty `[A-Z0-9]` symbol. */
  lemma NormalizeAllSymbols(xs: seq<string>)
    ensures forall x :: x in NormalizeAll(xs) ==> x != [] && IsSymbol(x)
  {
    forall x | x in NormalizeAll(xs)
      ensures x != [] && IsSymbol(x)
    {
      var i :| 0 <= i < |xs| && Normalize(xs[i]) == x;
    }
  }

  /** The elements `listed` answers `want` for, in order. */
  function Screen(xs: seq<string>, listed: string -> bool, want: bool): (r: seq<string>)
    ensures forall x :: x in r <==> x in xs && listed(x) == want
  {
    if xs == [] then []
    else
      var last := xs[|xs| - 1];
      assert xs == xs[..|xs| - 1] + [last];
      Screen(xs[..|xs| - 1], listed, want) + (if listed(last) == want then [last] else [])
  }

  /** When `listed` answers `want` for every element, the screen keeps the whole list. */
  lemma {:induction false} ScreenAll(xs: seq<string>, listed: string -> bool, want: bool)
    requires forall x :: x in xs ==> listed(x) == want
    ensures Screen(xs, listed, want) == xs
  {
    if xs != [] {
      var init, last := xs[..|xs| - 1], xs[|xs| - 1];
      assert xs == init + [last];
      assert forall x :: x in init ==> x in xs;
      ScreenAll(init, listed, want);
    }
  }

  /** The screen keeps the input order: screening `a + b` screens `a`, then `b`. */
  lemma {:induction false} ScreenAppend(a: seq<string>, b: seq<string>, listed: string -> bool, want: bool)
    ensures Screen(a + b, listed, want) == Screen(a, listed, want) + Screen(b, listed, want)
  {
    if b == [] {
      assert a + b == a;
    } else {
      var init, last := b[..|b| - 1], b[|b| - 1];
      assert (a + b)[..|a + b| - 1] == a + init;
      assert (a + b)[|a + b| - 1] == last;
      ScreenAppend(a, init, listed, want);
    }
  }

  /** One item is kept exactly when the oracle answers `want` for it. */
  lemma ScreenOne(x: string, listed: string -> bool, want: bool)
    ensures Screen([x], listed, want) == if listed(x) == want then [x] else []
  {
    assert [x][..0] == [];
  }

  lemma ScreenSnoc(xs: seq<string>, y: string, listed: string -> bool, want: bool)
    ensures Screen(xs + [y], listed, want) == Screen(xs, listed, want) + (if listed(y) == want then [y] else [])
  {
    assert (xs + [y])[..|xs|] == xs;
  }

  /**
    `validate_symbols_public` (and the front end's `validate_symbols`): inputs
    that normalise to "" are dropped; every other normal form goes to `valid`
    when the exchange lists it and to `invalid` otherwise; both lists are then
    de-duplicated keeping first occurrences. `listed` stands for the exchange
    lookups.
  */
  method ValidateSymbols(symbols: seq<string>, listed: string -> bool) returns (valid: seq<string>, invalid: seq<string>)
    ensures valid == Dedup(Screen(NormalizeAll(symbols), listed, true))
    ensures invalid == Dedup(Screen(NormalizeAll(symbols), listed, false))
    ensures forall x :: x in valid <==> x in NormalizeAll(symbols) && listed(x)
    ensures forall x :: x in invalid <==> x in NormalizeAll(symbols) && !listed(x)
    ensures Distinct(valid) && Distinct(invalid)
  {
    var accepted: seq<string> := [];
    var rejected: seq<string> := [];
    for i := 0 to |symbols|
      invariant accepted == Screen(MapNonEmpty(symbols[..i], Normalize), listed, true)
      invariant rejected == Screen(MapNonEmpty(symbols[..i], Normalize), listed, false)
    {
      var ns := Normalize(symbols[i]);
      ghost var m := MapNonEmpty(symbols[..i], Normalize);
      assert symbols[..i + 1][..i] == symbols[..i];
      if ns != [] {
        assert MapNonEmpty(symbols[..i + 1], Normalize) == m + [ns];
        ScreenSnoc(m, ns, listed, true);
        ScreenSnoc(m, ns, listed, false);
        if listed(ns) {
          accepted := accepted + [ns];
          assert Screen(m, listed, false) + [] == Screen(m, listed, false);
        } else {
          rejected := rejected + [ns];
          assert Screen(m, listed, true) + [] == Screen(m, listed, true);
        }
      } else {
        assert MapNonEmpty(symbols[..i + 1], Normalize) == m + [];
        assert m + [] == m;
      }
    }
    assert symbols[..|symbols|] == symbols;
    valid := Uniq(accepted);
    invalid := Uniq(rejected);
  }
}
