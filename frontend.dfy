/**
  The logic inside the Telegram front end: the admin-notification rate
  limiter, the subscription and trading-switch rules, the pair toggle, the
  manual pair list parser and the `/give_sub` command. Replies, keyboards and
  message texts are left out; each handler returns what it decided.
*/
module FrontEnd {
  import opened Wrappers
  import opened Text
  import opened Records
  import opened Store
  import opened Symbols
  import opened Engine

  // ---------------------------------------------------------------------
  // Rate limiter for admin notifications

  /** `ERROR_NOTIFY_INTERVAL`, in seconds. */
  const NotifyInterval: int := 300

  /** `_LAST_ERROR_NOTIFY.get(key, 0)` */
  function LastNotified(last: map<string, int>, key: string): int {
    if key in last then last[key] else 0
  }

  /** Whether a notification for `key` goes out at `now`. */
  predicate Due(last: map<string, int>, key: string, now: int) {
    now - LastNotified(last, key) > NotifyInterval
  }

  /** The table of last notification times, updated in place. */
  class Notifier {
    var last: map<string, int>

    constructor ()
      ensures last == map[]
    {
      last := map[];
    }

    /** `_should_notify(key)` at time `now`: only a notification that goes out is recorded. */
    method ShouldNotify(key: string, now: int) returns (fire: bool)
      modifies this
      ensures fire == Due(old(last), key, now)
      ensures last == if fire then old(last)[key := now] else old(last)
    {
      var previous := if key in last then last[key] else 0;
      if now - previous > NotifyInterval {
        last := last[key := now];
        fire := true;
      } else {
        fire := false;
      }
    }
  }

  /**
    After a notification for `key` at `t`, the next one for that key goes out
    exactly when more than the interval has passed, and other keys are not
    affected.
  */
  lemma NotificationsSpacedOut(last: map<string, int>, key: string, t: int, other: string, now: int)
    ensures Due(last[key := t], key, now) <==> now > t + NotifyInterval
    ensures other != key ==> (Due(last[key := t], other, now) <==> Due(last, other, now))
  {
  }

  // ---------------------------------------------------------------------
  // Subscription and the trading switch

  /**
    `has_active_sub`: the user exists and `sub_until` parses to a time
    strictly after `now`.
  */
  predicate HasActiveSub(users: map<string, User>, uid: int, now: int) {
    KeyOf(uid) in users && users[KeyOf(uid)].subUntil.At? && users[KeyOf(uid)].subUntil.t > now
  }

  /**
    The front end and the trading pass disagree at one instant only: a
    subscription ending exactly at `now` still trades but no longer counts as
    active.
  */
  lemma SubscriptionChecksDiffer(users: map<string, User>, uid: int, now: int)
    requires KeyOf(uid) in users
    ensures HasActiveSub(users, uid, now) ==> SubscriptionCurrent(users[KeyOf(uid)], now)
    ensures SubscriptionCurrent(users[KeyOf(uid)], now) && !HasActiveSub(users, uid, now) <==>
              users[KeyOf(uid)].subUntil == At(now)
  {
  }

  /** `is_trading_active`: the `active` setting is truthy. */
  predicate IsTradingActive(users: map<string, User>, uid: int) {
    KeyOf(uid) in users && Truthy(Get(users[KeyOf(uid)].settings, "active"))
  }

  datatype Toggle = NeedSubscription | NeedKeys | KeysRejected | TurnedOn | TurnedOff

  /** The user's record with `active` set to `on`. */
  function WithActive(u: User, on: bool): User {
    u.(settings := u.settings["active" := Flag(on)])
  }

  /**
    The trading switch button. Turning off always writes `active = False`.
    Turning on needs an active subscription, both stored keys and a
    successful key check (`keysValid`, standing for the exchange call); a
    failed check also writes `active = False`.
  */
  method ToggleBot(store: Store, uid: int, now: int, keysValid: User -> bool) returns (outcome: Toggle)
    modifies store
    ensures var before := WithDefaultUser(old(store.users), KeyOf(uid), None);
            var u := before[KeyOf(uid)];
            && (IsTradingActive(store.users, uid) <==>
                  !IsTradingActive(before, uid) && HasActiveSub(before, uid, now) && u.apiKey != [] && u.apiSecret != [] && keysValid(u))
            && (outcome == TurnedOff <==> IsTradingActive(before, uid))
            && (outcome == NeedSubscription <==> !IsTradingActive(before, uid) && !HasActiveSub(before, uid, now))
            && (outcome == NeedKeys <==>
                  !IsTradingActive(before, uid) && HasActiveSub(before, uid, now) && (u.apiKey == [] || u.apiSecret == []))
            && (outcome == KeysRejected <==>
                  !IsTradingActive(before, uid) && HasActiveSub(before, uid, now) && u.apiKey != [] && u.apiSecret != [] && !keysValid(u))
            && (outcome == TurnedOn <==>
                  !IsTradingActive(before, uid) && HasActiveSub(before, uid, now) && u.apiKey != [] && u.apiSecret != [] && keysValid(u))
            && (outcome == TurnedOn ==> store.users == before[KeyOf(uid) := WithActive(u, true)])
            && (outcome == TurnedOff || outcome == KeysRejected ==> store.users == before[KeyOf(uid) := WithActive(u, false)])
            && (outcome == NeedSubscription || outcome == NeedKeys ==> store.users == before)
    ensures store.trades == old(store.trades)
  {
    var _ := store.CreateDefaultUser(uid, None);
    var key := KeyOf(uid);
    var u := store.users[key];
    if !Truthy(Get(u.settings, "active")) {
      if !(u.subUntil.At? && u.subUntil.t > now) {
        return NeedSubscription;
      }
      if u.apiKey == [] || u.apiSecret == [] {
        return NeedKeys;
      }
      if !keysValid(u) {
        var _ := store.UpdateSetting(uid, "active", Flag(false));
        return KeysRejected;
      }
      var _ := store.UpdateSetting(uid, "active", Flag(true));
      return TurnedOn;
    } else {
      var _ := store.UpdateSetting(uid, "active", Flag(false));
      return TurnedOff;
    }
  }

  // ---------------------------------------------------------------------
  // The pair toggle

  /** The set with `x` removed if present, added if absent. */
  function Flip(s: set<string>, x: string): (r: set<string>)
    ensures x in r <==> x !in s
    ensures forall y :: y != x ==> (y in r <==> y in s)
  {
    if x in s then s - {x} else s + {x}
  }

  /** Flipping the same symbol twice restores the set. */
  lemma FlipTwice(s: set<string>, x: string)
    ensures Flip(Flip(s, x), x) == s
  {
  }

  /** The one-character strings of `s`: iterating a Python string. */
  function Chars(s: string): (r: seq<string>)
    ensures |r| == |s| && forall i :: 0 <= i < |s| ==> r[i] == [s[i]]
  {
    seq(|s|, i requires 0 <= i < |s| => [s[i]])
  }

  /**
    `settings.get("symbols", SYMBOLS_ENV)` as something to iterate: a list, the
    characters of a string, or None where iterating raises.
  */
  function StoredPairs(settings: map<string, Value>, env: seq<string>): Option<seq<string>> {
    if "symbols" !in settings then Some(env)
    else match settings["symbols"]
      case Texts(items) => Some(items)
      case Text(s) => Some(Chars(s))
      case _ => None
  }

  /** `set([p.upper() for p in xs])` */
  function UpperSet(xs: seq<string>): set<string> {
    set i | 0 <= i < |xs| :: Upper(xs[i])
  }

  function Elements(xs: seq<string>): set<string> {
    set x | x in xs
  }

  /** `list(s)`: the elements of a set, each once, in some order. */
  method ListOf(s: set<string>) returns (xs: seq<string>)
    ensures Elements(xs) == s && Distinct(xs)
  {
    xs := [];
    var rest := s;
    while rest != {}
      invariant Elements(xs) <= s && rest == s - Elements(xs)
      invariant Distinct(xs)
      decreases |rest|
    {
      var x :| x in rest;
      ElementsSnoc(xs, x);
      xs := xs + [x];
      rest := rest - {x};
    }
  }

  /** Appending one new element keeps the list duplicate-free and adds exactly that element. */
  lemma ElementsSnoc(xs: seq<string>, x: string)
    requires Distinct(xs) && x !in Elements(xs)
    ensures Elements(xs + [x]) == Elements(xs) + {x}
    ensures Distinct(xs + [x])
  {
    assert forall y :: y in xs + [x] <==> y in xs || y == x;
  }

  /**
    `cb_pairs_toggle`: creates the user if needed, flips the upper-cased
    symbol in the upper-cased set of stored pairs and stores the result as a
    list. A stored value that cannot be iterated raises after the user was
    created; `ok` is then false.
  */
  method PairsToggle(store: Store, uid: int, username: Option<string>, sym: string, env: seq<string>)
    returns (ok: bool, written: seq<string>)
    modifies store
    ensures var before := WithDefaultUser(old(store.users), KeyOf(uid), username);
            var u := before[KeyOf(uid)];
            && ok == StoredPairs(u.settings, env).Some?
            && (!ok ==> store.users == before)
            && (ok ==> && Elements(written) == Flip(UpperSet(StoredPairs(u.settings, env).value), Upper(sym))
                       && Distinct(written)
                       && store.users == before[KeyOf(uid) := u.(settings := u.settings["symbols" := Texts(written)])])
    ensures store.trades == old(store.trades)
  {
    var _ := store.CreateDefaultUser(uid, username);
    var u := store.users[KeyOf(uid)];
    var current := StoredPairs(u.settings, env);
    if current.None? {
      return false, [];
    }
    var pairs := UpperSet(current.value);
    pairs := Flip(pairs, Upper(sym));
    written := ListOf(pairs);
    var _ := store.UpdateSetting(uid, "symbols", Texts(written));
    ok := true;
  }

  lemma UpperIdempotent(s: string)
    ensures Upper(Upper(s)) == Upper(s)
  {
    assert forall i :: 0 <= i < |s| ==> UpperChar(UpperChar(s[i])) == UpperChar(s[i]);
  }

  /**
    Pressing the same pair twice gives back the pairs the user had, as the
    upper-cased set the handler works on.
  */
  lemma ToggleTwiceRestores(settings: map<string, Value>, env: seq<string>, sym: string, written: seq<string>)
    requires StoredPairs(settings, env).Some?
    requires Elements(written) == Flip(UpperSet(StoredPairs(settings, env).value), Upper(sym))
    ensures StoredPairs(settings["symbols" := Texts(written)], env) == Some(written)
    ensures Flip(UpperSet(written), Upper(sym)) == UpperSet(StoredPairs(settings, env).value)
  {
    var before := StoredPairs(settings, env).value;
    forall x | x in Elements(written)
      ensures Upper(x) == x
    {
      if x == Upper(sym) {
        UpperIdempotent(sym);
      } else {
        var i :| 0 <= i < |before| && Upper(before[i]) == x;
        UpperIdempotent(before[i]);
      }
    }
    assert UpperSet(written) == Elements(written) by {
      forall x | x in UpperSet(written)
        ensures x in Elements(written)
      {
        var i :| 0 <= i < |written| && Upper(written[i]) == x;
        assert written[i] in Elements(written);
      }
      forall x | x in Elements(written)
        ensures x in UpperSet(written)
      {
        var i :| 0 <= i < |written| && written[i] == x;
      }
    }
    FlipTwice(UpperSet(before), Upper(sym));
  }

  // ---------------------------------------------------------------------
  // The manual pair list

  /** The separators of a pair list: comma, semicolon, newline. */
  predicate IsPairSep(c: char) {
    c == ',' || c == ';' || c == '\n'
  }

  predicate HasPairSep(raw: string) {
    ',' in raw || ';' in raw || '\n' in raw
  }

  /**
    The tokens one part contributes: nothing when it is blank; its words when
    the raw text has no separator and the part holds a space; else the part.
  */
  function PartTokens(p: string, splitWords: bool): seq<string> {
    var t := Trim(p);
    if t == [] then []
    else if splitWords && ' ' in t then TrimmedPieces(Words(t))
    else [t]
  }

  function RawTokens(parts: seq<string>, splitWords: bool): seq<string> {
    if parts == [] then []
    else RawTokens(parts[..|parts| - 1], splitWords) + PartTokens(parts[|parts| - 1], splitWords)
  }

  /**
    The tokens `process_pairs_input` extracts, normalised, blanks dropped.
    Splitting on each separator instead of on runs of them only adds empty
    parts, which are dropped anyway.
  */
  function PairTokens(raw: string): seq<string> {
    NormalizeAll(RawTokens(Split(raw, IsPairSep), !HasPairSep(raw)))
  }

  /** One part of the loop: strip it, skip it when blank, else split it on whitespace or keep it whole. */
  method ExtractTokens(part: string, splitWords: bool) returns (ts: seq<string>)
    ensures ts == PartTokens(part, splitWords)
  {
    var p := Trim(part);
    if p == [] {
      return [];
    }
    if splitWords && ' ' in p {
      ts := TrimmedPieces(Words(p));
    } else {
      ts := [p];
    }
  }

  /** The tokenizer loop of `process_pairs_input` over the split parts, before normalisation. */
  method TokensOfParts(parts: seq<string>, splitWords: bool) returns (found: seq<string>)
    ensures found == RawTokens(parts, splitWords)
  {
    found := [];
    for i := 0 to |parts|
      invariant found == RawTokens(parts[..i], splitWords)
    {
      assert parts[..i + 1][..i] == parts[..i];
      var ts := ExtractTokens(parts[i], splitWords);
      found := found + ts;
    }
    assert parts[..|parts|] == parts;
  }

  /** Split the text on the separators, then run the tokenizer loop; words split only without separators. */
  method SplitPairs(raw: string) returns (found: seq<string>)
    ensures found == RawTokens(Split(raw, IsPairSep), !HasPairSep(raw))
  {
    var parts := Split(raw, IsPairSep);
    var splitWords := !(',' in raw || ';' in raw || '\n' in raw);
    found := TokensOfParts(parts, splitWords);
  }

  /** The tokens of `process_pairs_input`: the split parts, normalised, blanks dropped. */
  method TokenizePairs(raw: string) returns (tokens: seq<string>)
    ensures tokens == PairTokens(raw)
  {
    var found := SplitPairs(raw);
    tokens := NormalizeAll(found);
  }

  /** Every token is a non-empty `[A-Z0-9]` symbol, and normalising the tokens again changes nothing. */
  lemma PairTokensAreSymbols(raw: string)
    ensures forall s :: s in PairTokens(raw) ==> s != [] && IsSymbol(s)
    ensures NormalizeAll(PairTokens(raw)) == PairTokens(raw)
  {
    var found := RawTokens(Split(raw, IsPairSep), !HasPairSep(raw));
    NormalizeAllSymbols(found);
    NormalizeAllTwice(found);
  }

  lemma SymbolHasNoSeparator(x: string)
    requires IsSymbol(x)
    ensures forall i :: 0 <= i < |x| ==> !IsPairSep(x[i]) && !IsSpace(x[i])
    ensures ' ' !in x
  {
  }

  /** A non-empty symbol is a part that yields itself as its only token. */
  lemma PartTokensOfSymbol(x: string, splitWords: bool)
    requires x != [] && IsSymbol(x)
    ensures PartTokens(x, splitWords) == [x]
  {
    TrimFixesSymbol(x);
    SymbolHasNoSeparator(x);
  }

  /** Parts that each yield only themselves are their own token list. */
  lemma {:induction false} RawTokensFixed(xs: seq<string>, splitWords: bool)
    requires forall k :: 0 <= k < |xs| ==> PartTokens(xs[k], splitWords) == [xs[k]]
    ensures RawTokens(xs, splitWords) == xs
  {
    if xs != [] {
      var init, last := xs[..|xs| - 1], xs[|xs| - 1];
      assert xs == init + [last];
      assert PartTokens(last, splitWords) == [last];
      assert forall k :: 0 <= k < |init| ==> init[k] == xs[k];
      RawTokensFixed(init, splitWords);
    }
  }

  lemma RawTokensOfSymbols(xs: seq<string>, splitWords: bool)
    requires forall k :: 0 <= k < |xs| ==> xs[k] != [] && IsSymbol(xs[k])
    ensures RawTokens(xs, splitWords) == xs
  {
    forall k | 0 <= k < |xs|
      ensures PartTokens(xs[k], splitWords) == [xs[k]]
    {
      PartTokensOfSymbol(xs[k], splitWords);
    }
    RawTokensFixed(xs, splitWords);
  }

  lemma NormalizeAllOfSymbols(xs: seq<string>)
    requires forall k :: 0 <= k < |xs| ==> xs[k] != [] && IsSymbol(xs[k])
    ensures NormalizeAll(xs) == xs
  {
    forall k | 0 <= k < |xs|
      ensures Normalize(xs[k]) == xs[k]
    {
      NormalizeFixesSymbol(xs[k]);
    }
    MapNonEmptyFixed(xs, Normalize);
  }

  /** A comma-separated list of symbols parses back to exactly that list, in order. */
  lemma PairTokensJoin(xs: seq<string>)
    requires |xs| >= 1
    requires forall k :: 0 <= k < |xs| ==> xs[k] != [] && IsSymbol(xs[k])
    ensures PairTokens(Join(xs, ',')) == xs
  {
    forall k, i | 0 <= k < |xs| && 0 <= i < |xs[k]|
      ensures !IsPairSep(xs[k][i])
    {
      SymbolHasNoSeparator(xs[k]);
    }
    SplitJoin(xs, ',', IsPairSep);
    RawTokensOfSymbols(xs, !HasPairSep(Join(xs, ',')));
    NormalizeAllOfSymbols(xs);
  }

  /**
    Something is kept exactly when some token is listed; when none is, every
    token is rejected, each once.
  */
  lemma ListedTokens(tokens: seq<string>, listed: string -> bool)
    ensures Dedup(Screen(tokens, listed, true)) != [] <==> exists s :: s in tokens && listed(s)
    ensures Dedup(Screen(tokens, listed, true)) == [] ==> Dedup(Screen(tokens, listed, false)) == Dedup(tokens)
  {
    var kept := Dedup(Screen(tokens, listed, true));
    if kept != [] {
      assert kept[0] in kept;
    } else {
      forall s | s in tokens
        ensures !listed(s)
      {
        assert s !in kept;
      }
      ScreenAll(tokens, listed, false);
    }
  }

  datatype PairsOutcome =
    | NoTokens                                        // nothing usable in the text
    | AllInvalid(invalid: seq<string>)               // no token is listed: nothing saved
    | Saved(valid: seq<string>, invalid: seq<string>) // `symbols` set to exactly `valid`
    | SaveFailed                                      // unknown user: the store raised

  /**
    `process_pairs_input`: tokenise, check each token with the exchange
    (`listed`), and store exactly the listed ones when there are any.
  */
  method ProcessPairsInput(store: Store, uid: int, raw: string, listed: string -> bool) returns (outcome: PairsOutcome)
    modifies store
    ensures outcome.NoTokens? <==> PairTokens(raw) == []
    ensures outcome.Saved? ==>
              && outcome.valid != []
              && (forall s :: s in outcome.valid <==> s in PairTokens(raw) && listed(s))
              && (forall s :: s in outcome.invalid <==> s in PairTokens(raw) && !listed(s))
              && Distinct(outcome.valid)
              && KeyOf(uid) in old(store.users)
              && var u := old(store.users)[KeyOf(uid)];
                 store.users == old(store.users)[KeyOf(uid) := u.(settings := u.settings["symbols" := Texts(outcome.valid)])]
    ensures outcome.Saved? || outcome.SaveFailed? <==> exists s :: s in PairTokens(raw) && listed(s)
    ensures outcome.Saved? ==> outcome.valid == Dedup(Screen(PairTokens(raw), listed, true))
    ensures outcome.Saved? ==> outcome.invalid == Dedup(Screen(PairTokens(raw), listed, false))
    ensures outcome.AllInvalid? <==> PairTokens(raw) != [] && (forall s :: s in PairTokens(raw) ==> !listed(s))
    ensures outcome.AllInvalid? ==> outcome.invalid == Dedup(PairTokens(raw))
    ensures outcome.NoTokens? || outcome.AllInvalid? ==> store.users == old(store.users)
    ensures outcome.SaveFailed? ==> KeyOf(uid) !in old(store.users) && store.users == old(store.users)[KeyOf(uid) := DefaultUser(None)]
    ensures store.trades == old(store.trades)
  {
    var tokens := TokenizePairs(raw);
    if tokens == [] {
      return NoTokens;
    }
    var valid, invalid := ValidateSymbols(tokens, listed);
    PairTokensAreSymbols(raw);
    ListedTokens(tokens, listed);
    if valid == [] {
      return AllInvalid(invalid);
    }
    var ok := store.UpdateSetting(uid, "symbols", Texts(valid));
    if ok {
      outcome := Saved(valid, invalid);
    } else {
      outcome := SaveFailed;
    }
  }

  // ---------------------------------------------------------------------
  // `/give_sub <user_id> <days|forever>`

  /** The days granted for `forever`. */
  const Forever: int := 36500

  datatype GiveSub = AdminOnly | Usage | BadUserId | BadDays | Grant(target: int, days: int)

  /**
    The parse in `cmd_give_sub`: only the admin may use it, three words at
    least, an integer user id, then `forever` (any case) or a positive
    integer number of days.
  */
  function ParseGiveSub(text: string, sender: int, admin: int): (r: GiveSub)
    ensures sender != admin <==> r == AdminOnly
    ensures r == Usage <==> sender == admin && |Words(Trim(text))| < 3
    ensures r == BadUserId <==> sender == admin && |Words(Trim(text))| >= 3 && ParseInt(Words(Trim(text))[1]).None?
    ensures r.Grant? ==> r.days > 0 && |Words(Trim(text))| >= 3 && ParseInt(Words(Trim(text))[1]) == Some(r.target)
    ensures r.Grant? ==>
              var w := Lower(Words(Trim(text))[2]);
              (w == "forever" && r.days == Forever) || (w != "forever" && ParseInt(w) == Some(r.days))
  {
    if sender != admin then AdminOnly
    else
      var parts := Words(Trim(text));
      if |parts| < 3 then Usage
      else match ParseInt(parts[1])
        case None => BadUserId
        case Some(target) =>
          var token := Lower(parts[2]);
          if token == "forever" then Grant(target, Forever)
          else match ParseInt(token)
            case Some(days) => if days <= 0 then BadDays else Grant(target, days)
            case None => BadDays
  }

  lemma TrimNoOuterSpace(s: string)
    requires s != [] && !IsSpace(s[0]) && !IsSpace(s[|s| - 1])
    ensures Trim(s) == s
  {
  }

  lemma LowerDigits(s: string)
    requires AllDigits(s)
    ensures Lower(s) == s
  {
    assert forall i :: 0 <= i < |s| ==> LowerChar(s[i]) == s[i];
  }

  lemma ShowIntWord(n: int)
    ensures ShowInt(n) != []
    ensures forall i :: 0 <= i < |ShowInt(n)| ==> !IsSpace(ShowInt(n)[i])
    ensures !IsSpace(ShowInt(n)[|ShowInt(n)| - 1])
  {
  }

  /** The words of `/give_sub <id> <word>` as the admin types it. */
  lemma GiveSubWords(target: int, word: string)
    requires word != [] && forall i :: 0 <= i < |word| ==> !IsSpace(word[i])
    ensures Words(Trim(Join(["/give_sub", ShowInt(target), word], ' '))) == ["/give_sub", ShowInt(target), word]
  {
    var xs := ["/give_sub", ShowInt(target), word];
    ShowIntWord(target);
    var text := Join(xs, ' ');
    assert Join(xs[1..], ' ') == ShowInt(target) + [' '] + word by {
      assert xs[1..][1..] == [word];
    }
    assert text == "/give_sub" + [' '] + (ShowInt(target) + [' '] + word);
    assert text[|text| - 1] == word[|word| - 1];
    TrimNoOuterSpace(text);
    WordsJoin(xs);
  }

  /**
    A command of three words or more whose second word reads as `target`
    (`7`, `007`, `+7`) and whose third reads as `days` grants exactly that;
    any further words are ignored.
  */
  lemma ParseGiveSubGrant(text: string, admin: int, target: int, word: string, days: int)
    requires |Words(Trim(text))| >= 3 && ParseInt(Words(Trim(text))[1]) == Some(target) && Words(Trim(text))[2] == word
    requires || (Lower(word) == "forever" && days == Forever)
             || (Lower(word) != "forever" && ParseInt(Lower(word)) == Some(days) && days > 0)
    ensures ParseGiveSub(text, admin, admin) == Grant(target, days)
  {
  }

  /** The command as the admin writes it parses back to the user id and the days. */
  lemma GiveSubRoundTrip(admin: int, target: int, days: int)
    requires days > 0
    ensures ParseGiveSub(Join(["/give_sub", ShowInt(target), ShowInt(days)], ' '), admin, admin) == Grant(target, days)
  {
    var word := ShowInt(days);
    ShowIntWord(days);
    GiveSubWords(target, word);
    assert word == ShowNat(days);
    LowerDigits(word);
    ParseShowInt(days);
    assert IsDigit(word[0]);
    ParseShowInt(target);
    ParseGiveSubGrant(Join(["/give_sub", ShowInt(target), word], ' '), admin, target, word, days);
  }

  /** `forever` grants the pseudo-permanent 36500 days. */
  lemma GiveSubForever(admin: int, target: int)
    ensures ParseGiveSub(Join(["/give_sub", ShowInt(target), "forever"], ' '), admin, admin) == Grant(target, Forever)
  {
    var word := "forever";
    assert forall i :: 0 <= i < |word| ==> !IsSpace(word[i]) && LowerChar(word[i]) == word[i];
    assert Lower(word) == word;
    GiveSubWords(target, word);
    ParseShowInt(target);
    ParseGiveSubGrant(Join(["/give_sub", ShowInt(target), word], ' '), admin, target, word, Forever);
  }

  /**
    What `cmd_give_sub` does with a parsed command: a grant sets the target's
    subscription to `now` plus the days; for a user the store does not know,
    the store first inserts a default record and then raises, and a date past
    year 9999 raises before anything is saved, so nothing is granted. Any
    other command leaves the store alone.
  */
  method ApplyGiveSub(store: Store, cmd: GiveSub, now: int) returns (granted: bool)
    modifies store
    ensures granted <==> cmd.Grant? && KeyOf(cmd.target) in old(store.users) && SubscriptionEnd(now, cmd.days).Some?
    ensures granted ==> store.users == old(store.users)[KeyOf(cmd.target) :=
                          old(store.users)[KeyOf(cmd.target)].(subUntil := At(SubscriptionEnd(now, cmd.days).value))]
    ensures granted && cmd.days > 0 ==> HasActiveSub(store.users, cmd.target, now)
    ensures cmd.Grant? && KeyOf(cmd.target) !in old(store.users) ==>
              store.users == old(store.users)[KeyOf(cmd.target) := DefaultUser(None)]
    ensures !granted && !(cmd.Grant? && KeyOf(cmd.target) !in old(store.users)) ==> store.users == old(store.users)
    ensures store.trades == old(store.trades)
  {
    granted := false;
    if cmd.Grant? {
      granted := store.SetSubscription(cmd.target, cmd.days, now);
    }
  }

  /**
    `cmd_give_sub`: parse the command, then apply it to the store. `granted`
    is false when the parse failed or the store raised.
  */
  method CmdGiveSub(store: Store, text: string, sender: int, admin: int, now: int) returns (cmd: GiveSub, granted: bool)
    modifies store
    ensures cmd == ParseGiveSub(text, sender, admin)
    ensures granted <==> cmd.Grant? && KeyOf(cmd.target) in old(store.users) && SubscriptionEnd(now, cmd.days).Some?
    ensures granted ==> store.users == old(store.users)[KeyOf(cmd.target) :=
                          old(store.users)[KeyOf(cmd.target)].(subUntil := At(SubscriptionEnd(now, cmd.days).value))]
    ensures granted ==> HasActiveSub(store.users, cmd.target, now)
    ensures cmd.Grant? && KeyOf(cmd.target) !in old(store.users) ==>
              store.users == old(store.users)[KeyOf(cmd.target) := DefaultUser(None)]
    ensures !granted && !(cmd.Grant? && KeyOf(cmd.target) !in old(store.users)) ==> store.users == old(store.users)
    ensures store.trades == old(store.trades)
  {
    cmd := ParseGiveSub(text, sender, admin);
    granted := ApplyGiveSub(store, cmd, now);
  }
}
