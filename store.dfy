/**
  The JSON user and trade store, with the two files held in memory: a map
  from `str(uid)` to the user record and the list of trade records.
*/
module Store {
  import opened Wrappers
  import opened Text
  import opened Records
  import opened Slices

  /** `datetime.min` and `datetime.max`, as seconds from the Unix epoch (UTC), and the widest `timedelta` in days. */
  const MinDatetime: int := -62135596800
  const MaxDatetime: int := 253402300799
  const MaxDeltaDays: int := 999999999

  /**
    `datetime.utcnow() + timedelta(days=days)` in whole seconds, or None where
    Python raises OverflowError: a delta beyond a billion days, or a date
    outside years 1 to 9999. `now` is the whole second of `utcnow()`; its
    fraction never changes which side of a bound the sum falls on.
  */
  function SubscriptionEnd(now: int, days: int): (r: Option<int>)
    ensures r.Some? <==> -MaxDeltaDays <= days <= MaxDeltaDays && MinDatetime <= now + days * 86400 <= MaxDatetime
    ensures r.Some? ==> r.value - now == days * 86400
    ensures r.Some? ==> MinDatetime <= r.value <= MaxDatetime
  {
    if -MaxDeltaDays <= days <= MaxDeltaDays && MinDatetime <= now + days * 86400 <= MaxDatetime then
      Some(now + days * 86400)
    else None
  }

  /** `str(uid)`: the key a user's record is stored under. */
  function KeyOf(uid: int): string {
    ShowInt(uid)
  }

  /** Distinct ids never share a record. */
  lemma KeysDistinct(a: int, b: int)
    requires a != b
    ensures KeyOf(a) != KeyOf(b)
  {
    if KeyOf(a) == KeyOf(b) {
      ShowIntInjective(a, b);
    }
  }

  /** A key that `str(int(key))` maps back to itself, as every key the store writes is. */
  predicate IsCanonicalKey(key: string) {
    match ParseInt(key)
    case Some(n) => KeyOf(n) == key
    case None => false
  }

  lemma KeyOfIsCanonical(uid: int)
    ensures IsCanonicalKey(KeyOf(uid))
    ensures ParseInt(KeyOf(uid)) == Some(uid)
  {
    ParseShowInt(uid);
  }

  /** The users map after `create_default_user`: the default record is added only when the key is absent. */
  function WithDefaultUser(users: map<string, User>, key: string, username: Option<string>): (r: map<string, User>)
    ensures key in r && r.Keys == users.Keys + {key}
    ensures forall k :: k in users ==> r[k] == users[k]
    ensures key !in users ==> r[key] == DefaultUser(username)
  {
    if key in users then users else users[key := DefaultUser(username)]
  }

  /** Creating a default user twice is the same as creating it once. */
  lemma CreateDefaultUserIdempotent(users: map<string, User>, key: string, a: Option<string>, b: Option<string>)
    ensures WithDefaultUser(WithDefaultUser(users, key, a), key, b) == WithDefaultUser(users, key, a)
  {
  }

  /**
    `[t for t in trades if str(t['user_id']) == str(uid)]`: the trades of one
    user, in ledger order.
  */
  function UserTrades(trades: seq<Trade>, uid: int): (r: seq<Trade>)
    ensures |r| <= |trades|
    ensures forall t :: t in r <==> t in trades && t.userId == uid
  {
    if trades == [] then []
    else
      var last := trades[|trades| - 1];
      var earlier := UserTrades(trades[..|trades| - 1], uid);
      if KeyOf(last.userId) == KeyOf(uid) then
        ShowIntInjective(last.userId, uid);
        earlier + [last]
      else earlier
  }

  /** Filtering a ledger piece by piece: the trades of `a + b` are those of `a`, then those of `b`. */
  lemma {:induction false} UserTradesAppend(a: seq<Trade>, b: seq<Trade>, uid: int)
    ensures UserTrades(a + b, uid) == UserTrades(a, uid) + UserTrades(b, uid)
    decreases |b|
  {
    if b == [] {
      assert a + b == a;
    } else {
      var init := b[..|b| - 1];
      assert (a + b)[..|a + b| - 1] == a + init;
      UserTradesAppend(a, init, uid);
    }
  }

  /** One appended trade shows up at the end of its own user's list and nowhere else. */
  lemma UserTradesSnoc(trades: seq<Trade>, t: Trade, uid: int)
    ensures UserTrades(trades + [t], uid) == UserTrades(trades, uid) + (if t.userId == uid then [t] else [])
  {
    UserTradesAppend(trades, [t], uid);
    assert [t][..0] == [];
    if KeyOf(t.userId) == KeyOf(uid) {
      ShowIntInjective(t.userId, uid);
    }
  }

  /**
    The store. Each operation below reads the current maps, changes them and
    writes them back, as the file-based original does under its lock.
  */
  class Store {
    var users: map<string, User>
    var trades: seq<Trade>

    /** The store as first created: both files empty. */
    constructor ()
      ensures users == map[] && trades == []
    {
      users := map[];
      trades := [];
    }

    /** `get_user(uid)`: the record stored under `str(uid)`. */
    function GetUser(uid: int): (r: Option<User>)
      reads this
      ensures r.Some? <==> KeyOf(uid) in users
      ensures r.Some? ==> r.value == users[KeyOf(uid)]
    {
      if KeyOf(uid) in users then Some(users[KeyOf(uid)]) else None
    }

    /** `create_default_user`: inserts the default record only when none is stored, and returns the stored one. */
    method CreateDefaultUser(uid: int, username: Option<string>) returns (u: User)
      modifies this
      ensures users == WithDefaultUser(old(users), KeyOf(uid), username)
      ensures u == users[KeyOf(uid)]
      ensures trades == old(trades)
    {
      var key := KeyOf(uid);
      if key !in users {
        users := users[key := DefaultUser(username)];
      }
      u := users[key];
    }

    /**
      `set_api_keys`. For an unknown user the source creates the default
      record through a fresh load and then indexes its stale copy, which raises
      KeyError: `ok` is false, the default record stays and the keys are not set.
    */
    method SetApiKeys(uid: int, apiKey: string, apiSecret: string) returns (ok: bool)
      modifies this
      ensures ok == (KeyOf(uid) in old(users))
      ensures ok ==> users == old(users)[KeyOf(uid) := old(users)[KeyOf(uid)].(apiKey := apiKey, apiSecret := apiSecret)]
      ensures !ok ==> users == old(users)[KeyOf(uid) := DefaultUser(None)]
      ensures trades == old(trades)
    {
      var key := KeyOf(uid);
      var loaded := users;
      if key !in loaded {
        var _ := CreateDefaultUser(uid, None);
        ok := false;
        return;
      }
      users := loaded[key := loaded[key].(apiKey := apiKey, apiSecret := apiSecret)];
      ok := true;
    }

    /**
      `set_subscription`: `sub_until` becomes `now` plus `days` days. An unknown
      user gets the default record and the call fails, as in SetApiKeys. A date
      past `datetime.max` raises before the save, so nothing changes.
    */
    method SetSubscription(uid: int, days: int, now: int) returns (ok: bool)
      modifies this
      ensures ok == (KeyOf(uid) in old(users) && SubscriptionEnd(now, days).Some?)
      ensures ok ==> users == old(users)[KeyOf(uid) := old(users)[KeyOf(uid)].(subUntil := At(SubscriptionEnd(now, days).value))]
      ensures KeyOf(uid) !in old(users) ==> users == old(users)[KeyOf(uid) := DefaultUser(None)]
      ensures KeyOf(uid) in old(users) && SubscriptionEnd(now, days).None? ==> users == old(users)
      ensures trades == old(trades)
    {
      var key := KeyOf(uid);
      var loaded := users;
      if key !in loaded {
        var _ := CreateDefaultUser(uid, None);
        ok := false;
        return;
      }
      var until := SubscriptionEnd(now, days);
      if until.None? {
        ok := false;
        return;
      }
      users := loaded[key := loaded[key].(subUntil := At(until.value))];
      ok := true;
    }

    /**
      `update_setting`: only `settings[name]` of that user changes. An unknown
      user gets the default record and the call fails, as in SetApiKeys.
    */
    method UpdateSetting(uid: int, name: string, value: Value) returns (ok: bool)
      modifies this
      ensures ok == (KeyOf(uid) in old(users))
      ensures ok ==> users == old(users)[KeyOf(uid) :=
                                old(users)[KeyOf(uid)].(settings := old(users)[KeyOf(uid)].settings[name := value])]
      ensures !ok ==> users == old(users)[KeyOf(uid) := DefaultUser(None)]
      ensures trades == old(trades)
    {
      var key := KeyOf(uid);
      var loaded := users;
      if key !in loaded {
        var _ := CreateDefaultUser(uid, None);
        ok := false;
        return;
      }
      var u := loaded[key];
      users := loaded[key := u.(settings := u.settings[name := value])];
      ok := true;
    }

    /** `append_trade`: the ledger grows by exactly this record at its end. */
    method AppendTrade(t: Trade)
      modifies this
      ensures trades == old(trades) + [t]
      ensures users == old(users)
    {
      trades := trades + [t];
    }

    /**
      `get_trades_for_user(uid, limit)`: the last `limit` trades of that user in
      ledger order; `limit == 0` gives all of them (Python's `xs[-0:]`).
    */
    function GetTradesForUser(uid: int, limit: int): (r: seq<Trade>)
      reads this
      ensures forall t :: t in r ==> t in trades && t.userId == uid
      ensures |r| <= |UserTrades(trades, uid)|
      ensures r == UserTrades(trades, uid)[|UserTrades(trades, uid)| - |r|..]
      ensures limit > 0 ==> |r| == Min(limit, |UserTrades(trades, uid)|)
      ensures limit == 0 ==> r == UserTrades(trades, uid)
    {
      PyTail(UserTrades(trades, uid), limit)
    }
  }
}
