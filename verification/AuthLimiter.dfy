/** The table of failed logins per source, with the accounts they were for. */
module AuthLimiter {
  import opened Text

  const MAX_ENTRIES := 2048
  const CLEANUP_INTERVAL := 60_000_000_000
  const OVERFLOW_KEY := "__overflow__"

  /** Times are nanoseconds; None is the zero time. */
  datatype Attempt = Attempt(
    failures: int,
    windowStart: Option<int>,
    blockedUntil: Option<int>,
    accountFailures: map<string, int>)

  const NO_ATTEMPT := Attempt(0, None, None, map[])

  datatype Config = Config(maxAttempts: int, window: int, block: int)

  type Table = map<string, Attempt>

  /** An entry tells exactly which failures it stands for: the bag holds the
      account of each one, blank for a failure without an account. */
  predicate Tells(c: Config, a: Attempt, bag: multiset<string>)
  {
    && a.failures == |bag| > 0
    && a.windowStart.Some?
    && (a.blockedUntil.Some? <==> a.failures >= c.maxAttempts)
    && (forall x | x in a.accountFailures :: x != "" && a.accountFailures[x] == bag[x] > 0)
    && (forall x | x in bag :: x == "" || x in a.accountFailures)
  }

  predicate WindowExpired(c: Config, a: Attempt, now: int)
  {
    a.windowStart == None || now - a.windowStart.value > c.window
  }

  predicate Blocked(a: Attempt, now: int)
  {
    a.blockedUntil.Some? && now < a.blockedUntil.value
  }

  /** The entry after one more failure; an expired window starts a new one. */
  function Record(c: Config, before: Attempt, account: string, now: int): Attempt
  {
    var a := if WindowExpired(c, before, now) then Attempt(0, Some(now), None, map[]) else before;
    var n := a.failures + 1;
    Attempt(n, a.windowStart,
            if n >= c.maxAttempts then Some(now + c.block) else a.blockedUntil,
            if account == "" then a.accountFailures
            else a.accountFailures[account := Count(a.accountFailures, account) + 1])
  }

  function Count(m: map<string, int>, account: string): int { if account in m then m[account] else 0 }

  /** The entry without one account's failures, if any other is left. */
  function Remove(c: Config, a: Attempt, account: string): Option<Attempt>
  {
    var n := Count(a.accountFailures, account);
    if n == 0 then Some(a)
    else if a.failures - n <= 0 then None
    else Some(Attempt(a.failures - n, a.windowStart,
                      if a.failures - n < c.maxAttempts then None else a.blockedUntil,
                      a.accountFailures - {account}))
  }

  lemma {:induction false} RecordTells(c: Config, before: Attempt, bag: multiset<string>, account: string, now: int)
    requires c.maxAttempts > 0
    requires WindowExpired(c, before, now) || Tells(c, before, bag)
    ensures Tells(c, Record(c, before, account, now),
                  (if WindowExpired(c, before, now) then multiset{} else bag) + multiset{account})
  {
  }

  /** A reset takes exactly the account's share out of the entry: every other
      account and the blank failures stay, and the entry goes with its last
      failure. */
  lemma {:induction false} RemoveTells(c: Config, a: Attempt, bag: multiset<string>, account: string)
    requires Tells(c, a, bag) && account != ""
    ensures match Remove(c, a, account)
            case Some(b) => Tells(c, b, bag[account := 0])
            case None => bag[account := 0] == multiset{}
  {
    var rest := bag[account := 0];
    assert |rest| == |bag| - bag[account];
    if Count(a.accountFailures, account) == 0 {
      assert bag[account] == 0;
      assert rest == bag;
    } else {
      assert Count(a.accountFailures, account) == bag[account];
      if rest != multiset{} {
        var x :| x in rest;
        assert rest == rest - multiset{x} + multiset{x};
      }
    }
  }

  /** At most 2048 entries, and that many only with the overflow entry. */
  predicate Bounded(t: Table)
  {
    |t.Keys - {OVERFLOW_KEY}| < MAX_ENTRIES
  }

  lemma {:induction false} BoundedSize(t: Table)
    requires Bounded(t)
    ensures |t| <= MAX_ENTRIES && (|t| == MAX_ENTRIES ==> OVERFLOW_KEY in t)
  {
    var others := t.Keys - {OVERFLOW_KEY};
    assert |t| == |t.Keys|;
    if OVERFLOW_KEY in t {
      assert t.Keys == others + {OVERFLOW_KEY};
    } else {
      assert t.Keys == others;
    }
  }

  function Key(ip: string): string
  {
    if TrimSpace(ip) == "" then "unknown" else TrimSpace(ip)
  }

  function TrackedKey(t: Table, ip: string): string
  {
    if Key(ip) in t || |t| < MAX_ENTRIES - 1 then Key(ip) else OVERFLOW_KEY
  }

  lemma {:induction false} SubsetSize(a: set<string>, b: set<string>)
    requires a <= b
    ensures |a| <= |b|
  {
    assert b == a + (b - a);
  }

  lemma {:induction false} SubtableBounded(t: Table, u: Table)
    requires Bounded(t) && u.Keys <= t.Keys
    ensures Bounded(u)
  {
    SubsetSize(u.Keys - {OVERFLOW_KEY}, t.Keys - {OVERFLOW_KEY});
  }

  lemma {:induction false} PutBounded(t: Table, key: string, a: Attempt)
    requires Bounded(t) && (key in t || key == OVERFLOW_KEY || |t| < MAX_ENTRIES - 1)
    ensures Bounded(t[key := a])
  {
    var old', new' := t.Keys - {OVERFLOW_KEY}, t[key := a].Keys - {OVERFLOW_KEY};
    if key in t || key == OVERFLOW_KEY {
      SubsetSize(new', old');
    } else {
      SubsetSize(new', old' + {key});
      SubsetSize(old', t.Keys);
      assert |t.Keys| == |t|;
    }
  }

  predicate Expired(c: Config, a: Attempt, now: int)
  {
    WindowExpired(c, a, now) && !Blocked(a, now)
  }

  /** The table as an operation finds it: swept of the entries that are past
      both their window and their block, at most once a minute. */
  function Swept(c: Config, t: Table, last: Option<int>, now: int, force: bool): Table
  {
    if !force && last.Some? && now - last.value < CLEANUP_INTERVAL then t
    else map k | k in t && !Expired(c, t[k], now) :: t[k]
  }

  /** When the last sweep was, after an operation at now. */
  function SweptAt(last: Option<int>, now: int, force: bool): Option<int>
  {
    if !force && last.Some? && now - last.value < CLEANUP_INTERVAL then last else Some(now)
  }

  function Lookup(t: Table, key: string): Attempt
  {
    if key in t then t[key] else NO_ATTEMPT
  }

  function Recorded(c: Config, t: Table, ip: string, account: string, now: int): Table
  {
    var key := TrackedKey(t, ip);
    t[key := Record(c, Lookup(t, key), account, now)]
  }

  function WithoutAccount(c: Config, t: Table, account: string): Table
  {
    map k | k in t && Remove(c, t[k], account).Some? :: Remove(c, t[k], account).value
  }

  /** One entry's update in a reset. */
  function Put(t: Table, key: string, a: Option<Attempt>): Table
  {
    if a.Some? then t[key := a.value] else t - {key}
  }

  /** The table and when it was last swept. */
  datatype State = State(table: Table, last: Option<int>)

  /** The operations, with accounts trimmed and in lower case. */
  datatype Op =
    | Check(ip: string, now: int)
    | Failure(ip: string, account: string, now: int)
    | Reset(ip: string, account: string)
    | ResetAll(account: string)

  /** The table as an operation that sweeps finds it. */
  function Found(c: Config, s: State, op: Op): Table
    requires op.Check? || op.Failure?
  {
    Swept(c, s.table, s.last, op.now, op.Failure? && |s.table| >= MAX_ENTRIES - 1)
  }

  function After(c: Config, s: State, op: Op): State
  {
    match op
    case Check(ip, now) =>
      var t := Found(c, s, op);
      var key := TrackedKey(t, ip);
      var gone := !Blocked(Lookup(t, key), now) && WindowExpired(c, Lookup(t, key), now);
      State(if gone then t - {key} else t, SweptAt(s.last, now, false))
    case Failure(ip, account, now) =>
      State(Recorded(c, Found(c, s, op), ip, account, now), SweptAt(s.last, now, |s.table| >= MAX_ENTRIES - 1))
    case Reset(ip, account) =>
      if account == "" || Key(ip) !in s.table then s
      else s.(table := Put(s.table, Key(ip), Remove(c, s.table[Key(ip)], account)))
    case ResetAll(account) => if account == "" then s else s.(table := WithoutAccount(c, s.table, account))
  }

  /** The answer to a check. */
  predicate Refuses(c: Config, s: State, ip: string, now: int)
  {
    var t := Found(c, s, Check(ip, now));
    Blocked(Lookup(t, TrackedKey(t, ip)), now)
  }

  type Bags = map<string, multiset<string>>

  function BagAt(c: Config, t: Table, bags: Bags, key: string, now: int): multiset<string>
    requires t.Keys <= bags.Keys
  {
    if WindowExpired(c, Lookup(t, key), now) then multiset{} else bags[key]
  }

  /** The table is bounded and every entry tells its bag. */
  ghost predicate Sound(c: Config, t: Table, bags: Bags)
  {
    t.Keys <= bags.Keys && Bounded(t) && forall k | k in t :: Tells(c, t[k], bags[k])
  }

  lemma {:induction false} SoundPart(c: Config, t: Table, bags: Bags, u: Table)
    requires Sound(c, t, bags)
    requires u.Keys <= t.Keys && forall k | k in u :: u[k] == t[k]
    ensures Sound(c, u, bags)
  {
    hide Tells, Bounded;
    SubtableBounded(t, u);
  }

  lemma {:induction false} SoundPut(c: Config, t: Table, bags: Bags, key: string, a: Attempt, bag: multiset<string>)
    requires Sound(c, t, bags) && Tells(c, a, bag) && Bounded(t[key := a])
    ensures Sound(c, t[key := a], bags[key := bag])
  {
    hide Tells, Bounded;
  }

  /** Recording puts exactly one failure, under the account named, into the
      bag of the source's own entry or, when the table is full, of the
      overflow entry; the table stays bounded. */
  lemma {:induction false} RecordedSound(c: Config, t: Table, bags: Bags, ip: string, account: string, now: int)
    requires c.maxAttempts > 0 && Sound(c, t, bags)
    ensures var key := TrackedKey(t, ip);
            Sound(c, Recorded(c, t, ip, account, now), bags[key := BagAt(c, t, bags, key, now) + multiset{account}])
  {
    hide Tells, Bounded, Key, Record;
    var key := TrackedKey(t, ip);
    var before := Lookup(t, key);
    RecordTells(c, before, if key in t then bags[key] else multiset{}, account, now);
    PutBounded(t, key, Record(c, before, account, now));
    SoundPut(c, t, bags, key, Record(c, before, account, now), BagAt(c, t, bags, key, now) + multiset{account});
  }

  lemma {:induction false} PutSound(c: Config, t: Table, bags: Bags, key: string, account: string)
    requires Sound(c, t, bags) && key in t && account != ""
    ensures Sound(c, Put(t, key, Remove(c, t[key], account)), bags[key := bags[key][account := 0]])
  {
    hide Tells, Bounded, Remove;
    RemoveTells(c, t[key], bags[key], account);
    SubtableBounded(t, Put(t, key, Remove(c, t[key], account)));
  }

  class AuthRateLimiter {
    const config: Config
    const fold: string -> string   // the account, trimmed and in lower case
    var attempts: Table
    var lastCleanup: Option<int>
    ghost var bags: Bags

    ghost predicate Valid()
      reads this
    {
      config.maxAttempts > 0 && config.window > 0 && config.block > 0 && Sound(config, attempts, bags)
    }

    function Now(): State
      reads this
    {
      State(attempts, lastCleanup)
    }

    constructor (config: Config, fold: string -> string)
      requires config.maxAttempts > 0 && config.window > 0 && config.block > 0
      ensures Valid() && Now() == State(map[], None) && this.config == config && this.fold == fold
    {
      this.config, this.fold, attempts, lastCleanup, bags := config, fold, map[], None, map[];
    }

    method CleanupExpired(now: int, force: bool)
      requires Valid()
      modifies this
      ensures Valid() && bags == old(bags)
      ensures attempts == Swept(config, old(attempts), old(lastCleanup), now, force)
      ensures lastCleanup == SweptAt(old(lastCleanup), now, force)
    {
      hide Sound, Expired;
      if !force && lastCleanup.Some? && now - lastCleanup.value < CLEANUP_INTERVAL {
        return;
      }
      ghost var before := attempts;
      var keys := attempts.Keys;
      while keys != {}
        invariant keys <= attempts.Keys <= before.Keys
        invariant forall k | k in attempts :: attempts[k] == before[k]
        invariant forall k | k in before :: k in attempts <==> k in keys || !Expired(config, before[k], now)
        invariant bags == old(bags)
        decreases keys
      {
        var key :| key in keys;
        if Expired(config, attempts[key], now) {
          attempts := attempts - {key};
        }
        keys := keys - {key};
      }
      SoundPart(config, before, bags, attempts);
      assert attempts == map k | k in before && !Expired(config, before[k], now) :: before[k];
      lastCleanup := Some(now);
    }

    /** Refuses exactly while the entry the source falls under is blocked, and
        says for how long; otherwise drops that entry if its window is over. */
    method Allow(ip: string, now: int) returns (wait: int, allowed: bool)
      requires Valid()
      modifies this
      ensures Valid() && bags == old(bags) && lastCleanup == SweptAt(old(lastCleanup), now, false)
      ensures var t := Swept(config, old(attempts), old(lastCleanup), now, false);
              var key := TrackedKey(t, ip);
              && allowed == !(key in t && Blocked(t[key], now))
              && (!allowed ==> wait > 0 && t[key].blockedUntil == Some(now + wait) && attempts == t)
              && (allowed ==> wait == 0)
              && (allowed ==> attempts == if WindowExpired(config, Lookup(t, key), now) then t - {key} else t)
      ensures Now() == After(config, old(Now()), Check(ip, now)) && allowed == !Refuses(config, old(Now()), ip, now)
    {
      hide Sound, Swept, TrackedKey, WindowExpired;
      CleanupExpired(now, false);
      var key := TrackedKey(attempts, ip);
      var state := Lookup(attempts, key);
      if Blocked(state, now) {
        return state.blockedUntil.value - now, false;
      }
      if WindowExpired(config, state, now) {
        SoundPart(config, attempts, bags, attempts - {key});
        attempts := attempts - {key};
      }
      return 0, true;
    }

    method RecordFailure(ip: string, rawAccount: string, now: int)
      requires Valid()
      modifies this
      ensures Valid() && lastCleanup == SweptAt(old(lastCleanup), now, |old(attempts)| >= MAX_ENTRIES - 1)
      ensures var t := Swept(config, old(attempts), old(lastCleanup), now, |old(attempts)| >= MAX_ENTRIES - 1);
              var key := TrackedKey(t, ip);
              && t.Keys <= old(bags).Keys
              && attempts == Recorded(config, t, ip, fold(rawAccount), now)
              && bags == old(bags)[key := BagAt(config, t, old(bags), key, now) + multiset{fold(rawAccount)}]
      ensures Now() == After(config, old(Now()), Failure(ip, fold(rawAccount), now))
    {
      hide Sound, Swept, TrackedKey, WindowExpired, Tells, Record;
      CleanupExpired(now, |attempts| >= MAX_ENTRIES - 1);
      var key := TrackedKey(attempts, ip);
      var account := fold(rawAccount);
      SoundKeys(config, attempts, bags);
      RecordedSound(config, attempts, bags, ip, account, now);
      ghost var bag := BagAt(config, attempts, bags, key, now);
      var state := OneMore(Lookup(attempts, key), account, now);
      attempts := attempts[key := state];
      bags := bags[key := bag + multiset{account}];
    }

    method OneMore(before: Attempt, account: string, now: int) returns (state: Attempt)
      ensures state == Record(config, before, account, now)
    {
      state := before;
      if WindowExpired(config, state, now) {
        state := Attempt(0, Some(now), None, map[]);
      }
      if account != "" {
        state := state.(accountFailures := state.accountFailures[account := Count(state.accountFailures, account) + 1]);
      }
      state := state.(failures := state.failures + 1);
      if state.failures >= config.maxAttempts {
        state := state.(blockedUntil := Some(now + config.block));
      }
    }

    /** Takes exactly the account's failures out of the source's own entry. */
    method Reset(ip: string, rawAccount: string)
      requires Valid()
      modifies this
      ensures Valid() && lastCleanup == old(lastCleanup)
      ensures var account, key := fold(rawAccount), Key(ip);
              if account == "" || key !in old(attempts) then attempts == old(attempts) && bags == old(bags)
              else && key in old(bags)
                   && attempts == Put(old(attempts), key, Remove(config, old(attempts)[key], account))
                   && bags == old(bags)[key := old(bags)[key][account := 0]]
      ensures Now() == After(config, old(Now()), Op.Reset(ip, fold(rawAccount)))
    {
      hide Sound, Remove, Key;
      var account := fold(rawAccount);
      if account == "" {
        return;
      }
      RemoveAccountFailures(Key(ip), account);
    }

    method RemoveAccountFailures(key: string, account: string)
      requires Valid() && account != ""
      modifies this
      ensures Valid() && lastCleanup == old(lastCleanup)
      ensures key !in old(attempts) ==> attempts == old(attempts) && bags == old(bags)
      ensures key in old(attempts) ==>
                && key in old(bags)
                && attempts == Put(old(attempts), key, Remove(config, old(attempts)[key], account))
                && bags == old(bags)[key := old(bags)[key][account := 0]]
    {
      hide Sound, Tells;
      if key !in attempts {
        return;
      }
      SoundKeys(config, attempts, bags);
      PutSound(config, attempts, bags, key, account);
      bags := bags[key := bags[key][account := 0]];
      var state := attempts[key];
      var failures := Count(state.accountFailures, account);
      if failures == 0 {
        assert attempts[key := state] == attempts;
        return;
      }
      state := state.(failures := state.failures - failures, accountFailures := state.accountFailures - {account});
      if state.failures < config.maxAttempts {
        state := state.(blockedUntil := None);
      }
      if state.failures <= 0 {
        attempts := attempts - {key};
        return;
      }
      attempts := attempts[key := state];
    }

    /** Takes the account's failures out of every entry, overflow included. */
    method ResetAccount(rawAccount: string)
      requires Valid()
      modifies this
      ensures Valid() && lastCleanup == old(lastCleanup)
      ensures fold(rawAccount) == "" ==> attempts == old(attempts) && bags == old(bags)
      ensures fold(rawAccount) != "" ==> attempts == WithoutAccount(config, old(attempts), fold(rawAccount))
      ensures fold(rawAccount) != "" ==> old(attempts).Keys <= old(bags).Keys && old(attempts).Keys <= bags.Keys
      ensures fold(rawAccount) != "" ==>
                forall k | k in old(attempts) :: bags[k] == old(bags)[k][fold(rawAccount) := 0]
      ensures Now() == After(config, old(Now()), ResetAll(fold(rawAccount)))
    {
      hide Sound, Remove, Put, Resetting, WithoutAccount;
      var account := fold(rawAccount);
      if account == "" {
        return;
      }
      ghost var before := attempts;
      SoundKeys(config, attempts, bags);
      ResettingStart(config, account, attempts, bags);
      var keys := attempts.Keys;
      while keys != {}
        invariant Valid() && lastCleanup == old(lastCleanup)
        invariant Resetting(config, account, before, old(bags), keys, attempts, bags)
        decreases keys
      {
        var key :| key in keys;
        ghost var t, b := attempts, bags;
        RemoveAccountFailures(key, account);
        ResettingStep(config, account, before, old(bags), keys, t, b, key);
        keys := keys - {key};
      }
      ResettingDone(config, account, before, old(bags), attempts, bags);
    }
  }

  /** The entry under a key is as it was. */
  predicate AsBefore(was: Table, wasBags: Bags, t: Table, bags: Bags, k: string)
    requires k in was && k in wasBags && k in bags
  {
    k in t && t[k] == was[k] && bags[k] == wasBags[k]
  }

  /** The entry under a key has lost the account's share. */
  predicate Stripped(c: Config, account: string, was: Table, wasBags: Bags, t: Table, bags: Bags, k: string)
    requires k in was && k in wasBags && k in bags
  {
    && bags[k] == wasBags[k][account := 0]
    && (k in t <==> Remove(c, was[k], account).Some?)
    && (k in t ==> t[k] == Remove(c, was[k], account).value)
  }

  /** A reset of all entries under way: those under the keys still to visit are
      as they were, the others are done. */
  ghost predicate Resetting(c: Config, account: string, was: Table, wasBags: Bags, keys: set<string>, t: Table,
                            bags: Bags)
  {
    && keys <= was.Keys && t.Keys <= was.Keys <= wasBags.Keys && was.Keys <= bags.Keys
    && (forall k | k in keys :: AsBefore(was, wasBags, t, bags, k))
    && (forall k | k in was && k !in keys :: Stripped(c, account, was, wasBags, t, bags, k))
  }

  lemma {:induction false} ResettingStart(c: Config, account: string, t: Table, bags: Bags)
    requires t.Keys <= bags.Keys
    ensures Resetting(c, account, t, bags, t.Keys, t, bags)
  {
  }

  /** One turn of the loop. */
  lemma {:induction false} ResettingStep(c: Config, account: string, was: Table, wasBags: Bags,
                                         keys: set<string>, t: Table, bags: Bags, key: string)
    requires Resetting(c, account, was, wasBags, keys, t, bags) && key in keys
    ensures key in t && key in bags
    ensures Resetting(c, account, was, wasBags, keys - {key}, Put(t, key, Remove(c, t[key], account)),
                      bags[key := bags[key][account := 0]])
  {
    hide Remove, AsBefore, Stripped;
    assert AsBefore(was, wasBags, t, bags, key);
    VisitOne(c, account, was, wasBags, t, bags, key);
    var after, afterBags := Put(t, key, Remove(c, t[key], account)), bags[key := bags[key][account := 0]];
    forall k | k in was && k != key
      ensures AsBefore(was, wasBags, after, afterBags, k) == AsBefore(was, wasBags, t, bags, k)
      ensures Stripped(c, account, was, wasBags, after, afterBags, k) == Stripped(c, account, was, wasBags, t, bags, k)
    {
      VisitOther(c, account, was, wasBags, t, bags, key, k);
    }
  }

  lemma {:induction false} VisitOne(c: Config, account: string, was: Table, wasBags: Bags, t: Table, bags: Bags,
                                    key: string)
    requires key in was && key in wasBags && key in bags && AsBefore(was, wasBags, t, bags, key)
    ensures key in t
    ensures Stripped(c, account, was, wasBags, Put(t, key, Remove(c, t[key], account)),
                     bags[key := bags[key][account := 0]], key)
    ensures Put(t, key, Remove(c, t[key], account)).Keys <= t.Keys
  {
    hide Remove;
  }

  lemma {:induction false} VisitOther(c: Config, account: string, was: Table, wasBags: Bags, t: Table,
                                      bags: Bags, key: string, k: string)
    requires key in t && key in bags && k in was && k in wasBags && k in bags && k != key
    ensures var after, afterBags := Put(t, key, Remove(c, t[key], account)), bags[key := bags[key][account := 0]];
            && AsBefore(was, wasBags, after, afterBags, k) == AsBefore(was, wasBags, t, bags, k)
            && Stripped(c, account, was, wasBags, after, afterBags, k) == Stripped(c, account, was, wasBags, t, bags, k)
  {
    hide Remove;
  }

  lemma {:induction false} ResettingDone(c: Config, account: string, was: Table, wasBags: Bags, t: Table, bags: Bags)
    requires Resetting(c, account, was, wasBags, {}, t, bags)
    ensures t == WithoutAccount(c, was, account)
    ensures was.Keys <= wasBags.Keys && was.Keys <= bags.Keys
    ensures forall k | k in was :: bags[k] == wasBags[k][account := 0]
  {
    hide Remove;
  }

  lemma {:induction false} SoundKeys(c: Config, t: Table, bags: Bags)
    requires Sound(c, t, bags)
    ensures t.Keys <= bags.Keys
  {
  }
}
