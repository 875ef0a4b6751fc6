/** What the table of failed logins guarantees over any sequence of checks,
    failures and resets. */
module AuthRuns {
  import opened AuthLimiter
  import opened Text

  ghost predicate IsRun(c: Config, states: seq<State>, ops: seq<Op>)
  {
    && |states| == |ops| + 1
    && forall i | 0 <= i < |ops| :: states[i + 1] == After(c, states[i], ops[i])
  }

  predicate Timed(op: Op) { op.Check? || op.Failure? }

  /** The operation records a failure under a key. */
  predicate Hits(c: Config, s: State, op: Op, k: string)
  {
    op.Failure? && TrackedKey(Found(c, s, op), op.ip) == k
  }

  /** The operation is a reset that takes failures from the entry of a key. */
  predicate Takes(s: State, op: Op, k: string)
  {
    && k in s.table && !Timed(op) && op.account != "" && Count(s.table[k].accountFailures, op.account) != 0
    && (op.Reset? ==> Key(op.ip) == k)
  }

  // ----- Entries -----

  predicate WellFormed(c: Config, a: Attempt)
  {
    && a.failures > 0 && a.windowStart.Some? && (a.blockedUntil.Some? <==> a.failures >= c.maxAttempts)
    && forall x | x in a.accountFailures :: a.accountFailures[x] > 0
  }

  ghost predicate Good(c: Config, s: State)
  {
    Bounded(s.table) && forall k | k in s.table :: WellFormed(c, s.table[k])
  }

  /** A failure under a key updates its entry, as the operation finds it or not
      yet swept: sweeping drops only what a failure would start anew. */
  lemma {:induction false} HitIs(c: Config, s: State, op: Op, k: string)
    requires Hits(c, s, op, k)
    ensures var t := After(c, s, op).table; k in t && t[k] == Record(c, Lookup(s.table, k), op.account, op.now)
  {
    hide TrackedKey;
  }

  /** Any other operation leaves an entry alone or drops it, and drops it only
      past both its window and its block, or to reset it. */
  lemma {:induction false} MissIs(c: Config, s: State, op: Op, k: string)
    requires !Hits(c, s, op, k) && !Takes(s, op, k)
    ensures var t := After(c, s, op).table;
            && (k in t ==> k in s.table && t[k] == s.table[k])
            && (k in s.table && (Timed(op) ==> !Expired(c, s.table[k], op.now)) ==> k in t)
  {
    hide TrackedKey, Key, Record;
  }

  lemma {:induction false} TakenIs(c: Config, s: State, op: Op, k: string)
    requires Takes(s, op, k)
    ensures var t, left := After(c, s, op).table, Remove(c, s.table[k], op.account);
            (k in t <==> left.Some?) && (k in t ==> t[k] == left.value)
  {
    hide Remove, Key;
  }

  lemma {:induction false} RecordWellFormed(c: Config, a: Attempt, account: string, now: int)
    requires c.maxAttempts > 0 && (a == NO_ATTEMPT || WellFormed(c, a))
    ensures WellFormed(c, Record(c, a, account, now))
  {
  }

  lemma {:induction false} RemoveWellFormed(c: Config, a: Attempt, account: string)
    requires WellFormed(c, a)
    ensures Remove(c, a, account).Some? ==> WellFormed(c, Remove(c, a, account).value)
  {
  }

  lemma {:induction false} EntryStaysGood(c: Config, s: State, op: Op, k: string)
    requires c.maxAttempts > 0 && Good(c, s)
    ensures k in After(c, s, op).table ==> WellFormed(c, After(c, s, op).table[k])
  {
    hide After, WellFormed, Record, Remove, Bounded, Hits, Takes;
    if Hits(c, s, op, k) {
      HitIsFailure(c, s, op, k);
      HitIs(c, s, op, k);
      RecordWellFormed(c, Lookup(s.table, k), op.account, op.now);
    } else if Takes(s, op, k) {
      TakenIs(c, s, op, k);
      TakenFrom(s, op, k);
      RemoveWellFormed(c, s.table[k], op.account);
    } else {
      MissIs(c, s, op, k);
    }
  }

  lemma {:induction false} TakenFrom(s: State, op: Op, k: string)
    requires Takes(s, op, k)
    ensures k in s.table && !Timed(op)
  {
  }

  lemma {:induction false} TableStaysBounded(c: Config, s: State, op: Op)
    requires Bounded(s.table)
    ensures Bounded(After(c, s, op).table)
  {
    hide Bounded, Record, Remove, Key;
    match op
    case Check(ip, now) => SubtableBounded(s.table, After(c, s, op).table);
    case Failure(ip, account, now) =>
      var t := Found(c, s, op);
      SubtableBounded(s.table, t);
      PutBounded(t, TrackedKey(t, ip), Record(c, Lookup(t, TrackedKey(t, ip)), account, now));
    case Reset(ip, account) => SubtableBounded(s.table, After(c, s, op).table);
    case ResetAll(account) => SubtableBounded(s.table, After(c, s, op).table);
  }

  /** From an empty table on, every table has at most 2048 entries, each with a
      failure and a window, and blocked exactly from the limit on. */
  lemma {:induction false} RunsStayGood(c: Config, states: seq<State>, ops: seq<Op>, n: nat)
    requires c.maxAttempts > 0 && IsRun(c, states, ops) && states[0].table == map[] && n <= |ops|
    ensures Good(c, states[n]) && |states[n].table| <= MAX_ENTRIES
  {
    hide After, WellFormed;
    if n > 0 {
      RunsStayGood(c, states, ops, n - 1);
      TableStaysBounded(c, states[n - 1], ops[n - 1]);
      forall k | k in states[n].table ensures WellFormed(c, states[n].table[k]) {
        EntryStaysGood(c, states[n - 1], ops[n - 1], k);
      }
    } else {
      SubsetSize(states[0].table.Keys - {OVERFLOW_KEY}, {});
    }
    BoundedSize(states[n].table);
  }

  // ----- How many failures go by unblocked -----

  /** The failures recorded under a key in the first n operations. */
  function Failures(c: Config, states: seq<State>, ops: seq<Op>, k: string, n: nat): nat
    requires n <= |ops| < |states|
  {
    if n == 0 then 0
    else Failures(c, states, ops, k, n - 1) + if Hits(c, states[n - 1], ops[n - 1], k) then 1 else 0
  }

  /** The operations of a stretch no longer than a window, during which no reset
      takes failures from a key. */
  ghost predicate InStretch(c: Config, states: seq<State>, ops: seq<Op>, k: string, from: int)
    requires |ops| < |states|
  {
    forall i | 0 <= i < |ops| ::
      (Timed(ops[i]) ==> from <= ops[i].now <= from + c.window) && !Takes(states[i], ops[i], k)
  }

  /** The failure at i does not block the key. */
  predicate PassesAt(c: Config, states: seq<State>, ops: seq<Op>, k: string, i: nat)
    requires i < |ops| < |states|
  {
    Hits(c, states[i], ops[i], k) ==> k in states[i + 1].table && states[i + 1].table[k].blockedUntil == None
  }

  /** What n unblocked failures of a stretch leave: an entry from before it, with
      one failure more at least; one that began in it, with at most the others
      before; or none. */
  predicate Passed(c: Config, t: Table, k: string, from: int, n: nat)
  {
    || (n <= Max(c.maxAttempts - 2, 0) && (k in t ==> n == 0 || n <= t[k].failures - 1))
    || (&& k in t && t[k].windowStart.Some? && t[k].windowStart.value >= from
        && n <= t[k].failures + c.maxAttempts - 2 && t[k].failures < c.maxAttempts)
  }

  lemma {:induction false} PassedHit(c: Config, a: Attempt, t: Table, u: Table, k: string, from: int, n: nat,
                                     account: string, now: int)
    requires c.maxAttempts > 0 && Passed(c, t, k, from, n) && from <= now <= from + c.window
    requires a == Lookup(t, k) && (k in t ==> WellFormed(c, a))
    requires k in u && u[k] == Record(c, a, account, now) && u[k].blockedUntil == None
    ensures Passed(c, u, k, from, n + 1)
  {
  }

  lemma {:induction false} PassedMiss(c: Config, t: Table, u: Table, k: string, from: int, n: nat, op: Op)
    requires Passed(c, t, k, from, n) && (Timed(op) ==> from <= op.now <= from + c.window)
    requires k in u ==> k in t && u[k] == t[k]
    requires k in t && (Timed(op) ==> !Expired(c, t[k], op.now)) ==> k in u
    ensures Passed(c, u, k, from, n)
  {
  }

  lemma {:induction false} PassedStep(c: Config, s: State, t: State, op: Op, k: string, from: int, n: nat)
    requires c.maxAttempts > 0 && Good(c, s) && t == After(c, s, op) && Passed(c, s.table, k, from, n)
    requires (Timed(op) ==> from <= op.now <= from + c.window) && !Takes(s, op, k)
    requires Hits(c, s, op, k) ==> k in t.table && t.table[k].blockedUntil == None
    ensures Passed(c, t.table, k, from, n + if Hits(c, s, op, k) then 1 else 0)
  {
    hide After, Passed, Hits, Takes, WellFormed, Record, Expired;
    if Hits(c, s, op, k) {
      HitIs(c, s, op, k);
      assert op.Failure? by { HitIsFailure(c, s, op, k); }
      PassedHit(c, Lookup(s.table, k), s.table, t.table, k, from, n, op.account, op.now);
    } else {
      MissIs(c, s, op, k);
      PassedMiss(c, s.table, t.table, k, from, n, op);
    }
  }

  lemma {:induction false} HitIsFailure(c: Config, s: State, op: Op, k: string)
    requires Hits(c, s, op, k)
    ensures op.Failure?
  {
  }

  lemma {:induction false} StretchPasses(c: Config, states: seq<State>, ops: seq<Op>, k: string, from: int, n: nat)
    requires c.maxAttempts > 0 && IsRun(c, states, ops) && n <= |ops|
    requires forall i | 0 <= i < |ops| :: Good(c, states[i])
    requires InStretch(c, states, ops, k, from)
    requires forall i | 0 <= i < n :: PassesAt(c, states, ops, k, i)
    ensures Passed(c, states[n].table, k, from, Failures(c, states, ops, k, n))
  {
    hide After, Hits, Takes, Good;
    if n > 0 {
      StretchPasses(c, states, ops, k, from, n - 1);
      assert PassesAt(c, states, ops, k, n - 1);
      PassedStep(c, states[n - 1], states[n], ops[n - 1], k, from, Failures(c, states, ops, k, n - 1));
    }
  }

  /** Within any stretch of one window's length, at most twice the limit less
      three failures of a source can be recorded before one blocks it: the rest
      of an old window, and a new one but for its last failure. */
  lemma {:induction false} FailuresAreBounded(c: Config, states: seq<State>, ops: seq<Op>, k: string, from: int)
    requires c.maxAttempts > 0 && IsRun(c, states, ops)
    requires forall i | 0 <= i < |ops| :: Good(c, states[i])
    requires InStretch(c, states, ops, k, from)
    requires forall i | 0 <= i < |ops| :: PassesAt(c, states, ops, k, i)
    ensures Failures(c, states, ops, k, |ops|) <= Max(2 * c.maxAttempts - 3, 0)
  {
    hide IsRun, InStretch, Failures;
    StretchPasses(c, states, ops, k, from, |ops|);
  }

  // ----- How long a block holds -----

  predicate Unblocks(left: Option<Attempt>) { left.None? || left.value.blockedUntil.None? }

  /** The operation ends the block of a key: a reset that takes enough of its
      failures, or a failure that comes once the window is over and starts a new
      one with room for more. */
  predicate Lifts(c: Config, s: State, op: Op, k: string)
  {
    && k in s.table
    && (|| (Takes(s, op, k) && Unblocks(Remove(c, s.table[k], op.account)))
        || (Hits(c, s, op, k) && WindowExpired(c, s.table[k], op.now) && c.maxAttempts > 1))
  }

  predicate BlockedUntil(t: Table, k: string, until: int)
  {
    k in t && t[k].blockedUntil.Some? && t[k].blockedUntil.value >= until
  }

  /** Before its end, a block is lifted by exactly these. */
  lemma {:induction false} LiftedExactly(c: Config, s: State, op: Op, k: string, until: int)
    requires c.maxAttempts > 0 && Good(c, s) && BlockedUntil(s.table, k, until)
    requires Timed(op) ==> until - c.block <= op.now < until
    ensures BlockedUntil(After(c, s, op).table, k, until) <==> !Lifts(c, s, op, k)
  {
    hide After, Hits, Takes, Bounded;
    if Hits(c, s, op, k) {
      HitIs(c, s, op, k);
      HitIsFailure(c, s, op, k);
      NotBoth(c, s, op, k);
      assert WellFormed(c, s.table[k]);
    } else if Takes(s, op, k) {
      TakenIs(c, s, op, k);
      TakenFrom(s, op, k);
      RemoveKeepsBlock(c, s.table[k], op.account);
    } else {
      MissIs(c, s, op, k);
    }
  }

  lemma {:induction false} RemoveKeepsBlock(c: Config, a: Attempt, account: string)
    ensures var left := Remove(c, a, account);
            left.Some? && left.value.blockedUntil.Some? ==> left.value.blockedUntil == a.blockedUntil
  {
  }

  lemma {:induction false} NotBoth(c: Config, s: State, op: Op, k: string)
    requires Hits(c, s, op, k)
    ensures !Takes(s, op, k)
  {
  }

  /** Once blocked, a source is refused until the end of its block, unless it is
      lifted. */
  lemma {:induction false} BlocksHold(c: Config, states: seq<State>, ops: seq<Op>, k: string, until: int, n: nat)
    requires c.maxAttempts > 0 && IsRun(c, states, ops) && n <= |ops|
    requires forall i | 0 <= i < |ops| :: Good(c, states[i])
    requires BlockedUntil(states[0].table, k, until)
    requires forall i | 0 <= i < n ::
               (Timed(ops[i]) ==> until - c.block <= ops[i].now < until) && !Lifts(c, states[i], ops[i], k)
    ensures BlockedUntil(states[n].table, k, until)
    ensures forall ip, now | Key(ip) == k && now < until :: Refuses(c, states[n], ip, now)
  {
    hide After, Lifts, Good, Refuses, Key;
    if n > 0 {
      BlocksHold(c, states, ops, k, until, n - 1);
      LiftedExactly(c, states[n - 1], ops[n - 1], k, until);
    }
    forall ip, now | Key(ip) == k && now < until ensures Refuses(c, states[n], ip, now) {
      BlockedIsRefused(c, states[n], ip, until, now);
    }
  }

  lemma {:induction false} BlockedIsRefused(c: Config, s: State, ip: string, until: int, now: int)
    requires BlockedUntil(s.table, Key(ip), until) && now < until
    ensures Refuses(c, s, ip, now)
  {
    hide Key;
  }

  // ----- Sources without an entry -----

  /** A source that has no entry of its own falls under the overflow entry while
      the table is full, and is refused exactly while that is blocked. Once the
      table has shrunk it is let in, whatever was counted there. */
  lemma {:induction false} OverflowRefusesWhileFull(c: Config, s: State, ip: string, now: int)
    requires Key(ip) !in Found(c, s, Check(ip, now))
    ensures var t := Found(c, s, Check(ip, now));
            Refuses(c, s, ip, now)
            <==> |t| >= MAX_ENTRIES - 1 && OVERFLOW_KEY in t && Blocked(t[OVERFLOW_KEY], now)
  {
    hide Found, Key;
  }

  // ----- Two runs -----

  lemma {:induction false} SmallTablesTrack(c: Config, s: State, op: Op)
    requires Timed(op) && |s.table| < MAX_ENTRIES - 1
    ensures TrackedKey(Found(c, s, op), op.ip) == Key(op.ip)
  {
    hide Key, Expired;
    var t := Found(c, s, op);
    SubsetSize(t.Keys, s.table.Keys);
    assert |t.Keys| == |t| && |s.table.Keys| == |s.table|;
  }

  /** The bound is reached: with a limit of three and one failure in a window that
      is about to end, three more go by in a stretch of one window. */
  lemma {:induction false} BoundIsReached(ip: string) returns (states: seq<State>, ops: seq<Op>)
    ensures var c, k := Config(3, 10, 10), Key(ip);
            && IsRun(c, states, ops) && (forall i | 0 <= i < |ops| :: Good(c, states[i]))
            && InStretch(c, states, ops, k, 10) && (forall i | 0 <= i < |ops| :: PassesAt(c, states, ops, k, i))
            && Failures(c, states, ops, k, |ops|) == 2 * c.maxAttempts - 3
  {
    hide After, Hits, Good, Key;
    var c, k := Config(3, 10, 10), Key(ip);
    var s0 := State(map[k := Attempt(1, Some(0), None, map[])], None);
    var a, b := Failure(ip, "", 10), Failure(ip, "", 11);
    var s1 := After(c, s0, a);
    OneEntry(s0.table, k);
    OneFailure(c, s0, a);
    var s2 := After(c, s1, b);
    OneFailure(c, s1, b);
    var s3 := After(c, s2, b);
    OneFailure(c, s2, b);
    states, ops := [s0, s1, s2, s3], [a, b, b];
    assert Failures(c, states, ops, k, 1) == 1;
    assert Failures(c, states, ops, k, 2) == 2;
  }

  lemma {:induction false} OneEntry(t: Table, k: string)
    requires t.Keys == {k} && WellFormed(Config(3, 10, 10), t[k])
    ensures |t| == 1 && forall last :: Good(Config(3, 10, 10), State(t, last))
  {
    hide WellFormed;
    assert |t.Keys| == |t|;
    SubsetSize(t.Keys - {OVERFLOW_KEY}, t.Keys);
  }

  lemma {:induction false} OneFailure(c: Config, s: State, op: Op)
    requires c.maxAttempts > 0 && op.Failure? && s.table.Keys == {Key(op.ip)} && Good(c, s)
    ensures Hits(c, s, op, Key(op.ip)) && Good(c, After(c, s, op)) && After(c, s, op).table.Keys == {Key(op.ip)}
    ensures After(c, s, op).table[Key(op.ip)] == Record(c, s.table[Key(op.ip)], op.account, op.now)
  {
    hide Key, WellFormed, Record;
    var k := Key(op.ip);
    assert |s.table.Keys| == |s.table|;
    SmallTablesTrack(c, s, op);
    HitIs(c, s, op, k);
    TableStaysBounded(c, s, op);
    forall j | j in After(c, s, op).table ensures WellFormed(c, After(c, s, op).table[j]) {
      EntryStaysGood(c, s, op, j);
    }
  }

  const BUSY := Config(1, 100, 100)
  const ONCE := Attempt(1, Some(0), Some(100), map["a" := 1])

  /** So many sources with one failure each. */
  function Sources(n: nat): Table
  {
    if n == 0 then map[] else Sources(n - 1)["s" + Letters(n) := ONCE]
  }

  lemma {:induction false} SourcesAre(n: nat)
    ensures |Sources(n)| == n
    ensures forall k | k in Sources(n) :: Sources(n)[k] == ONCE && 0 < |k| <= n + 1 && k[0] == 's'
  {
    if n > 0 {
      SourcesAre(n - 1);
      var key := "s" + Letters(n);
      assert key !in Sources(n - 1);
      assert Sources(n).Keys == Sources(n - 1).Keys + {key};
      assert |Sources(n).Keys| == |Sources(n)| && |Sources(n - 1).Keys| == |Sources(n - 1)|;
    }
  }

  lemma {:induction false} ZIsNoSpace()
    ensures !IsSpace('z')
  {
  }

  lemma {:induction false} KeyOfZ()
    ensures Key("z") == "z"
  {
    hide IsSpace;
    ZIsNoSpace();
    assert TrimLeft("z") == "z" && TrimRight("z") == "z";
  }

  /** A block under the overflow entry is forgotten when the table shrinks: a
      source is refused, another account is reset everywhere, and the source is
      let in while the overflow entry is still blocked. */
  lemma {:induction false} OverflowForgets() returns (states: seq<State>, ops: seq<Op>)
    ensures IsRun(BUSY, states, ops) && |ops| == 2 && ops[0] == Failure("z", "b", 0) && ops[1] == ResetAll("a")
    ensures Refuses(BUSY, states[1], "z", 1) && !Refuses(BUSY, states[2], "z", 1)
    ensures BlockedUntil(states[2].table, OVERFLOW_KEY, 100)
  {
    hide After, Refuses, Found, Sources, Key, Letters;
    var full := Sources(MAX_ENTRIES - 1);
    SourcesAre(MAX_ENTRIES - 1);
    KeyOfZ();
    var s0 := State(full, Some(0));
    var s1, s2 := State(full[OVERFLOW_KEY := ONCE.(accountFailures := map["b" := 1])], Some(0)),
                  State(map[OVERFLOW_KEY := ONCE.(accountFailures := map["b" := 1])], Some(0));
    Overflows(full);
    Shrinks(full);
    AskedSoon(s1);
    AskedSoon(s2);
    OverflowRefusesWhileFull(BUSY, s1, "z", 1);
    OverflowRefusesWhileFull(BUSY, s2, "z", 1);
    Counted(full, s1.table[OVERFLOW_KEY]);
    states, ops := [s0, s1, s2], [Failure("z", "b", 0), ResetAll("a")];
  }

  lemma {:induction false} Counted(t: Table, over: Attempt)
    ensures |t[OVERFLOW_KEY := over]| >= |t| && |map[OVERFLOW_KEY := over]| == 1
  {
    var u := t[OVERFLOW_KEY := over];
    assert |t.Keys| == |t| && |u.Keys| == |u|;
    SubsetSize(t.Keys, u.Keys);
  }

  lemma {:induction false} AskedSoon(s: State)
    requires s.last == Some(0)
    ensures Found(BUSY, s, Check("z", 1)) == s.table
  {
  }

  lemma {:induction false} Overflows(full: Table)
    requires |full| == MAX_ENTRIES - 1 && Key("z") == "z"
    requires forall k | k in full :: full[k] == ONCE && |k| > 0 && k[0] == 's'
    ensures After(BUSY, State(full, Some(0)), Failure("z", "b", 0))
         == State(full[OVERFLOW_KEY := ONCE.(accountFailures := map["b" := 1])], Some(0))
  {
    hide Key;
    var op := Failure("z", "b", 0);
    assert Found(BUSY, State(full, Some(0)), op) == full;
    assert "z" !in full && OVERFLOW_KEY !in full;
    assert Record(BUSY, NO_ATTEMPT, "b", 0) == ONCE.(accountFailures := map["b" := 1]);
  }

  lemma {:induction false} Shrinks(full: Table)
    requires forall k | k in full :: full[k] == ONCE && |k| > 0 && k[0] == 's'
    ensures var over := ONCE.(accountFailures := map["b" := 1]);
            After(BUSY, State(full[OVERFLOW_KEY := over], Some(0)), ResetAll("a"))
            == State(map[OVERFLOW_KEY := over], Some(0))
  {
    var over := ONCE.(accountFailures := map["b" := 1]);
    assert Remove(BUSY, ONCE, "a") == None && Remove(BUSY, over, "a") == Some(over);
  }
}
