/** Parallel tool calls over one shared budget: every call walks its own path
    through the governance middleware, one atomic budget operation at a time,
    and the paths interleave in any order. */
module ToolRuns {
  import opened Text
  import opened ToolBudget

  /** Where a call stands between two of its budget operations. */
  datatype Phase =
    | Blocked               // refused; its notice is still to be accounted
    | Held(grant: Grant)    // granted; quota and parent context not yet checked
    | Denied(grant: Grant)  // quota said no; the call count is already given back
    | Running(grant: Grant) // handed to the tool
    | Empty                 // settled without text; its error notice is to be accounted
    | Done

  /** The calls of a run in the order they started. The last three fields are
      history: tokens handed to the model, calls that reached the tool, and
      notices accounted (with the tokens those took). */
  datatype State = State(
    budget: Budget,
    calls: seq<Phase>,
    delivered: int,
    reached: int,
    notices: int,
    noticeTokens: int)

  function GrantTokens(p: Phase): int
  {
    if p.Held? || p.Denied? || p.Running? then p.grant.tokens else 0
  }

  function SkillTokens(p: Phase): int
  {
    if (p.Held? || p.Denied? || p.Running?) && p.grant.skill then p.grant.tokens else 0
  }

  function Outstanding(calls: seq<Phase>): int
  {
    if calls == [] then 0 else Outstanding(calls[..|calls| - 1]) + GrantTokens(calls[|calls| - 1])
  }

  function OutstandingSkill(calls: seq<Phase>): int
  {
    if calls == [] then 0 else OutstandingSkill(calls[..|calls| - 1]) + SkillTokens(calls[|calls| - 1])
  }

  /** Calls that are counted but have not reached the tool. */
  function Waiting(calls: seq<Phase>): int
  {
    if calls == [] then 0 else Waiting(calls[..|calls| - 1]) + if calls[|calls| - 1].Held? then 1 else 0
  }

  function Init(l: Limits): State { State(NewBudget(l), [], 0, 0, 0, 0) }

  datatype Step =
    | Start(skill: bool)
    | DropNotice(id: nat)                          // parent canceled while blocked
    | AccountNotice(id: nat, tokens: int)
    | CancelHeld(id: nat)                          // parent canceled at quota, or before the tool
    | QuotaDenies(id: nat)
    | FinishDenied(id: nat, tokens: int)
    | ReachTool(id: nat)
    | CancelRunning(id: nat)
    | FinishRunning(id: nat, tokens: int, blank: bool)
    | NoOutput(id: nat)
    | ModelTurn(rounds: int, modelCalls: int)

  /** A settled result is charged its true size, which is within its grant
      whenever the notice that replaces an unfittable result is. */
  predicate FitsGrant(tokens: int, g: Grant) { 0 <= tokens <= g.tokens }

  /** What accounting a notice may charge: at most its limit, nothing if that
      is used up, and something otherwise, since a notice is never empty. */
  predicate NoticeCharge(b: Budget, tokens: int)
  {
    if NoticeLimit(b) <= 0 then tokens == 0 else 0 < tokens <= NoticeLimit(b)
  }

  function AfterNotice(b: Budget, tokens: int): Budget
  {
    if NoticeLimit(b) <= 0 then b else Account(b, tokens)
  }

  predicate Enabled(s: State, step: Step)
  {
    match step
    case Start(_) => true
    case DropNotice(i) => i < |s.calls| && s.calls[i].Blocked?
    case AccountNotice(i, t) => i < |s.calls| && (s.calls[i].Blocked? || s.calls[i].Empty?) && NoticeCharge(s.budget, t)
    case CancelHeld(i) => i < |s.calls| && s.calls[i].Held?
    case QuotaDenies(i) => i < |s.calls| && s.calls[i].Held?
    case FinishDenied(i, t) => i < |s.calls| && s.calls[i].Denied? && FitsGrant(t, s.calls[i].grant)
    case ReachTool(i) => i < |s.calls| && s.calls[i].Held?
    case CancelRunning(i) => i < |s.calls| && s.calls[i].Running?
    case FinishRunning(i, t, _) => i < |s.calls| && s.calls[i].Running? && FitsGrant(t, s.calls[i].grant)
    case NoOutput(i) => i < |s.calls| && s.calls[i].Running?
    case ModelTurn(_, _) => true
  }

  function Next(s: State, step: Step): State
    requires Enabled(s, step)
  {
    match step
    case Start(skill) =>
      var p := Prepare(s.budget, skill);
      s.(budget := p.after, calls := s.calls + [if p.Granted? then Held(p.grant) else Blocked])
    case DropNotice(i) => s.(calls := s.calls[i := Done])
    case AccountNotice(i, t) =>
      s.(budget := AfterNotice(s.budget, t), calls := s.calls[i := Done],
         delivered := s.delivered + t, notices := s.notices + 1, noticeTokens := s.noticeTokens + t)
    case CancelHeld(i) => s.(budget := Cancel(s.budget, s.calls[i].grant, true), calls := s.calls[i := Done])
    case QuotaDenies(i) => s.(budget := ReleaseCall(s.budget), calls := s.calls[i := Denied(s.calls[i].grant)])
    case FinishDenied(i, t) =>
      s.(budget := Finish(s.budget, s.calls[i].grant, t), calls := s.calls[i := Done], delivered := s.delivered + t)
    case ReachTool(i) => s.(calls := s.calls[i := Running(s.calls[i].grant)], reached := s.reached + 1)
    case CancelRunning(i) => s.(budget := Cancel(s.budget, s.calls[i].grant, false), calls := s.calls[i := Done])
    case FinishRunning(i, t, blank) =>
      s.(budget := Finish(s.budget, s.calls[i].grant, t), calls := s.calls[i := if blank then Empty else Done],
         delivered := if blank then s.delivered else s.delivered + t)
    case NoOutput(i) => s.(budget := Cancel(s.budget, s.calls[i].grant, false), calls := s.calls[i := Empty])
    case ModelTurn(rounds, calls) => s.(budget := BeforeModel(s.budget, rounds, calls))
  }

  /** A run: a starting state and what each step of it did. */
  ghost predicate IsRun(l: Limits, states: seq<State>, steps: seq<Step>)
  {
    && |states| == |steps| + 1 && states[0] == Init(l)
    && forall i | 0 <= i < |steps| :: Enabled(states[i], steps[i]) && states[i + 1] == Next(states[i], steps[i])
  }

  /** The call a step moves on. One that starts, or a model turn, moves none of
      those that are there. */
  predicate Moves(step: Step, id: nat)
  {
    match step
    case Start(_) => false
    case ModelTurn(_, _) => false
    case DropNotice(i) => i == id
    case AccountNotice(i, _) => i == id
    case CancelHeld(i) => i == id
    case QuotaDenies(i) => i == id
    case FinishDenied(i, _) => i == id
    case ReachTool(i) => i == id
    case CancelRunning(i) => i == id
    case FinishRunning(i, _, _) => i == id
    case NoOutput(i) => i == id
  }

  /** Where a list of steps leads, if it can be gone. */
  function Walk(s: State, steps: seq<Step>): Option<State>
  {
    if steps == [] then Some(s)
    else
      var before := Walk(s, steps[..|steps| - 1]);
      if before.Some? && Enabled(before.value, steps[|steps| - 1])
      then Some(Next(before.value, steps[|steps| - 1])) else None
  }

  /** The steps of one call among those of all. */
  function By(steps: seq<Step>, id: nat): seq<Step>
  {
    if steps == [] then []
    else By(steps[..|steps| - 1], id) + if Moves(steps[|steps| - 1], id) then [steps[|steps| - 1]] else []
  }

  lemma {:induction false} WalkOn(s: State, steps: seq<Step>, step: Step)
    ensures var t := Walk(s, steps);
            Walk(s, steps + [step])
            == if t.Some? && Enabled(t.value, step) then Some(Next(t.value, step)) else None
    ensures forall id: nat :: By(steps + [step], id) == By(steps, id) + if Moves(step, id) then [step] else []
  {
    hide Enabled, Next, Moves;
    assert (steps + [step])[..|steps|] == steps;
  }

  lemma {:induction false} WalkConcat(s: State, a: seq<Step>, b: seq<Step>)
    requires Walk(s, a).Some?
    ensures Walk(s, a + b) == Walk(Walk(s, a).value, b)
  {
    hide Enabled, Next;
    if b == [] {
      assert a + b == a;
    } else {
      var n := |b| - 1;
      WalkConcat(s, a, b[..n]);
      assert (a + b)[..|a + b| - 1] == a + b[..n];
    }
  }

  /** A step moves only its own call. */
  lemma {:induction false} OthersStay(s: State, step: Step, id: nat)
    requires Enabled(s, step) && !Moves(step, id) && id < |s.calls|
    ensures var t := Next(s, step); id < |t.calls| && t.calls[id] == s.calls[id]
  {
  }

  predicate Sane(l: Limits) { 0 <= l.maxContextTokens && 0 <= l.maxSkillTokens && 0 <= l.maxCalls }

  predicate GrantsAreWhole(calls: seq<Phase>)
  {
    forall i | 0 <= i < |calls| && (calls[i].Held? || calls[i].Denied? || calls[i].Running?) ::
        calls[i].grant.tokens >= MIN_GRANT_TOKENS
  }

  /** The reserved counters are exactly the outstanding grants. */
  predicate Conserved(s: State)
  {
    && s.budget.contextReserved == Outstanding(s.calls)
    && s.budget.skillReserved == OutstandingSkill(s.calls)
    && s.budget.actualCalls == s.reached + Waiting(s.calls)
  }

  predicate WithinLimits(s: State)
  {
    var b := s.budget;
    && 0 <= b.contextUsed && 0 <= b.contextReserved && b.contextUsed + b.contextReserved <= b.limits.maxContextTokens
    && 0 <= b.skillUsed && 0 <= b.skillReserved && b.skillUsed + b.skillReserved <= b.limits.maxSkillTokens
    && b.actualCalls <= b.limits.maxCalls
    && s.delivered <= b.contextUsed
  }

  /** Grants never reach into the reserve, and a notice takes one share of it. */
  predicate ReserveKept(s: State)
  {
    var b := s.budget;
    && 0 <= s.noticeTokens <= s.notices * PerNotice(b.limits) && 0 <= s.notices
    && b.contextUsed - s.noticeTokens + b.contextReserved <= Max(UsableMaximum(b.limits), 0)
  }

  predicate Inv(s: State)
  {
    Sane(s.budget.limits) && GrantsAreWhole(s.calls) && Conserved(s) && WithinLimits(s) && ReserveKept(s)
        && 0 <= s.reached
  }

  lemma {:induction false} OutstandingAppend(calls: seq<Phase>, p: Phase)
    ensures Outstanding(calls + [p]) == Outstanding(calls) + GrantTokens(p)
    ensures OutstandingSkill(calls + [p]) == OutstandingSkill(calls) + SkillTokens(p)
    ensures Waiting(calls + [p]) == Waiting(calls) + if p.Held? then 1 else 0
  {
    assert (calls + [p])[..|calls|] == calls;
  }

  /** Settling one call changes each sum by that call's share only. */
  lemma {:induction false} OutstandingUpdate(calls: seq<Phase>, i: nat, p: Phase)
    requires i < |calls|
    ensures Outstanding(calls[i := p]) == Outstanding(calls) - GrantTokens(calls[i]) + GrantTokens(p)
    ensures OutstandingSkill(calls[i := p]) == OutstandingSkill(calls) - SkillTokens(calls[i]) + SkillTokens(p)
    ensures Waiting(calls[i := p]) == Waiting(calls) - (if calls[i].Held? then 1 else 0) + if p.Held? then 1 else 0
  {
    var n := |calls| - 1;
    if i == n {
      assert calls[i := p][..n] == calls[..n];
    } else {
      OutstandingUpdate(calls[..n], i, p);
      assert calls[i := p][..n] == calls[..n][i := p];
    }
  }

  /** The others' shares are never negative, so no clamp can bite. */
  lemma {:induction false} ShareOfSum(calls: seq<Phase>, i: nat)
    requires i < |calls| && GrantsAreWhole(calls)
    ensures GrantTokens(calls[i]) <= Outstanding(calls) && SkillTokens(calls[i]) <= OutstandingSkill(calls)
    ensures 0 <= Waiting(calls) && (calls[i].Held? ==> 1 <= Waiting(calls))
  {
    var n := |calls| - 1;
    SumsNonNegative(calls[..n]);
    if i < n {
      ShareOfSum(calls[..n], i);
    }
  }

  lemma {:induction false} SumsNonNegative(calls: seq<Phase>)
    requires GrantsAreWhole(calls)
    ensures 0 <= Outstanding(calls) && 0 <= OutstandingSkill(calls) && 0 <= Waiting(calls)
  {
    if calls != [] {
      SumsNonNegative(calls[..|calls| - 1]);
    }
  }

  lemma {:induction false} InitInv(l: Limits)
    requires Sane(l)
    ensures Inv(Init(l))
  {
  }

  lemma {:induction false} StartInv(s: State, skill: bool)
    requires Inv(s)
    ensures Inv(Next(s, Start(skill)))
  {
    hide PerNotice, TerminalReserve, Outstanding, OutstandingSkill, Waiting;
    var p := Prepare(s.budget, skill);
    OutstandingAppend(s.calls, if p.Granted? then Held(p.grant) else Blocked);
  }

  /** The notice's limit is what the reserve has left, so it cannot overrun. */
  lemma {:induction false} NoticeInv(s: State, i: nat, t: int)
    requires Inv(s) && Enabled(s, AccountNotice(i, t))
    ensures Inv(Next(s, AccountNotice(i, t)))
  {
    hide TerminalReserve, PerNotice, Outstanding, OutstandingSkill, Waiting;
    OutstandingUpdate(s.calls, i, Done);
    OneMore(s.notices, PerNotice(s.budget.limits));
  }

  lemma {:induction false} OneMore(n: int, share: int)
    ensures (n + 1) * share == n * share + share
  {
  }

  lemma {:induction false} CancelInv(s: State, i: nat, step: Step)
    requires Inv(s) && Enabled(s, step)
    requires step in {CancelHeld(i), CancelRunning(i), NoOutput(i), DropNotice(i)}
    ensures Inv(Next(s, step))
  {
    hide PerNotice, TerminalReserve, Outstanding, OutstandingSkill, Waiting;
    ShareOfSum(s.calls, i);
    OutstandingUpdate(s.calls, i, if step.NoOutput? then Empty else Done);
  }

  lemma {:induction false} FinishInv(s: State, i: nat, step: Step)
    requires Inv(s) && Enabled(s, step)
    requires step.FinishDenied? || step.FinishRunning?
    requires i == step.id
    ensures Inv(Next(s, step))
  {
    hide PerNotice, TerminalReserve, Outstanding, OutstandingSkill, Waiting;
    ShareOfSum(s.calls, i);
    OutstandingUpdate(s.calls, i, if step.FinishRunning? && step.blank then Empty else Done);
  }

  lemma {:induction false} MoveInv(s: State, i: nat, step: Step)
    requires Inv(s) && Enabled(s, step)
    requires step in {QuotaDenies(i), ReachTool(i)}
    ensures Inv(Next(s, step))
  {
    hide PerNotice, TerminalReserve, Outstanding, OutstandingSkill, Waiting;
    ShareOfSum(s.calls, i);
    OutstandingUpdate(s.calls, i, if step.QuotaDenies? then Denied(s.calls[i].grant) else Running(s.calls[i].grant));
  }

  /** Every step of every call, whatever the others have done, keeps the budget. */
  lemma {:induction false} NextInv(s: State, step: Step)
    requires Inv(s) && Enabled(s, step)
    ensures Inv(Next(s, step))
  {
    hide Inv, Next;
    match step
    case Start(skill) => StartInv(s, skill);
    case DropNotice(i) => CancelInv(s, i, step);
    case AccountNotice(i, t) => NoticeInv(s, i, t);
    case CancelHeld(i) => CancelInv(s, i, step);
    case QuotaDenies(i) => MoveInv(s, i, step);
    case FinishDenied(i, _) => FinishInv(s, i, step);
    case ReachTool(i) => MoveInv(s, i, step);
    case CancelRunning(i) => CancelInv(s, i, step);
    case FinishRunning(i, _, _) => FinishInv(s, i, step);
    case NoOutput(i) => CancelInv(s, i, step);
    case ModelTurn(_, _) => ModelTurnInv(s, step);
  }

  lemma {:induction false} ModelTurnInv(s: State, step: Step)
    requires Inv(s) && step.ModelTurn?
    ensures Inv(Next(s, step))
  {
  }

  /** Over every interleaving: the reserved counters are the outstanding grants,
      no limit is passed, and all texts handed to the model together stay
      within the context budget. */
  lemma {:induction false} RunsKeepBudget(l: Limits, states: seq<State>, steps: seq<Step>, n: nat)
    requires Sane(l) && IsRun(l, states, steps) && n < |states|
    ensures Inv(states[n]) && states[n].budget.limits == l
    ensures states[n].delivered <= l.maxContextTokens
  {
    hide Inv, Next;
    if n == 0 {
      InitInv(l);
    } else {
      RunsKeepBudget(l, states, steps, n - 1);
      assert Enabled(states[n - 1], steps[n - 1]);
      NextInv(states[n - 1], steps[n - 1]);
      LimitsFixed(states[n - 1], steps[n - 1]);
    }
    DeliveredWithinContext(states[n]);
  }

  /** A walk from anywhere keeps the invariant and the limits. */
  lemma {:induction false} WalksKeepInv(s: State, steps: seq<Step>)
    requires Inv(s) && Walk(s, steps).Some?
    ensures var e := Walk(s, steps).value;
            Inv(e) && e.budget.limits == s.budget.limits && e.delivered <= s.budget.limits.maxContextTokens
  {
    hide Inv, Next, Enabled;
    if steps == [] {
      DeliveredWithinContext(s);
    } else {
      var n := |steps| - 1;
      WalksKeepInv(s, steps[..n]);
      var before := Walk(s, steps[..n]).value;
      NextInv(before, steps[n]);
      LimitsFixed(before, steps[n]);
      DeliveredWithinContext(Next(before, steps[n]));
    }
  }

  /** The walks from the start are the runs. */
  lemma {:induction false} RunsAreWalks(l: Limits, states: seq<State>, steps: seq<Step>, n: nat)
    requires IsRun(l, states, steps) && n <= |steps|
    ensures Walk(Init(l), steps[..n]) == Some(states[n])
  {
    hide Enabled, Next;
    if n > 0 {
      RunsAreWalks(l, states, steps, n - 1);
      assert steps[..n][..n - 1] == steps[..n - 1];
    }
  }

  lemma {:induction false} WalksAreRuns(l: Limits, steps: seq<Step>) returns (states: seq<State>)
    requires Walk(Init(l), steps).Some?
    ensures IsRun(l, states, steps) && states[|steps|] == Walk(Init(l), steps).value
  {
    hide Enabled, Next;
    if steps == [] {
      states := [Init(l)];
    } else {
      var before := WalksAreRuns(l, steps[..|steps| - 1]);
      states := before + [Walk(Init(l), steps).value];
    }
  }

  lemma {:induction false} LimitsFixed(s: State, step: Step)
    requires Enabled(s, step)
    ensures Next(s, step).budget.limits == s.budget.limits
    ensures s.budget.forceFinal ==> Next(s, step).budget.forceFinal
  {
  }

  lemma {:induction false} DeliveredWithinContext(s: State)
    requires Inv(s)
    ensures s.delivered <= s.budget.limits.maxContextTokens
  {
  }

  /** When no call is in flight nothing is reserved, and the counted calls are
      exactly those that reached the tool: every path settled its grant once. */
  lemma {:induction false} QuietRunsAreSettled(s: State)
    requires Inv(s) && forall i | 0 <= i < |s.calls| :: s.calls[i].Done?
    ensures s.budget.contextReserved == 0 && s.budget.skillReserved == 0
    ensures s.budget.actualCalls == s.reached <= s.budget.limits.maxCalls
  {
    NothingOutstanding(s.calls);
  }

  lemma {:induction false} NothingOutstanding(calls: seq<Phase>)
    requires forall i | 0 <= i < |calls| :: calls[i].Done?
    ensures Outstanding(calls) == 0 && OutstandingSkill(calls) == 0 && Waiting(calls) == 0
  {
    if calls != [] {
      NothingOutstanding(calls[..|calls| - 1]);
    }
  }

  /** The subtraction clamps of cancel and finish never change a result. */
  lemma {:induction false} ClampsNeverBite(s: State, i: nat)
    requires Inv(s) && i < |s.calls| && (s.calls[i].Held? || s.calls[i].Denied? || s.calls[i].Running?)
    ensures s.budget.contextReserved - s.calls[i].grant.tokens >= 0
    ensures s.calls[i].grant.skill ==> s.budget.skillReserved - s.calls[i].grant.tokens >= 0
    ensures s.calls[i].Held? ==> s.budget.actualCalls - 1 >= 0
  {
    hide Outstanding, OutstandingSkill, Waiting;
    ShareOfSum(s.calls, i);
  }

  /** Once the final answer is forced it stays forced and every later call is
      refused: no grant is issued in the rest of the run. */
  lemma {:induction false} NoGrantAfterForceFinal(l: Limits, states: seq<State>, steps: seq<Step>, i: nat, j: nat)
    requires IsRun(l, states, steps) && i <= j < |steps| && states[i].budget.forceFinal
    ensures states[j].budget.forceFinal
    ensures steps[j].Start? ==>
        states[j + 1].calls == states[j].calls + [Blocked] && states[j + 1].budget == states[j].budget
  {
    hide Next;
    if i < j {
      NoGrantAfterForceFinal(l, states, steps, i, j - 1);
      LimitsFixed(states[j - 1], steps[j - 1]);
    }
    if steps[j].Start? {
      RefusedWhenFinal(states[j], steps[j].skill);
    }
  }

  lemma {:induction false} RefusedWhenFinal(s: State, skill: bool)
    requires s.budget.forceFinal
    ensures Next(s, Start(skill)) == s.(calls := s.calls + [Blocked])
  {
  }

  /** The reserve is worth that many notices: while fewer than reserve divided
      by one share were accounted, the next one still gets a whole share. */
  lemma {:induction false} ReserveFeedsNotices(s: State)
    requires Inv(s) && s.budget.limits.maxContextTokens > 0
    requires s.notices < TerminalReserve(s.budget.limits.maxContextTokens) / PerNotice(s.budget.limits)
    ensures NoticeLimit(s.budget) == PerNotice(s.budget.limits)
  {
    hide Conserved, GrantsAreWhole;
    var l := s.budget.limits;
    var reserve, share := TerminalReserve(l.maxContextTokens), PerNotice(l);
    ShareTimes(s.notices, reserve, share);
  }

  lemma {:induction false} ShareTimes(n: int, reserve: int, share: int)
    requires share > 0 && reserve >= 0 && 0 <= n < reserve / share
    ensures n * share + share <= reserve
  {
    var q := reserve / share;
    assert q * share <= reserve;
    assert (n + 1) * share <= q * share;
  }

  // ----- When a run is over -----

  /** The counted calls are at their limit, or nothing is reserved and what is
      left beside the reserve does not make a grant. */
  predicate Spent(b: Budget)
  {
    || b.actualCalls >= b.limits.maxCalls
    || (b.contextReserved == 0 && Min(b.limits.maxResultTokens, UsableMaximum(b.limits) - b.contextUsed) < 512)
  }

  /** A model turn that has used up its rounds or calls. */
  predicate AtLimit(l: Limits, step: Step)
  {
    step.ModelTurn? && (step.rounds >= l.maxRounds || step.modelCalls >= l.maxCalls)
  }

  lemma {:induction false} SkillWithinContext(calls: seq<Phase>)
    requires GrantsAreWhole(calls)
    ensures OutstandingSkill(calls) <= Outstanding(calls)
  {
    if calls != [] {
      SkillWithinContext(calls[..|calls| - 1]);
    }
  }

  /** Exactly when a step forces the final answer that was not forced before. */
  lemma {:induction false} ForcedExactly(s: State, step: Step)
    requires Inv(s) && Enabled(s, step) && !s.budget.forceFinal
    ensures var b, t := s.budget, Next(s, step).budget;
            t.forceFinal
            <==> match step
                 case Start(skill) =>
                   !(skill && b.skillBlocked) && Spent(b) && (skill ==> b.actualCalls >= b.limits.maxCalls)
                 case ModelTurn(_, _) => AtLimit(b.limits, step) || b.actualCalls >= b.limits.maxCalls
                 case AccountNotice(_, _) =>
                   NoticeLimit(b) > 0 && t.contextReserved == 0 && b.limits.maxContextTokens - t.contextUsed < 512
                 case _ =>
                   (step.FinishDenied? || step.FinishRunning?)
                   && t.contextReserved == 0 && b.limits.maxContextTokens - t.contextUsed < 512
  {
    hide Outstanding, OutstandingSkill, Waiting, TerminalReserve, PerNotice;
    SkillWithinContext(s.calls);
  }

  lemma {:induction false} ForcedBySpending(s: State, step: Step)
    requires Inv(s) && Enabled(s, step) && !s.budget.forceFinal && Next(s, step).budget.forceFinal
    ensures Spent(s.budget) || Spent(Next(s, step).budget) || AtLimit(s.budget.limits, step)
  {
    hide Inv, Next, Enabled, NoticeLimit, TerminalReserve;
    ForcedExactly(s, step);
    LimitsFixed(s, step);
  }

  /** The run was spent at some point up to n, or a model turn before was at a
      limit. */
  ghost predicate WasSpent(l: Limits, states: seq<State>, steps: seq<Step>, n: nat)
    requires IsRun(l, states, steps) && n <= |steps|
  {
    || (exists i | 0 <= i <= n :: Spent(states[i].budget))
    || (exists i | 0 <= i < n :: AtLimit(l, steps[i]))
  }

  /** The final answer is forced for no other reason. */
  lemma {:induction false} ForcedOnlyWhenSpent(l: Limits, states: seq<State>, steps: seq<Step>, n: nat)
    requires Sane(l) && IsRun(l, states, steps) && n <= |steps| && states[n].budget.forceFinal
    ensures WasSpent(l, states, steps, n)
  {
    hide Inv, Next, Enabled, Spent, AtLimit;
    if n > 0 {
      if states[n - 1].budget.forceFinal {
        ForcedOnlyWhenSpent(l, states, steps, n - 1);
      } else {
        RunsKeepBudget(l, states, steps, n - 1);
        ForcedBySpending(states[n - 1], steps[n - 1]);
      }
    }
  }

  /** What a call is granted: the most a result may take, what is neither used
      nor reserved beside the reserve, and for a skill what its own budget has
      left, whichever is least; nothing less than 512 tokens. */
  lemma {:induction false} GrantIs(b: Budget, skill: bool)
    ensures var room := Min(b.limits.maxResultTokens, UsableMaximum(b.limits) - b.contextUsed - b.contextReserved);
            var most := if skill then Min(room, b.limits.maxSkillTokens - b.skillUsed - b.skillReserved) else room;
            var p := Prepare(b, skill);
            && (p.Granted? <==>
              !b.forceFinal && !(skill && b.skillBlocked) && b.actualCalls < b.limits.maxCalls && most >= 512)
            && (p.Granted? ==> p.grant == Grant(most, skill))
  {
    hide TerminalReserve;
  }

  /** As long as a run was never spent, an ordinary call with no other in flight
      is granted, and gets all it may have. */
  lemma {:induction false} UnspentRunsGoOn(l: Limits, states: seq<State>, steps: seq<Step>, n: nat)
    requires Sane(l) && IsRun(l, states, steps) && n <= |steps| && !WasSpent(l, states, steps, n)
    requires states[n].budget.contextReserved == 0
    ensures var tokens := Min(l.maxResultTokens, UsableMaximum(l) - states[n].budget.contextUsed);
            tokens >= 512 && Next(states[n], Start(false)).calls == states[n].calls + [Held(Grant(tokens, false))]
  {
    hide Inv, Prepare, AtLimit, TerminalReserve;
    if states[n].budget.forceFinal {
      ForcedOnlyWhenSpent(l, states, steps, n);
    }
    RunsKeepBudget(l, states, steps, n);
    assert !Spent(states[n].budget);
    GrantIs(states[n].budget, false);
  }

  /** Skills are refused for good only once nothing is reserved for one and what
      one could be granted is less than 512 tokens, for whatever reason. */
  predicate SkillsSpent(b: Budget)
  {
    b.skillReserved == 0
    && Min(Min(b.limits.maxResultTokens, UsableMaximum(b.limits) - b.contextUsed - b.contextReserved),
           b.limits.maxSkillTokens - b.skillUsed) < 512
  }

  lemma {:induction false} SkillsBlockedBySpending(s: State, step: Step)
    requires Enabled(s, step) && !s.budget.skillBlocked && Next(s, step).budget.skillBlocked
    ensures SkillsSpent(s.budget) || SkillsSpent(Next(s, step).budget)
  {
    hide TerminalReserve;
  }

  lemma {:induction false} SkillsBlockedOnlyWhenSpent(l: Limits, states: seq<State>, steps: seq<Step>, n: nat)
    requires IsRun(l, states, steps) && n <= |steps| && states[n].budget.skillBlocked
    ensures exists i | 0 <= i <= n :: SkillsSpent(states[i].budget)
  {
    hide Next, Enabled, SkillsSpent;
    if n > 0 {
      if states[n - 1].budget.skillBlocked {
        SkillsBlockedOnlyWhenSpent(l, states, steps, n - 1);
      } else {
        SkillsBlockedBySpending(states[n - 1], steps[n - 1]);
      }
    }
  }

  /** So ordinary calls in flight can block skills for the rest of a run that has
      not used one token for a skill: four of them take all that is left. */
  lemma {:induction false} ParallelCallsBlockSkills() returns (e: State)
    ensures Walk(Init(NewLimits(0)), [Start(false), Start(false), Start(false), Start(false), Start(true)]) == Some(e)
    ensures e.budget.skillBlocked && e.budget.skillUsed == 0 && e.budget.skillReserved == 0 && !e.budget.forceFinal
    ensures |e.calls| == 5 && e.calls[4] == Blocked && forall k | 0 <= k < 4 :: e.calls[k].Held?
  {
    hide Next;
    var s0 := Init(NewLimits(0));
    DefaultLimits();
    assert Walk(s0, []) == Some(s0);
    var s1 := Grants(s0, [], 0);
    assert [] + [Start(false)] == [Start(false)];
    var s2 := Grants(s0, [Start(false)], 1);
    var s3 := Grants(s0, [Start(false), Start(false)], 2);
    var s4 := Grants(s0, [Start(false), Start(false), Start(false)], 3);
    var four := [Start(false), Start(false), Start(false), Start(false)];
    assert [Start(false), Start(false), Start(false)] + [Start(false)] == four;
    WalkOn(s0, four, Start(true));
    assert four + [Start(true)] == [Start(false), Start(false), Start(false), Start(false), Start(true)];
    e := Next(s4, Start(true));
    SkillFindsNothing(s4);
  }

  lemma {:induction false} DefaultLimits()
    ensures NewLimits(0) == Limits(8, 24, 4000, 16000, 8000) && UsableMaximum(NewLimits(0)) == 15424
  {
  }

  /** n calls hold what they were granted under the default limits. */
  predicate Holding(s: State, n: nat)
  {
    && s.budget == Budget(NewLimits(0), 0, Min(4000 * n, 15424), 0, 0, false, false, n)
    && |s.calls| == n && forall k | 0 <= k < n :: s.calls[k].Held?
  }

  lemma {:induction false} Grants(s0: State, past: seq<Step>, n: nat) returns (e: State)
    requires n < 4 && Walk(s0, past).Some? && Holding(Walk(s0, past).value, n)
    ensures Walk(s0, past + [Start(false)]) == Some(e) && Holding(e, n + 1)
  {
    hide Walk;
    var s := Walk(s0, past).value;
    DefaultLimits();
    WalkOn(s0, past, Start(false));
    e := Next(s, Start(false));
    GrantIs(s.budget, false);
  }

  lemma {:induction false} SkillFindsNothing(s: State)
    requires Holding(s, 4)
    ensures var e := Next(s, Start(true));
            && e.budget == s.budget.(skillBlocked := true) && e.calls == s.calls + [Blocked]
  {
    DefaultLimits();
  }

  // ----- What is charged -----

  /** The tokens a step charges. */
  function Charge(step: Step): int
  {
    match step
    case AccountNotice(_, tokens) => tokens
    case FinishDenied(_, tokens) => tokens
    case FinishRunning(_, tokens, _) => tokens
    case _ => 0
  }

  function Charges(steps: seq<Step>): int
  {
    if steps == [] then 0 else Charges(steps[..|steps| - 1]) + Charge(steps[|steps| - 1])
  }

  /** The step settles the grant of a skill. */
  predicate SettlesSkill(s: State, step: Step)
    requires Enabled(s, step)
  {
    (step.FinishDenied? || step.FinishRunning?) && s.calls[step.id].grant.skill
  }

  function SkillCharges(states: seq<State>, steps: seq<Step>, n: nat): int
    requires n <= |steps| < |states| && forall i | 0 <= i < n :: Enabled(states[i], steps[i])
  {
    if n == 0 then 0
    else SkillCharges(states, steps, n - 1)
         + if SettlesSkill(states[n - 1], steps[n - 1]) then Charge(steps[n - 1]) else 0
  }

  /** In every run the tokens used are those charged, one by one, and so are the
      tokens used for skills. */
  lemma {:induction false} UsedIsCharged(l: Limits, states: seq<State>, steps: seq<Step>, n: nat)
    requires IsRun(l, states, steps) && n <= |steps|
    ensures states[n].budget.contextUsed == Charges(steps[..n])
    ensures states[n].budget.skillUsed == SkillCharges(states, steps, n)
  {
    hide Next, Enabled, SettlesSkill;
    if n > 0 {
      UsedIsCharged(l, states, steps, n - 1);
      assert steps[..n][..n - 1] == steps[..n - 1];
      StepCharges(states[n - 1], steps[n - 1]);
    }
  }

  lemma {:induction false} StepCharges(s: State, step: Step)
    requires Enabled(s, step)
    ensures Next(s, step).budget.contextUsed == s.budget.contextUsed + Charge(step)
    ensures Next(s, step).budget.skillUsed
         == s.budget.skillUsed + if SettlesSkill(s, step) then Charge(step) else 0
  {
    hide TerminalReserve, PerNotice;
  }
}
