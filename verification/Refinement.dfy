/** The web page summarizer of one agent run: two provider slots and a breaker
    shared by any number of concurrent callers. */
module Refinement {
  import opened Text

  const MAX_CONCURRENCY := 2

  /** Where one Summarize call stands. Inside marks a caller between its check of
      the breaker and the end of its provider call. */
  datatype Caller =
    | Waiting                // wants a slot
    | Acquired               // holds a slot, breaker not yet checked
    | Inside                 // holds a slot, found the breaker closed
    | AtProvider             // holds a slot, handed to the provider
    | Failed(canceled: bool) // holds a slot, provider failed; breaker not yet marked
    | Leaving                // holds a slot, about to release it
    | Gone

  /** The shared state, the callers in the order they arrived, and history: the
      provider calls started, the uncanceled failures, and the slots taken and
      given back by each caller. */
  datatype State = State(
    slots: int,
    down: bool,
    callers: seq<Caller>,
    failures: int,
    acquired: seq<int>,
    released: seq<int>)

  function Init(): State { State(0, false, [], 0, [], []) }

  datatype Step =
    | Arrive
    | GiveUp(id: nat)                    // context done while waiting
    | Acquire(id: nat)
    | LeaveCanceled(id: nat)             // context done right after acquiring
    | FindDown(id: nat)
    | FindUp(id: nat)
    | CoolingDown(id: nat)               // persistent cooldown, or its lookup failed
    | CallProvider(id: nat)
    | Succeed(id: nat)
    | Fail(id: nat, canceled: bool)      // stream error or empty summary
    | Mark(id: nat)
    | Release(id: nat)

  predicate Enabled(s: State, step: Step)
  {
    match step
    case Arrive => true
    case GiveUp(i) => i < |s.callers| && s.callers[i].Waiting?
    case Acquire(i) => i < |s.callers| && s.callers[i].Waiting? && s.slots < MAX_CONCURRENCY
    case LeaveCanceled(i) => i < |s.callers| && s.callers[i].Acquired?
    case FindDown(i) => i < |s.callers| && s.callers[i].Acquired? && s.down
    case FindUp(i) => i < |s.callers| && s.callers[i].Acquired? && !s.down
    case CoolingDown(i) => i < |s.callers| && s.callers[i].Inside?
    case CallProvider(i) => i < |s.callers| && s.callers[i].Inside?
    case Succeed(i) => i < |s.callers| && s.callers[i].AtProvider?
    case Fail(i, _) => i < |s.callers| && s.callers[i].AtProvider?
    case Mark(i) => i < |s.callers| && s.callers[i].Failed?
    case Release(i) => i < |s.callers| && s.callers[i].Leaving?
  }

  function Move(s: State, i: nat, c: Caller): State
    requires i < |s.callers|
  {
    s.(callers := s.callers[i := c])
  }

  function Next(s: State, step: Step): State
    requires Enabled(s, step) && |s.acquired| == |s.released| == |s.callers|
  {
    match step
    case Arrive => s.(callers := s.callers + [Waiting], acquired := s.acquired + [0], released := s.released + [0])
    case GiveUp(i) => Move(s, i, Gone)
    case Acquire(i) => Move(s, i, Acquired).(slots := s.slots + 1, acquired := s.acquired[i := s.acquired[i] + 1])
    case LeaveCanceled(i) => Move(s, i, Leaving)
    case FindDown(i) => Move(s, i, Leaving)
    case FindUp(i) => Move(s, i, Inside)
    case CoolingDown(i) => Move(s, i, Leaving)
    case CallProvider(i) => Move(s, i, AtProvider)
    case Succeed(i) => Move(s, i, Leaving)
    case Fail(i, canceled) => Move(s, i, Failed(canceled))
    case Mark(i) =>
      if s.callers[i].canceled then Move(s, i, Leaving)
      else Move(s, i, Leaving).(down := true, failures := s.failures + 1)
    case Release(i) => Move(s, i, Gone).(slots := s.slots - 1, released := s.released[i := s.released[i] + 1])
  }

  predicate HoldsSlot(c: Caller) { !c.Waiting? && !c.Gone? }

  /** A caller that passed the breaker and may still report a failure. */
  predicate InFlight(c: Caller) { c.Inside? || c.AtProvider? || (c.Failed? && !c.canceled) }

  function Holders(callers: seq<Caller>): nat
  {
    if callers == [] then 0 else Holders(callers[..|callers| - 1]) + if HoldsSlot(callers[|callers| - 1]) then 1 else 0
  }

  function Flights(callers: seq<Caller>): nat
  {
    if callers == [] then 0 else Flights(callers[..|callers| - 1]) + if InFlight(callers[|callers| - 1]) then 1 else 0
  }

  predicate SlotsTold(s: State)
  {
    && |s.acquired| == |s.released| == |s.callers|
    && forall i | 0 <= i < |s.callers| ::
         && 0 <= s.released[i] <= s.acquired[i] <= 1
         && (HoldsSlot(s.callers[i]) <==> s.acquired[i] == s.released[i] + 1)
         && (s.callers[i].Waiting? ==> s.acquired[i] == 0)
  }

  predicate Inv(s: State)
  {
    && SlotsTold(s)
    && s.slots == Holders(s.callers) <= MAX_CONCURRENCY
    && 0 <= s.failures
    && (if s.down then s.failures + Flights(s.callers) <= MAX_CONCURRENCY else s.failures == 0)
  }

  lemma {:induction false} SumsAppend(callers: seq<Caller>, c: Caller)
    ensures Holders(callers + [c]) == Holders(callers) + if HoldsSlot(c) then 1 else 0
    ensures Flights(callers + [c]) == Flights(callers) + if InFlight(c) then 1 else 0
  {
    assert (callers + [c])[..|callers|] == callers;
  }

  lemma {:induction false} SumsUpdate(callers: seq<Caller>, i: nat, c: Caller)
    requires i < |callers|
    ensures Holders(callers[i := c])
        == Holders(callers) - (if HoldsSlot(callers[i]) then 1 else 0) + if HoldsSlot(c) then 1 else 0
    ensures Flights(callers[i := c])
        == Flights(callers) - (if InFlight(callers[i]) then 1 else 0) + if InFlight(c) then 1 else 0
  {
    var n := |callers| - 1;
    if i == n {
      assert callers[i := c][..n] == callers[..n];
    } else {
      SumsUpdate(callers[..n], i, c);
      assert callers[i := c][..n] == callers[..n][i := c];
    }
  }

  lemma {:induction false} FlightsHoldSlots(callers: seq<Caller>)
    ensures Flights(callers) <= Holders(callers)
  {
    if callers != [] {
      FlightsHoldSlots(callers[..|callers| - 1]);
    }
  }

  lemma {:induction false} ArriveInv(s: State)
    requires Inv(s)
    ensures Inv(Next(s, Arrive))
  {
    hide Holders, Flights;
    SumsAppend(s.callers, Waiting);
  }

  /** The caller a step moves, and where to. */
  function Target(s: State, step: Step): Caller
    requires Enabled(s, step) && !step.Arrive?
  {
    match step
    case GiveUp(_) => Gone
    case Acquire(_) => Acquired
    case FindUp(_) => Inside
    case CallProvider(_) => AtProvider
    case Fail(_, canceled) => Failed(canceled)
    case Release(_) => Gone
    case _ => Leaving
  }

  lemma {:induction false} MoveInv(s: State, step: Step)
    requires Inv(s) && Enabled(s, step) && !step.Arrive?
    ensures Inv(Next(s, step))
  {
    hide Holders, Flights;
    SumsUpdate(s.callers, step.id, Target(s, step));
    FlightsHoldSlots(s.callers);
  }

  lemma {:induction false} NextInv(s: State, step: Step)
    requires Inv(s) && Enabled(s, step)
    ensures Inv(Next(s, step))
  {
    hide Inv;
    if step.Arrive? { ArriveInv(s); } else { MoveInv(s, step); }
  }

  ghost predicate IsRun(states: seq<State>, steps: seq<Step>)
  {
    && |states| == |steps| + 1 && states[0] == Init()
    && forall i | 0 <= i < |steps| ::
         |states[i].acquired| == |states[i].released| == |states[i].callers|
         && Enabled(states[i], steps[i]) && states[i + 1] == Next(states[i], steps[i])
  }

  /** For any number of callers, in any interleaving: the slots in use are the
      callers holding one, never more than two, and over the whole life of the
      summarizer at most two uncanceled failures are reported. */
  lemma {:induction false} RunsKeepInv(states: seq<State>, steps: seq<Step>, n: nat)
    requires IsRun(states, steps) && n < |states|
    ensures Inv(states[n]) && states[n].slots <= MAX_CONCURRENCY && states[n].failures <= MAX_CONCURRENCY
  {
    hide Next;
    if n > 0 {
      RunsKeepInv(states, steps, n - 1);
      assert Enabled(states[n - 1], steps[n - 1]);
      NextInv(states[n - 1], steps[n - 1]);
    }
  }

  /** A caller that has left gave back exactly what it took, and a slot that is
      released is always one that is in use. */
  lemma {:induction false} SlotsAreReleasedOnce(s: State, i: nat)
    requires Inv(s) && i < |s.callers|
    ensures s.callers[i].Gone? ==> s.released[i] == s.acquired[i] <= 1
    ensures s.callers[i].Leaving? ==> s.slots >= 1 && s.released[i] == 0
  {
    hide Flights;
    if s.callers[i].Leaving? {
      HolderCounted(s.callers, i);
    }
  }

  lemma {:induction false} HolderCounted(callers: seq<Caller>, i: nat)
    requires i < |callers| && HoldsSlot(callers[i])
    ensures Holders(callers) >= 1
  {
    if i < |callers| - 1 {
      HolderCounted(callers[..|callers| - 1], i);
    }
  }

  /** Once down, the breaker stays down, and a caller that has not passed it by
      then never reaches the provider. */
  lemma {:induction false} DownStopsLaterCallers(states: seq<State>, steps: seq<Step>, i: nat, j: nat, id: nat)
    requires IsRun(states, steps) && i <= j < |states| && states[i].down && Outside(states[i], id)
    ensures states[j].down && |states[j].callers| >= |states[i].callers| && Outside(states[j], id)
  {
    hide Next, Enabled, Outside;
    if i < j {
      DownStopsLaterCallers(states, steps, i, j - 1, id);
      DownStep(states[j - 1], steps[j - 1], id);
    }
  }

  /** The caller has not arrived, has not passed the breaker, or is done. */
  predicate Outside(s: State, id: nat)
  {
    id < |s.callers| ==> s.callers[id] in {Waiting, Acquired, Leaving, Gone}
  }

  lemma {:induction false} DownStep(s: State, step: Step, id: nat)
    requires |s.acquired| == |s.released| == |s.callers| && Enabled(s, step) && s.down && Outside(s, id)
    ensures var t := Next(s, step); t.down && |t.callers| >= |s.callers| && Outside(t, id)
  {
  }

  // ----- Walks -----

  /** The caller a step moves; one that arrives moves none of those there. */
  predicate Moves(step: Step, id: nat) { !step.Arrive? && step.id == id }

  predicate Possible(s: State, step: Step)
  {
    |s.acquired| == |s.released| == |s.callers| && Enabled(s, step)
  }

  /** Where a list of steps leads, if it can be gone. */
  function Walk(s: State, steps: seq<Step>): Option<State>
  {
    if steps == [] then Some(s)
    else
      var before := Walk(s, steps[..|steps| - 1]);
      if before.Some? && Possible(before.value, steps[|steps| - 1])
      then Some(Next(before.value, steps[|steps| - 1])) else None
  }

  /** The steps of one caller among those of all. */
  function By(steps: seq<Step>, id: nat): seq<Step>
  {
    if steps == [] then []
    else By(steps[..|steps| - 1], id) + if Moves(steps[|steps| - 1], id) then [steps[|steps| - 1]] else []
  }

  lemma {:induction false} NoSteps(s: State)
    ensures Walk(s, []) == Some(s) && forall id: nat :: By([], id) == []
  {
  }

  /** One more step of a run, which keeps what runs keep. */
  lemma {:induction false} Took(origin: State, past: seq<Step>, s: State, step: Step)
    requires Walk(origin, past) == Some(s) && Inv(s) && Enabled(s, step)
    ensures |s.acquired| == |s.released| == |s.callers|
    ensures Walk(origin, past + [step]) == Some(Next(s, step)) && Inv(Next(s, step))
    ensures forall id: nat :: By(past + [step], id) == By(past, id) + if Moves(step, id) then [step] else []
  {
    hide Inv, Next, Enabled, Moves;
    assert (past + [step])[..|past|] == past;
    assert SlotsTold(s) by { TellsSlots(s); }
    NextInv(s, step);
  }

  lemma {:induction false} TellsSlots(s: State)
    requires Inv(s)
    ensures SlotsTold(s) && s.slots <= MAX_CONCURRENCY
  {
  }

  /** What a step does to the caller it moves, to the slots, and to others. */
  lemma {:induction false} StepFacts(s: State, step: Step)
    requires Possible(s, step)
    ensures var t := Next(s, step);
            && |t.callers| == |s.callers| + (if step.Arrive? then 1 else 0)
            && (forall id | 0 <= id < |s.callers| && !Moves(step, id) :: t.callers[id] == s.callers[id])
            && (step.Arrive? ==> t.callers == s.callers + [Waiting])
            && (!step.Arrive? ==> t.callers == s.callers[step.id := Target(s, step)])
            && t.down == (s.down || (step.Mark? && !s.callers[step.id].canceled))
  {
  }

  /** The steps report an uncanceled failure. */
  predicate Breaks(steps: seq<Step>)
  {
    exists k | 0 < k < |steps| :: steps[k].Mark? && steps[k - 1].Fail? && !steps[k - 1].canceled
  }

  /** A waiting caller's own steps, with nobody else acting: they change its
      phase, and the breaker if they report a failure. */
  lemma {:induction false} WalkAlone(t: State, own: seq<Step>, id: nat, e: State)
    requires id < |t.callers| && t.callers[id] == Waiting
    requires Walk(t, own) == Some(e) && forall k | 0 <= k < |own| :: Moves(own[k], id)
    ensures |e.callers| == |t.callers| && e.callers == t.callers[id := e.callers[id]]
    ensures own != [] && own[|own| - 1].Fail? ==> e.callers[id] == Failed(own[|own| - 1].canceled)
    ensures own == [] || !own[|own| - 1].Fail? ==> !e.callers[id].Failed?
    ensures e.down == (t.down || Breaks(own))
  {
    hide Next, Possible, Breaks;
    if own == [] {
      assert !Breaks(own) by { BreaksNever(); }
    } else {
      var n := |own| - 1;
      var m := Walk(t, own[..n]).value;
      WalkAlone(t, own[..n], id, m);
      PossibleStep(m, own[n]);
      StepFacts(m, own[n]);
      BreaksLast(own);
    }
  }

  lemma {:induction false} BreaksNever()
    ensures !Breaks([])
  {
  }

  lemma {:induction false} BreaksLast(own: seq<Step>)
    requires own != []
    ensures var n := |own| - 1;
            Breaks(own) <==> Breaks(own[..n])
                             || (n > 0 && own[n].Mark? && own[n - 1].Fail? && !own[n - 1].canceled)
  {
    var n := |own| - 1;
    assert forall k | 0 <= k < n :: own[..n][k] == own[k];
  }

  lemma {:induction false} PossibleStep(s: State, step: Step)
    requires Possible(s, step)
    ensures Enabled(s, step) && (step.Mark? ==> step.id < |s.callers| && s.callers[step.id].Failed?)
  {
  }

  // ----- One call -----

  /** What one Summarize call observes on its way. */
  datatype Observed = Observed(
    canceledWaiting: bool,
    canceledAcquired: bool,
    cooling: bool,
    providerFails: bool,
    canceledAtFailure: bool)

  /** StillWaiting is a call that has not got a slot yet. */
  datatype Outcome = Summary | Error | Cooldown | Canceled | StillWaiting

  /** The call is handed to the provider, given whether it finds the breaker
      down once it holds its slot. */
  predicate Reaches(o: Observed, foundDown: bool) { !o.canceledAcquired && !foundDown && !o.cooling }

  /** What a caller does that has a slot, up to giving it back. */
  function SlotSteps(o: Observed, foundDown: bool, id: nat): seq<Step>
  {
    if o.canceledAcquired then [LeaveCanceled(id)]
    else if foundDown then [FindDown(id)]
    else if o.cooling then [FindUp(id), CoolingDown(id)]
    else if o.providerFails then [FindUp(id), CallProvider(id), Fail(id, o.canceledAtFailure), Mark(id)]
    else [FindUp(id), CallProvider(id), Succeed(id)]
  }

  function SlotOutcome(o: Observed, foundDown: bool): Outcome
  {
    if o.canceledAcquired then Canceled
    else if !Reaches(o, foundDown) then Cooldown
    else if o.providerFails then Error
    else Summary
  }

  /** What a caller does once it has arrived. */
  function OwnSteps(o: Observed, foundDown: bool, id: nat, outcome: Outcome): seq<Step>
  {
    if outcome == StillWaiting then []
    else if o.canceledWaiting then [GiveUp(id)]
    else [Acquire(id)] + SlotSteps(o, foundDown, id) + [Release(id)]
  }

  /** The provider is called exactly by a call that gets a slot and then finds
      neither its context done, nor the breaker down, nor a cooldown; it is called
      once, and a failure behind it is reported and marked. */
  lemma {:induction false} CalledExactly(o: Observed, foundDown: bool, id: nat, outcome: Outcome)
    ensures var own := OwnSteps(o, foundDown, id, outcome);
            var served := outcome != StillWaiting && !o.canceledWaiting;
            var calls := served && !o.canceledAcquired && !foundDown && !o.cooling;
            && (calls <==> exists k | 0 <= k < |own| :: own[k].CallProvider?)
            && (forall j, k | 0 <= j < k < |own| :: own[j].CallProvider? ==> !own[k].CallProvider?)
            && (calls && o.providerFails <==> exists k | 0 < k < |own| :: own[k].Mark?)
            && (forall k | 0 < k < |own| && own[k].Mark? :: own[k - 1] == Fail(id, o.canceledAtFailure))
            && (calls ==> SlotOutcome(o, foundDown) == if o.providerFails then Error else Summary)
            && (!o.canceledAcquired && !calls && served ==> SlotOutcome(o, foundDown) == Cooldown)
  {
    var own := OwnSteps(o, foundDown, id, outcome);
    if outcome != StillWaiting && !o.canceledWaiting && !o.canceledAcquired && !foundDown && !o.cooling {
      assert own[2].CallProvider?;
      if o.providerFails {
        assert own == [Acquire(id), FindUp(id), CallProvider(id), Fail(id, o.canceledAtFailure), Mark(id), Release(id)];
        assert own[4].Mark?;
      }
    }
  }

  /** What a call leaves behind that nobody interfered with after its wait. */
  predicate Alone(o: Observed, before: State, id: nat, outcome: Outcome, e: State)
    requires id < |before.callers|
  {
    && e.slots == before.slots
    && e.callers == before.callers[id := if outcome == StillWaiting then Waiting else Gone]
    && e.down == (before.down || (outcome == Error && !o.canceledAtFailure))
  }

  lemma {:induction false} AloneSettles(o: Observed, foundDown: bool, before: State, id: nat, outcome: Outcome,
                                        waited: seq<Step>, steps: seq<Step>, origin: State, e: State)
    requires Inv(before) && Inv(e) && id < |before.callers| && before.callers[id] == Waiting
    requires id < |e.callers| && e.callers[id] == if outcome == StillWaiting then Waiting else Gone
    requires Walk(origin, waited) == Some(before) && Walk(origin, steps) == Some(e)
    requires steps == waited + OwnSteps(o, foundDown, id, outcome)
    requires outcome == Error <==> !o.canceledWaiting && Reaches(o, foundDown) && o.providerFails
                                   && outcome != StillWaiting
    ensures Alone(o, before, id, outcome, e)
  {
    hide Walk, Holders, Flights, SlotsTold, Breaks;
    var own := OwnSteps(o, foundDown, id, outcome);
    WalkConcat(origin, waited, own);
    OwnMoves(o, foundDown, id, outcome);
    WalkAlone(before, own, id, e);
    SumsUpdate(before.callers, id, e.callers[id]);
  }

  lemma {:induction false} OwnMoves(o: Observed, foundDown: bool, id: nat, outcome: Outcome)
    ensures var own := OwnSteps(o, foundDown, id, outcome);
            && (forall k | 0 <= k < |own| :: Moves(own[k], id))
            && (Breaks(own) <==> outcome != StillWaiting && !o.canceledWaiting && Reaches(o, foundDown)
                                 && o.providerFails && !o.canceledAtFailure)
  {
    var own := OwnSteps(o, foundDown, id, outcome);
    if outcome != StillWaiting && !o.canceledWaiting && Reaches(o, foundDown) && o.providerFails {
      assert own == [Acquire(id), FindUp(id), CallProvider(id), Fail(id, o.canceledAtFailure), Mark(id), Release(id)];
      assert own[4].Mark? && own[3] == Fail(id, o.canceledAtFailure);
    }
  }

  lemma {:induction false} WalkConcat(s: State, a: seq<Step>, b: seq<Step>)
    requires Walk(s, a).Some?
    ensures Walk(s, a + b) == Walk(Walk(s, a).value, b)
  {
    hide Possible, Next;
    if b == [] {
      assert a + b == a;
    } else {
      var n := |b| - 1;
      WalkConcat(s, a, b[..n]);
      assert (a + b)[..|a + b| - 1] == a + b[..n];
    }
  }

  /** The shared fields; the machine's state says what they count. */
  class Summarizer {
    var slots: int
    var refinementDown: bool

    ghost predicate Shows(s: State)
      reads this
    {
      Inv(s) && slots == s.slots && refinementDown == s.down
    }

    /** The run has come from origin to s by these steps. */
    ghost predicate At(origin: State, steps: seq<Step>, s: State)
      reads this
    {
      Shows(s) && Walk(origin, steps) == Some(s)
    }

    constructor ()
      ensures Shows(Init())
    {
      slots, refinementDown := 0, false;
    }

    /** The other callers, between two steps of caller id: any number of any
        steps but its own. */
    method Others(s: State, id: nat, ghost origin: State, ghost past: seq<Step>)
      returns (e: State, ghost steps: seq<Step>)
      requires At(origin, past, s) && id < |s.callers|
      modifies this
      ensures At(origin, steps, e) && id < |e.callers| && e.callers[id] == s.callers[id]
      ensures past <= steps && By(steps, id) == By(past, id)
      ensures s.down ==> e.down
    {
      hide Inv, Walk, By, Next, Enabled, Moves;
      e, steps := s, past;
      var turns: int := *;
      for k := 0 to Max(turns, 0)
        invariant At(origin, steps, e) && id < |e.callers| && e.callers[id] == s.callers[id]
        invariant past <= steps && By(steps, id) == By(past, id) && (s.down ==> e.down)
      {
        var step: Step := *;
        if Enabled(e, step) && !Moves(step, id) {
          Took(origin, steps, e, step);
          StepFacts(e, step);
          e, steps := Next(e, step), steps + [step];
          slots, refinementDown := e.slots, e.down;
        }
      }
    }

    /** A step of caller id that leaves the shared fields alone. */
    method MoveOn(step: Step, s: State, id: nat, ghost origin: State, ghost past: seq<Step>)
      returns (e: State, ghost steps: seq<Step>)
      requires At(origin, past, s) && Enabled(s, step) && Moves(step, id)
      requires !step.Acquire? && !step.Release? && !step.Mark?
      ensures At(origin, steps, e) && steps == past + [step] && By(steps, id) == By(past, id) + [step]
      ensures e == Next(s, step) && id < |e.callers| && e.callers[id] == Target(s, step)
    {
      hide Inv, Walk, By;
      Took(origin, past, s, step);
      e, steps := Next(s, step), past + [step];
    }

    /** Waits until a slot is free and takes it, unless the context is done
        first. While it waits the others go on; the wait ends in `before`. */
    method AcquireRefinement(canceled: bool, s: State, id: nat, ghost origin: State, ghost past: seq<Step>)
      returns (acquired: bool, e: State, ghost steps: seq<Step>, ghost before: State, ghost waited: seq<Step>)
      requires At(origin, past, s) && id < |s.callers| && s.callers[id] == Waiting
      modifies this
      ensures At(origin, steps, e) && past <= waited && By(waited, id) == By(past, id)
      ensures Walk(origin, waited) == Some(before) && Inv(before) && before.slots <= MAX_CONCURRENCY
      ensures id < |before.callers| && before.callers[id] == Waiting
      ensures acquired <==> !canceled && before.slots < MAX_CONCURRENCY
      ensures var own := if acquired then [Acquire(id)] else if canceled then [GiveUp(id)] else [];
              steps == waited + own && By(steps, id) == By(past, id) + own
      ensures id < |e.callers| && e.callers[id] == if acquired then Acquired else if canceled then Gone else Waiting
      ensures slots == before.slots + (if acquired then 1 else 0) && refinementDown == before.down
      ensures e.callers == before.callers[id := e.callers[id]] && e.failures == before.failures
    {
      hide Inv, Walk, By;
      e, steps := Others(s, id, origin, past);
      before, waited := e, steps;
      TellsSlots(e);
      acquired := false;
      if canceled {
        e, steps := MoveOn(GiveUp(id), e, id, origin, steps);
      } else if slots < MAX_CONCURRENCY {
        Took(origin, steps, e, Acquire(id));
        slots := slots + 1;
        e, steps := Next(e, Acquire(id)), steps + [Acquire(id)];
        acquired := true;
      } else {
        assert steps + [] == steps && By(past, id) + [] == By(past, id);
      }
    }

    method ReleaseRefinement(s: State, id: nat, ghost origin: State, ghost past: seq<Step>)
      returns (e: State, ghost steps: seq<Step>)
      requires At(origin, past, s) && id < |s.callers| && s.callers[id] == Leaving
      modifies this`slots
      ensures At(origin, steps, e) && slots == old(slots) - 1
      ensures steps == past + [Release(id)] && By(steps, id) == By(past, id) + [Release(id)]
      ensures e == Next(s, Release(id)) && e.callers == s.callers[id := Gone]
    {
      hide Inv, Walk, By;
      Took(origin, past, s, Release(id));
      slots := slots - 1;
      e, steps := Next(s, Release(id)), past + [Release(id)];
    }

    method MarkRefinementUnavailable(canceled: bool, s: State, id: nat, ghost origin: State, ghost past: seq<Step>)
      returns (e: State, ghost steps: seq<Step>)
      requires At(origin, past, s) && id < |s.callers| && s.callers[id] == Failed(canceled)
      modifies this`refinementDown
      ensures At(origin, steps, e) && refinementDown == (old(refinementDown) || !canceled)
      ensures steps == past + [Mark(id)] && By(steps, id) == By(past, id) + [Mark(id)]
      ensures e == Next(s, Mark(id)) && e.callers == s.callers[id := Leaving]
      ensures e.failures == s.failures + if canceled then 0 else 1
    {
      hide Inv, Walk, By;
      Took(origin, past, s, Mark(id));
      e, steps := Next(s, Mark(id)), past + [Mark(id)];
      if canceled {
        return;
      }
      refinementDown := true;
    }

    /** The part of a call that holds a slot: the checks, the provider, and the
        marking of the breaker, with the others acting in between. foundDown is
        the breaker as its check finds it. */
    method WithSlot(o: Observed, s: State, id: nat, ghost origin: State, ghost past: seq<Step>)
      returns (outcome: Outcome, e: State, ghost steps: seq<Step>, ghost foundDown: bool)
      requires At(origin, past, s) && id < |s.callers| && s.callers[id] == Acquired
      modifies this
      ensures At(origin, steps, e) && past <= steps && id < |e.callers| && e.callers[id] == Leaving
      ensures By(steps, id) == By(past, id) + SlotSteps(o, foundDown, id)
      ensures outcome == SlotOutcome(o, foundDown)
      ensures Reaches(o, foundDown) && o.providerFails && !o.canceledAtFailure ==> refinementDown
    {
      hide Inv, Walk, By, Next, Possible;
      e, steps := Others(s, id, origin, past);
      foundDown := refinementDown;
      if o.canceledAcquired {
        e, steps := MoveOn(LeaveCanceled(id), e, id, origin, steps);
        return Canceled, e, steps, foundDown;
      }
      if refinementDown {
        e, steps := MoveOn(FindDown(id), e, id, origin, steps);
        return Cooldown, e, steps, foundDown;
      }
      e, steps := MoveOn(FindUp(id), e, id, origin, steps);
      e, steps := Others(e, id, origin, steps);
      if o.cooling {
        e, steps := MoveOn(CoolingDown(id), e, id, origin, steps);
        return Cooldown, e, steps, foundDown;
      }
      e, steps := MoveOn(CallProvider(id), e, id, origin, steps);
      outcome, e, steps := AtTheProvider(o, e, id, origin, steps);
    }

    method AtTheProvider(o: Observed, s: State, id: nat, ghost origin: State, ghost past: seq<Step>)
      returns (outcome: Outcome, e: State, ghost steps: seq<Step>)
      requires At(origin, past, s) && id < |s.callers| && s.callers[id] == AtProvider
      modifies this
      ensures At(origin, steps, e) && past <= steps && id < |e.callers| && e.callers[id] == Leaving
      ensures By(steps, id)
           == By(past, id) + if o.providerFails then [Fail(id, o.canceledAtFailure), Mark(id)] else [Succeed(id)]
      ensures outcome == if o.providerFails then Error else Summary
      ensures o.providerFails && !o.canceledAtFailure ==> refinementDown
    {
      hide Inv, Walk, By, Next;
      e, steps := Others(s, id, origin, past);
      if o.providerFails {
        e, steps := MoveOn(Fail(id, o.canceledAtFailure), e, id, origin, steps);
        e, steps := Others(e, id, origin, steps);
        e, steps := MarkRefinementUnavailable(o.canceledAtFailure, e, id, origin, steps);
        return Error, e, steps;
      }
      e, steps := MoveOn(Succeed(id), e, id, origin, steps);
      outcome := Summary;
    }

    /** From taking a slot to giving it back. `slotHeld` makes the early release
        before the run is recorded and the deferred one at the end add up to
        exactly one. */
    method HoldSlot(o: Observed, s: State, id: nat, ghost origin: State, ghost past: seq<Step>)
      returns (outcome: Outcome, e: State, ghost steps: seq<Step>, ghost foundDown: bool)
      requires At(origin, past, s) && id < |s.callers| && s.callers[id] == Acquired
      modifies this
      ensures At(origin, steps, e) && past <= steps && id < |e.callers| && e.callers[id] == Gone
      ensures By(steps, id) == By(past, id) + SlotSteps(o, foundDown, id) + [Release(id)]
      ensures outcome == SlotOutcome(o, foundDown)
      ensures outcome == Error && !o.canceledAtFailure ==> refinementDown
    {
      hide Inv, Walk, By, Next, SlotSteps, Possible;
      var slotHeld := true;
      outcome, e, steps, foundDown := WithSlot(o, s, id, origin, past);
      e, steps := Others(e, id, origin, steps);
      if outcome.Summary? || outcome.Error? {
        e, steps := ReleaseRefinement(e, id, origin, steps);
        slotHeld := false;
      }
      if slotHeld {
        e, steps := ReleaseRefinement(e, id, origin, steps);
      }
    }

    /** One call, among any others that act while it waits for a slot, while it
        holds one and while it is at the provider. It is a walk of the machine,
        its own part is the specified one, and unless it still waits it has gone
        and given back the slot it took. Where nobody else acts once the wait is
        over, slots and breaker are left as its own steps leave them. */
    method Summarize(o: Observed, s: State)
      returns (outcome: Outcome, e: State, ghost steps: seq<Step>, ghost foundDown: bool, ghost before: State,
               ghost waited: seq<Step>)
      requires Shows(s)
      modifies this
      ensures At(s, steps, e) && waited <= steps && steps != [] && steps[0] == Arrive
      ensures Walk(s, waited) == Some(before) && Inv(before) && By(waited, |s.callers|) == []
      ensures |s.callers| < |before.callers| && before.callers[|s.callers|] == Waiting
      ensures By(steps, |s.callers|) == OwnSteps(o, foundDown, |s.callers|, outcome)
      ensures |s.callers| < |e.callers| && e.callers[|s.callers|] == if outcome == StillWaiting then Waiting else Gone
      ensures outcome == StillWaiting <==> !o.canceledWaiting && before.slots == MAX_CONCURRENCY
      ensures outcome != StillWaiting ==> outcome == if o.canceledWaiting then Canceled else SlotOutcome(o, foundDown)
      ensures outcome == Error && !o.canceledAtFailure ==> refinementDown
      ensures steps == waited + By(steps, |s.callers|) ==> Alone(o, before, |s.callers|, outcome, e)
    {
      hide Inv, Walk, By, Next, SlotSteps, Possible, Alone;
      var id := |s.callers|;
      NoSteps(s);
      ArriveFacts(s);
      Took(s, [], s, Arrive);
      e, steps := Next(s, Arrive), [] + [Arrive];
      var acquired;
      acquired, e, steps, before, waited := AcquireRefinement(o.canceledWaiting, e, id, s, steps);
      if !acquired {
        outcome, foundDown := if o.canceledWaiting then Canceled else StillWaiting, false;
      } else {
        outcome, e, steps, foundDown := HoldSlot(o, e, id, s, steps);
      }
      if steps == waited + By(steps, id) {
        AloneSettles(o, foundDown, before, id, outcome, waited, steps, s, e);
      }
    }
  }

  lemma {:induction false} ArriveFacts(s: State)
    requires Inv(s)
    ensures Possible(s, Arrive) && var t := Next(s, Arrive);
            t.callers == s.callers + [Waiting] && t.slots == s.slots && t.down == s.down
  {
  }
}
