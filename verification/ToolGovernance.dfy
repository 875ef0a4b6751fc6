/** The middleware around one tool call: the order of its checks, and the
    budget operation each way out of it performs. */
module ToolGovernance {
  import opened Text
  import opened ToolBudget
  import Json
  import RS = ResultShortening
  import Runs = ToolRuns

  datatype QuotaAnswer = Admitted | QuotaError(parentCanceled: bool, text: string)

  datatype ToolAnswer = Failed(text: string) | NoResult | Result(text: string)

  /** Everything the middleware observes during one call: the parent context at
      each of its checks, the quota service, the tool, and the cleaning of a
      result that reports a failure. */
  datatype Observed = Observed(
    arguments: Arguments,
    canceledAtStart: bool,
    canceledWhenBlocked: bool,
    quota: QuotaAnswer,
    canceledBeforeTool: bool,
    tool: ToolAnswer,
    sanitize: string -> string,
    canceledAfterTool: bool)

  const SKILL_EXHAUSTED := "skill_context_" + "budget_exhausted"
  const PENDING := "tool_context_" + "budget_pending"
  const BUDGET_HEAD := "{\"blocked\":true,\"message\":\""
  const BUDGET_TAIL := "\",\"reason\":\"tool_budget_exhausted\",\"tool\":"

  /** A call past the run's limits is told so. */
  function BudgetNotice(toolName: string, message: string): string
  {
    BUDGET_HEAD + message + BUDGET_TAIL + Json.JsonString(toolName) + "}"
  }

  const RUN_MESSAGE := "The tool-call budget is exhausted. Stop calling tools and produce the final answer "
                     + "from the evidence already available."
  const SKILL_MESSAGE := "The skill context budget is exhausted. Some instructions may remain unread; "
                       + "do not claim complete skill compliance."
  const LIMIT_MESSAGE := "The tool-call limit has been reached. Stop calling tools and summarize the "
                       + "available results."
  const CONTEXT_MESSAGE := "The tool context budget is exhausted. Produce the final answer from the "
                         + "evidence already available."
  const PENDING_MESSAGE := "Parallel tool calls are using the remaining context budget. Continue with "
                         + "results already available."

  /** What a refused call is told. */
  function RefusalNotice(toolName: string, refusal: Refusal): string
  {
    match refusal
    case RunExhausted => BudgetNotice(toolName, RUN_MESSAGE)
    case SkillExhausted => RS.Notice(toolName, SKILL_EXHAUSTED, SKILL_MESSAGE)
    case CallLimitReached => BudgetNotice(toolName, LIMIT_MESSAGE)
    case ContextExhausted => RS.Notice(toolName, RS.EXHAUSTED, CONTEXT_MESSAGE)
    case ContextPending => RS.Notice(toolName, PENDING, PENDING_MESSAGE)
  }

  const EMPTY_MESSAGE := "Tool returned no result. Continue with the best available information."
  const EMPTY_HEAD := "{\"ok\":false,\"tool\":"

  /** What stands for a result that is missing or blank. */
  function EmptyNotice(toolName: string): string
  {
    EMPTY_HEAD + Json.JsonString(toolName) + ",\"code\":\"tool_empty_result\",\"error\":\"" + EMPTY_MESSAGE
    + "\",\"message\":\"" + EMPTY_MESSAGE + "\",\"retryable\":false,\"source\":\"tool_governance\"}"
  }

  /** Notices do not vanish when they are cut, and results are settled within
      their grants (tool names are not too long). */
  ghost predicate NoticesOk(encoder: Encoder, toolName: string)
  {
    && (forall refusal :: encoder.digest(RefusalNotice(toolName, refusal)) != "")
    && encoder.digest(EmptyNotice(toolName)) != ""
    && Settles(encoder, toolName)
  }

  /** With the code's own encodings the tool's name decides. */
  lemma {:induction false} CodeNoticesOk(decode: string -> RS.Decoded, fields: string -> string, toolName: string)
    ensures NoticesOk(RS.CodeEncoder(decode, fields), toolName) <==> ByteLen(Json.JsonRunes(toolName)) <= 1399
  {
    hide Settles, ByteLen, RefusalNotice, EmptyNotice;
    RS.SettlesExactly(decode, fields, toolName);
  }

  /** Every notice is a JSON object, so none is blank. */
  lemma {:induction false} NoticesAreObjects(toolName: string, refusal: Refusal)
    ensures TrimSpace(RefusalNotice(toolName, refusal)) != "" && TrimSpace(EmptyNotice(toolName)) != ""
  {
    hide TrimSpace, BudgetNotice, RS.Notice, EmptyNotice;
    EmptyNoticeIsObject(toolName);
    match refusal
    case RunExhausted => BudgetNoticeIsObject(toolName, RUN_MESSAGE);
    case SkillExhausted => NoticeIsObject(toolName, SKILL_EXHAUSTED, SKILL_MESSAGE);
    case CallLimitReached => BudgetNoticeIsObject(toolName, LIMIT_MESSAGE);
    case ContextExhausted => NoticeIsObject(toolName, RS.EXHAUSTED, CONTEXT_MESSAGE);
    case ContextPending => NoticeIsObject(toolName, PENDING, PENDING_MESSAGE);
  }

  lemma {:induction false} BudgetNoticeIsObject(toolName: string, message: string)
    ensures TrimSpace(BudgetNotice(toolName, message)) != ""
  {
    hide TrimSpace, Json.JsonString;
    assert BUDGET_HEAD[0] == '{';
    ObjectIsNotBlank(BudgetNotice(toolName, message));
  }

  lemma {:induction false} NoticeIsObject(toolName: string, reason: string, message: string)
    ensures TrimSpace(RS.Notice(toolName, reason, message)) != ""
  {
    hide TrimSpace, Json.JsonString;
    assert RS.BLOCKED[0] == '{';
    ObjectIsNotBlank(RS.Notice(toolName, reason, message));
  }

  lemma {:induction false} EmptyNoticeIsObject(toolName: string)
    ensures TrimSpace(EmptyNotice(toolName)) != ""
  {
    hide TrimSpace, Json.JsonString;
    assert EMPTY_HEAD[0] == '{';
    ObjectIsNotBlank(EmptyNotice(toolName));
  }

  lemma {:induction false} ObjectIsNotBlank(s: string)
    requires s != "" && s[0] == '{'
    ensures TrimSpace(s) != ""
  {
    hide TrimSpace;
    TrimSpaceEmpty(s);
    assert !IsSpace(s[0]);
  }

  /** What there is to settle of a tool's answer. */
  function Answer(o: Observed): string
    requires !o.tool.NoResult?
  {
    if o.tool.Result? then o.sanitize(o.tool.text) else o.tool.text
  }

  /** The call ends in an error of its canceled parent instead of a text. */
  predicate Drops(p: Prepared, o: Observed)
  {
    || o.canceledAtStart
    || (p.Refused? && o.canceledWhenBlocked)
    || (p.Granted? && o.quota.QuotaError? && o.quota.parentCanceled)
    || (p.Granted? && o.quota.Admitted? && (o.canceledBeforeTool || o.canceledAfterTool))
  }

  /** The tool answered with nothing, or with what is blank once settled. */
  predicate AnswersNothing(encoder: Encoder, toolName: string, grant: Grant, o: Observed)
  {
    o.tool.NoResult?
        || (o.tool.Result? && TrimSpace(SettledText(encoder, toolName, Answer(o), grant.tokens)) == "")
  }

  /** The text a granted call that was not dropped returns. */
  predicate Returns(encoder: Encoder, toolName: string, grant: Grant, o: Observed, text: string)
  {
    if o.quota.QuotaError? then text == SettledText(encoder, toolName, o.quota.text, grant.tokens)
    else if AnswersNothing(encoder, toolName, grant, o)
    then text == "" || IsNoticeOf(encoder, EmptyNotice(toolName), text)
    else text == SettledText(encoder, toolName, Answer(o), grant.tokens)
  }

  /** What fits its grant is handed over as it is: a tool's result cleaned, the
      report of a failed tool and the answer of the quota service untouched. A
      result without text is replaced by the notice for it. */
  lemma {:induction false} FittingAnswersAreHandedOver(decode: string -> RS.Decoded, fields: string -> string,
                                                       toolName: string, grant: Grant, o: Observed, text: string)
    requires Returns(RS.CodeEncoder(decode, fields), toolName, grant, o, text)
    ensures o.quota.QuotaError? && EstimateTextTokens(o.quota.text) <= grant.tokens ==> text == o.quota.text
    ensures o.quota.Admitted? && o.tool.Failed? && EstimateTextTokens(o.tool.text) <= grant.tokens ==>
              text == o.tool.text
    ensures o.quota.Admitted? && o.tool.Result? && EstimateTextTokens(o.sanitize(o.tool.text)) <= grant.tokens ==>
              if TrimSpace(o.sanitize(o.tool.text)) != "" then text == o.sanitize(o.tool.text)
              else text == "" || IsNoticeOf(RS.CodeEncoder(decode, fields), EmptyNotice(toolName), text)
    ensures o.quota.Admitted? && o.tool.NoResult? ==>
              text == "" || IsNoticeOf(RS.CodeEncoder(decode, fields), EmptyNotice(toolName), text)
  {
    hide TrimSpace, EstimateTextTokens, EmptyNotice, IsNoticeOf, SettledText, RS.CodeEncoder;
    var said := if o.quota.QuotaError? then o.quota.text else if o.tool.NoResult? then "" else Answer(o);
    if EstimateTextTokens(said) <= grant.tokens {
      RS.FittingIsSettled(decode, fields, toolName, said, grant.tokens);
    }
  }

  function Charged(result: Option<string>): int
  {
    if result.Some? then EstimateTextTokens(result.value) else 0
  }

  /** The steps of a call behind its tool: the last one charges what is
      returned. */
  function ToolSteps(encoder: Encoder, toolName: string, grant: Grant, o: Observed, id: nat, result: Option<string>)
    : seq<Runs.Step>
  {
    if o.canceledAfterTool then [Runs.CancelRunning(id)]
    else if o.tool.NoResult? then [Runs.NoOutput(id), Runs.AccountNotice(id, Charged(result))]
    else
      var text := SettledText(encoder, toolName, Answer(o), grant.tokens);
      if AnswersNothing(encoder, toolName, grant, o)
      then [Runs.FinishRunning(id, EstimateTextTokens(text), true), Runs.AccountNotice(id, Charged(result))]
      else [Runs.FinishRunning(id, Charged(result), false)]
  }

  /** The steps of a call behind its grant. */
  function GrantSteps(encoder: Encoder, toolName: string, grant: Grant, o: Observed, id: nat, result: Option<string>)
    : seq<Runs.Step>
  {
    if o.quota.QuotaError? && !o.quota.parentCanceled
    then [Runs.QuotaDenies(id), Runs.FinishDenied(id, Charged(result))]
    else if o.quota.QuotaError? || o.canceledBeforeTool then [Runs.CancelHeld(id)]
    else [Runs.ReachTool(id)] + ToolSteps(encoder, toolName, grant, o, id, result)
  }

  /** The steps of a call once it has started. */
  function OwnSteps(encoder: Encoder, toolName: string, p: Prepared, o: Observed, id: nat, result: Option<string>)
    : seq<Runs.Step>
  {
    if p.Granted? then GrantSteps(encoder, toolName, p.grant, o, id, result)
    else [if o.canceledWhenBlocked then Runs.DropNotice(id) else Runs.AccountNotice(id, Charged(result))]
  }

  lemma {:induction false} NonBlankHasTokens(s: string)
    ensures s != "" ==> EstimateTextTokens(s) > 0
    ensures s == "" ==> EstimateTextTokens(s) == 0
  {
    ByteLenBounds(s);
  }

  lemma {:induction false} NonBlankNotEmpty(s: string)
    ensures TrimSpace(s) != "" ==> s != ""
  {
  }

  /** The run has come from origin to s by these steps, and the shared budget is
      the one of s. */
  ghost predicate At(budget: RunBudget, origin: Runs.State, steps: seq<Runs.Step>, s: Runs.State)
    reads budget
  {
    Runs.Walk(origin, steps) == Some(s) && Runs.Inv(s) && s.budget == budget.State()
  }

  /** One more step of the run. */
  lemma {:induction false} Took(origin: Runs.State, past: seq<Runs.Step>, s: Runs.State, step: Runs.Step)
    requires Runs.Walk(origin, past) == Some(s) && Runs.Inv(s) && Runs.Enabled(s, step)
    ensures Runs.Walk(origin, past + [step]) == Some(Runs.Next(s, step)) && Runs.Inv(Runs.Next(s, step))
    ensures Runs.Next(s, step).budget.limits == s.budget.limits
    ensures forall id: nat ::
              Runs.By(past + [step], id) == Runs.By(past, id) + if Runs.Moves(step, id) then [step] else []
  {
    hide Runs.Walk, Runs.By, Runs.Inv, Runs.Enabled, Runs.Next, Runs.Moves;
    Runs.WalkOn(origin, past, step);
    Runs.NextInv(s, step);
    Runs.LimitsFixed(s, step);
  }

  /** The other calls of the run, and its model turns, between two operations of
      call id: any number of any steps but its own. */
  method Others(budget: RunBudget, s: Runs.State, id: nat, ghost origin: Runs.State, ghost past: seq<Runs.Step>)
    returns (e: Runs.State, ghost steps: seq<Runs.Step>)
    requires At(budget, origin, past, s) && id < |s.calls|
    modifies budget
    ensures At(budget, origin, steps, e) && id < |e.calls| && e.calls[id] == s.calls[id]
    ensures past <= steps && Runs.By(steps, id) == Runs.By(past, id)
  {
    hide Runs.Walk, Runs.By, Runs.Inv, Runs.Enabled, Runs.Next, Runs.Moves;
    e, steps := s, past;
    var turns: int := *;
    for k := 0 to Max(turns, 0)
      invariant At(budget, origin, steps, e) && id < |e.calls| && e.calls[id] == s.calls[id]
      invariant past <= steps && Runs.By(steps, id) == Runs.By(past, id)
    {
      var step: Runs.Step := *;
      if Runs.Enabled(e, step) && !Runs.Moves(step, id) {
        Took(origin, steps, e, step);
        Runs.OthersStay(e, step, id);
        e, steps := Runs.Next(e, step), steps + [step];
        Adopt(budget, e.budget);
      }
    }
  }

  method Adopt(budget: RunBudget, b: Budget)
    requires b.limits == budget.limits
    modifies budget
    ensures budget.State() == b
  {
    budget.contextUsed, budget.contextReserved := b.contextUsed, b.contextReserved;
    budget.skillUsed, budget.skillReserved := b.skillUsed, b.skillReserved;
    budget.skillBlocked, budget.forceFinal, budget.actualCalls := b.skillBlocked, b.forceFinal, b.actualCalls;
  }

  /** Accounts a notice of the call numbered id, as a step of the run. */
  method AccountNotice(budget: RunBudget, notice: string, s: Runs.State, id: nat, ghost origin: Runs.State,
                       ghost past: seq<Runs.Step>)
    returns (text: string, e: Runs.State, ghost steps: seq<Runs.Step>)
    requires At(budget, origin, past, s) && id < |s.calls| && (s.calls[id].Blocked? || s.calls[id].Empty?)
    requires TrimSpace(notice) != "" && budget.encoder.digest(notice) != ""
    modifies budget`contextUsed, budget`forceFinal
    ensures At(budget, origin, steps, e) && steps == past + [Runs.AccountNotice(id, EstimateTextTokens(text))]
    ensures Runs.By(steps, id) == Runs.By(past, id) + [Runs.AccountNotice(id, EstimateTextTokens(text))]
    ensures var step := Runs.AccountNotice(id, EstimateTextTokens(text));
            Runs.Enabled(s, step) && e == Runs.Next(s, step) && e.calls == s.calls[id := Runs.Done]
    ensures text == "" <==> old(NoticeLimit(budget.State())) <= 0
    ensures text == "" || IsNoticeOf(budget.encoder, notice, text)
  {
    hide TrimSpace, EstimateTextTokens, Runs.Inv, Runs.Walk, Runs.By;
    text := budget.AccountUnreservedResult(notice);
    NonBlankHasTokens(text);
    NonBlankNotEmpty(notice);
    var step := Runs.AccountNotice(id, EstimateTextTokens(text));
    Took(origin, past, s, step);
    e, steps := Runs.Next(s, step), past + [step];
  }

  /** The step that settles a grant: a blank result of a tool that succeeded is
      still to be replaced by a notice. */
  function FinishStep(phase: Runs.Phase, id: nat, text: string, replaceBlank: bool): Runs.Step
  {
    if phase.Denied? then Runs.FinishDenied(id, EstimateTextTokens(text))
    else Runs.FinishRunning(id, EstimateTextTokens(text), replaceBlank && TrimSpace(text) == "")
  }

  /** Settles the grant of call id with a result, as a step of the run. */
  method FinishCall(budget: RunBudget, toolName: string, result: string, grant: Grant, replaceBlank: bool,
                    s: Runs.State, id: nat, ghost origin: Runs.State, ghost past: seq<Runs.Step>)
    returns (text: string, e: Runs.State, ghost steps: seq<Runs.Step>)
    requires At(budget, origin, past, s)
    requires id < |s.calls| && (s.calls[id] == Runs.Denied(grant) || s.calls[id] == Runs.Running(grant))
    requires Settles(budget.encoder, toolName)
    modifies budget
    ensures var step := FinishStep(s.calls[id], id, text, replaceBlank);
            && At(budget, origin, steps, e) && steps == past + [step]
            && Runs.By(steps, id) == Runs.By(past, id) + [step]
            && Runs.Enabled(s, step) && e == Runs.Next(s, step)
            && e.calls == s.calls[id := if step.FinishRunning? && step.blank then Runs.Empty else Runs.Done]
    ensures EstimateTextTokens(text) <= grant.tokens
        && text == SettledText(budget.encoder, toolName, result, grant.tokens)
  {
    hide TrimSpace, EstimateTextTokens, Runs.Walk, Runs.By;
    assert grant.tokens >= MIN_GRANT_TOKENS;
    hide Runs.Inv;
    text := budget.FinishToolResult(toolName, result, grant);
    NonBlankHasTokens(text);
    var step := FinishStep(s.calls[id], id, text, replaceBlank);
    Took(origin, past, s, step);
    e, steps := Runs.Next(s, step), past + [step];
  }

  /** Moves call id on by a step that asks nothing of the budget's texts. */
  method MoveOn(budget: RunBudget, step: Runs.Step, grant: Grant, s: Runs.State, id: nat, ghost origin: Runs.State,
                ghost past: seq<Runs.Step>)
    returns (e: Runs.State, ghost steps: seq<Runs.Step>)
    requires At(budget, origin, past, s) && Runs.Enabled(s, step) && Runs.Moves(step, id) && id < |s.calls|
    requires step.CancelHeld? || step.CancelRunning? || step.NoOutput? || step.QuotaDenies? || step.ReachTool?
    requires s.calls[id] == Runs.Held(grant) || s.calls[id] == Runs.Running(grant)
    modifies budget
    ensures At(budget, origin, steps, e) && steps == past + [step] && Runs.By(steps, id) == Runs.By(past, id) + [step]
    ensures e == Runs.Next(s, step) && e.calls == s.calls[id := PhaseAfter(s.calls[id], step)]
  {
    hide Runs.Walk, Runs.By;
    assert grant.tokens >= MIN_GRANT_TOKENS;
    hide Runs.Inv;
    Moved(s, step, id);
    if step.QuotaDenies? {
      budget.ReleaseActualCall();
    } else if !step.ReachTool? {
      budget.CancelToolGrant(grant, step.CancelHeld?);
    }
    Took(origin, past, s, step);
    e, steps := Runs.Next(s, step), past + [step];
  }

  /** The part of the middleware behind the tool. */
  method AfterTool(budget: RunBudget, toolName: string, o: Observed, grant: Grant, s: Runs.State, id: nat,
                   ghost origin: Runs.State, ghost past: seq<Runs.Step>)
    returns (result: Option<string>, e: Runs.State, ghost steps: seq<Runs.Step>)
    requires At(budget, origin, past, s) && NoticesOk(budget.encoder, toolName)
    requires id < |s.calls| && s.calls[id] == Runs.Running(grant)
    modifies budget
    ensures At(budget, origin, steps, e) && past <= steps && id < |e.calls| && e.calls[id].Done?
    ensures Runs.By(steps, id)
         == Runs.By(past, id) + ToolSteps(budget.encoder, toolName, grant, o, id, result)
    ensures result == None <==> o.canceledAfterTool
    ensures result.Some? && o.quota.Admitted? ==> Returns(budget.encoder, toolName, grant, o, result.value)
  {
    hide TrimSpace, EstimateTextTokens, SettledText, IsNoticeOf, Runs.Inv, Runs.Walk, Runs.By, EmptyNotice, Runs.Next,
        Settles, RefusalNotice;
    e, steps := Others(budget, s, id, origin, past);
    if o.canceledAfterTool {
      e, steps := MoveOn(budget, Runs.CancelRunning(id), grant, e, id, origin, steps);
      return None, e, steps;
    }
    var text := "";
    if o.tool.NoResult? {
      e, steps := MoveOn(budget, Runs.NoOutput(id), grant, e, id, origin, steps);
    } else {
      text, e, steps := FinishCall(budget, toolName, Answer(o), grant, o.tool.Result?, e, id, origin, steps);
    }
    if o.tool.NoResult? || (o.tool.Result? && TrimSpace(text) == "") {
      e, steps := Others(budget, e, id, origin, steps);
      NoticesAreObjects(toolName, RunExhausted);
      text, e, steps := AccountNotice(budget, EmptyNotice(toolName), e, id, origin, steps);
    }
    result := Some(text);
  }

  /** The part of the middleware behind a grant: quota, then the tool. */
  method AfterGrant(budget: RunBudget, toolName: string, o: Observed, grant: Grant, s: Runs.State, id: nat,
                    ghost origin: Runs.State, ghost past: seq<Runs.Step>)
    returns (result: Option<string>, e: Runs.State, ghost steps: seq<Runs.Step>)
    requires At(budget, origin, past, s) && NoticesOk(budget.encoder, toolName)
    requires id < |s.calls| && s.calls[id] == Runs.Held(grant)
    modifies budget
    ensures At(budget, origin, steps, e) && past <= steps && id < |e.calls| && e.calls[id].Done?
    ensures Runs.By(steps, id)
         == Runs.By(past, id) + GrantSteps(budget.encoder, toolName, grant, o, id, result)
    ensures result == None
        <==> if o.quota.QuotaError? then o.quota.parentCanceled else o.canceledBeforeTool || o.canceledAfterTool
    ensures result.Some? ==> Returns(budget.encoder, toolName, grant, o, result.value)
  {
    hide TrimSpace, EstimateTextTokens, SettledText, IsNoticeOf, Runs.Inv, Runs.Walk, Runs.By, EmptyNotice, ToolSteps,
        Runs.Next;
    result := None;
    if o.quota.QuotaError? {
      if o.quota.parentCanceled {
        e, steps := MoveOn(budget, Runs.CancelHeld(id), grant, s, id, origin, past);
      } else {
        e, steps := MoveOn(budget, Runs.QuotaDenies(id), grant, s, id, origin, past);
        e, steps := Others(budget, e, id, origin, steps);
        var text;
        text, e, steps := FinishCall(budget, toolName, o.quota.text, grant, false, e, id, origin, steps);
        result := Some(text);
      }
    } else if o.canceledBeforeTool {
      e, steps := MoveOn(budget, Runs.CancelHeld(id), grant, s, id, origin, past);
    } else {
      e, steps := MoveOn(budget, Runs.ReachTool(id), grant, s, id, origin, past);
      result, e, steps := AfterTool(budget, toolName, o, grant, e, id, origin, steps);
    }
  }

  lemma {:induction false} StartsAt(s: Runs.State)
    ensures Runs.Walk(s, []) == Some(s) && forall id: nat :: Runs.By([], id) == []
  {
  }

  lemma {:induction false} Started(s: Runs.State, skill: bool)
    ensures var p, t := Prepare(s.budget, skill), Runs.Next(s, Runs.Start(skill));
            && Runs.Enabled(s, Runs.Start(skill)) && t.budget == p.after
            && t.calls == s.calls + [if p.Granted? then Runs.Held(p.grant) else Runs.Blocked]
            && t.delivered == s.delivered && t.reached == s.reached
  {
    hide Prepare;
  }

  lemma {:induction false} Dropped(s: Runs.State, id: nat)
    requires id < |s.calls| && s.calls[id].Blocked?
    ensures var step := Runs.DropNotice(id);
            && Runs.Enabled(s, step) && Runs.Moves(step, id)
            && Runs.Next(s, step).budget == s.budget && Runs.Next(s, step).calls == s.calls[id := Runs.Done]
  {
  }

  /** The part of the middleware behind a refusal: the call is told, unless its
      parent was canceled. */
  method AfterRefusal(budget: RunBudget, toolName: string, o: Observed, refusal: Refusal, s: Runs.State, id: nat,
                      ghost origin: Runs.State, ghost past: seq<Runs.Step>)
    returns (result: Option<string>, e: Runs.State, ghost steps: seq<Runs.Step>)
    requires At(budget, origin, past, s) && NoticesOk(budget.encoder, toolName)
    requires id < |s.calls| && s.calls[id].Blocked?
    modifies budget
    ensures At(budget, origin, steps, e) && past <= steps && id < |e.calls| && e.calls[id].Done?
    ensures Runs.By(steps, id)
         == Runs.By(past, id)
            + [if o.canceledWhenBlocked then Runs.DropNotice(id) else Runs.AccountNotice(id, Charged(result))]
    ensures result == None <==> o.canceledWhenBlocked
    ensures result.Some? ==>
              result.value == "" || IsNoticeOf(budget.encoder, RefusalNotice(toolName, refusal), result.value)
  {
    hide TrimSpace, EstimateTextTokens, IsNoticeOf, Runs.Inv, Runs.Walk, Runs.By, RefusalNotice, EmptyNotice, Runs.Next,
        Runs.Enabled, Runs.Moves, NoticeLimit, Settles;
    if o.canceledWhenBlocked {
      Dropped(s, id);
      Took(origin, past, s, Runs.DropNotice(id));
      e, steps := Runs.Next(s, Runs.DropNotice(id)), past + [Runs.DropNotice(id)];
      return None, e, steps;
    }
    NoticesAreObjects(toolName, refusal);
    var text;
    text, e, steps := AccountNotice(budget, RefusalNotice(toolName, refusal), s, id, origin, past);
    result := Some(text);
  }

  /** What a step of a call does to its phase and to the history. */
  lemma {:induction false} Moved(s: Runs.State, step: Runs.Step, id: nat)
    requires Runs.Enabled(s, step) && Runs.Moves(step, id)
    ensures id < |s.calls| && Runs.Next(s, step).calls == s.calls[id := PhaseAfter(s.calls[id], step)]
    ensures Runs.Next(s, step).delivered == s.delivered + Hands(step)
    ensures Runs.Next(s, step).reached == s.reached + if step.ReachTool? then 1 else 0
  {
    hide Cancel, Finish, ReleaseCall, Account;
  }

  function PhaseAfter(phase: Runs.Phase, step: Runs.Step): Runs.Phase
  {
    match step
    case QuotaDenies(_) => if phase.Held? then Runs.Denied(phase.grant) else phase
    case ReachTool(_) => if phase.Held? then Runs.Running(phase.grant) else phase
    case NoOutput(_) => Runs.Empty
    case FinishRunning(_, _, blank) => if blank then Runs.Empty else Runs.Done
    case _ => Runs.Done
  }

  /** The tokens a step hands to the model. */
  function Hands(step: Runs.Step): int
  {
    match step
    case AccountNotice(_, tokens) => tokens
    case FinishDenied(_, tokens) => tokens
    case FinishRunning(_, tokens, blank) => if blank then 0 else tokens
    case _ => 0
  }

  /** The call gets as far as its tool. */
  predicate Reaches(p: Prepared, o: Observed)
  {
    !o.canceledAtStart && p.Granted? && o.quota.Admitted? && !o.canceledBeforeTool
  }

  /** What a call leaves behind that nobody interfered with. */
  predicate Alone(p: Prepared, o: Observed, s: Runs.State, result: Option<string>, e: Runs.State)
  {
    && e.calls == s.calls + [Runs.Done] && e.delivered == s.delivered + Charged(result)
    && e.reached == s.reached + (if Reaches(p, o) then 1 else 0)
    && e.budget.contextReserved == s.budget.contextReserved && e.budget.skillReserved == s.budget.skillReserved
    && e.budget.actualCalls - s.budget.actualCalls == e.reached - s.reached
  }

  /** One call from start to end, among any others that act in between. It is a
      walk of the run's step machine, the call's own part of it is the specified
      one, and it leaves the call settled. Where nobody else acts, what is
      reserved afterwards is what was reserved before. */
  method InvokeTool(budget: RunBudget, toolName: string, o: Observed, s: Runs.State)
    returns (result: Option<string>, e: Runs.State, ghost steps: seq<Runs.Step>)
    requires Runs.Inv(s) && s.budget == budget.State() && NoticesOk(budget.encoder, toolName)
    modifies budget
    ensures At(budget, s, steps, e) && e.delivered <= budget.limits.maxContextTokens
    ensures o.canceledAtStart ==> steps == [] && e == s && result == None
    ensures var p, id := Prepare(s.budget, IsSkillTool(toolName)), |s.calls|;
            !o.canceledAtStart ==>
              && steps != [] && steps[0] == Runs.Start(IsSkillTool(toolName))
              && Runs.By(steps, id) == OwnSteps(budget.encoder, toolName, p, o, id, result)
              && id < |e.calls| && e.calls[id].Done?
              && (steps == [steps[0]] + Runs.By(steps, id) ==> Alone(p, o, s, result, e))
    ensures var p := Prepare(s.budget, IsSkillTool(toolName));
            && (result == None <==> Drops(p, o))
            && (result.Some? && p.Granted? ==> Returns(budget.encoder, toolName, p.grant, o, result.value))
            && (result.Some? && p.Refused? ==>
              (result.value == "" || IsNoticeOf(budget.encoder, RefusalNotice(toolName, p.refusal), result.value)))
  {
    hide TrimSpace, EstimateTextTokens, IsSkillTool, Runs.Inv, Runs.Walk, Runs.By, Returns, IsNoticeOf, Prepare,
        RefusalNotice, EmptyNotice, GrantSteps, Alone, Runs.Next, Runs.Enabled, NoticesOk, BoundPaged, Reaches;
    ghost var p := Prepare(s.budget, IsSkillTool(toolName));
    e, steps := s, [];
    result := None;
    StartsAt(s);
    Runs.DeliveredWithinContext(s);
    if o.canceledAtStart {
      return;
    }
    var id := |s.calls|;
    var start := Runs.Start(IsSkillTool(toolName));
    var prepared, grant, blocked := budget.PrepareToolCall(toolName, o.arguments);
    Started(s, start.skill);
    Took(s, [], s, start);
    e, steps := Runs.Next(s, start), [] + [start];
    e, steps := Others(budget, e, id, s, steps);
    if blocked == None {
      result, e, steps := AfterGrant(budget, toolName, o, grant, e, id, s, steps);
    } else {
      result, e, steps := AfterRefusal(budget, toolName, o, blocked.value, e, id, s, steps);
    }
    Runs.DeliveredWithinContext(e);
    if steps == [steps[0]] + Runs.By(steps, id) {
      AloneSettles(budget.encoder, toolName, p, o, s, result, steps, e);
    }
  }

  /** A call's own steps settle it, hand over what is charged for what it
      returns, and reach the tool as often as it is counted. */
  lemma {:induction false} OwnStepsSettle(encoder: Encoder, toolName: string, p: Prepared, o: Observed, id: nat,
                                          result: Option<string>)
    requires !o.canceledAtStart && (result == None <==> Drops(p, o))
    ensures var own := OwnSteps(encoder, toolName, p, o, id, result);
            && 1 <= |own| <= 3 && (forall k | 0 <= k < |own| :: Runs.Moves(own[k], id))
            && var a := PhaseAfter(if p.Granted? then Runs.Held(p.grant) else Runs.Blocked, own[0]);
               var b := if |own| > 1 then PhaseAfter(a, own[1]) else a;
               && (if |own| > 2 then PhaseAfter(b, own[2]) else b) == Runs.Done
               && Hands(own[0]) + (if |own| > 1 then Hands(own[1]) else 0) + (if |own| > 2 then Hands(own[2]) else 0)
                  == Charged(result)
               && (if own[0].ReachTool? then 1 else 0) + (if |own| > 1 && own[1].ReachTool? then 1 else 0)
                  + (if |own| > 2 && own[2].ReachTool? then 1 else 0) == if Reaches(p, o) then 1 else 0
  {
    hide EstimateTextTokens, SettledText, AnswersNothing;
  }

  /** A call that nobody interfered with: its own steps only. */
  lemma {:induction false} AloneSettles(encoder: Encoder, toolName: string, p: Prepared, o: Observed, s: Runs.State,
                                        result: Option<string>, steps: seq<Runs.Step>, e: Runs.State)
    requires Runs.Inv(s) && Runs.Inv(e) && p == Prepare(s.budget, IsSkillTool(toolName)) && !o.canceledAtStart
    requires steps == [Runs.Start(IsSkillTool(toolName))] + OwnSteps(encoder, toolName, p, o, |s.calls|, result)
    requires Runs.Walk(s, steps) == Some(e)
    requires result == None <==> Drops(p, o)
    ensures Alone(p, o, s, result, e)
  {
    hide Runs.Walk, Prepare, IsSkillTool, Runs.Inv, Runs.Next, Runs.Enabled, Runs.Moves, OwnSteps, PhaseAfter, Hands,
        Charged, Reaches, Drops;
    OwnStepsSettle(encoder, toolName, p, o, |s.calls|, result);
    var id, start := |s.calls|, Runs.Start(IsSkillTool(toolName));
    StartsAt(s);
    Runs.WalkOn(s, [], start);
    Started(s, start.skill);
    assert [] + [start] == [start];
    var own := OwnSteps(encoder, toolName, p, o, id, result);
    WalkOfThree(s, Runs.Next(s, start), start, own, id, e);
    SettledAlike(s, e);
  }

  /** A call that starts and then takes up to three steps of its own. */
  lemma {:induction false} WalkOfThree(s: Runs.State, t: Runs.State, start: Runs.Step, own: seq<Runs.Step>, id: nat,
                                       e: Runs.State)
    requires Runs.Walk(s, [start]) == Some(t) && Runs.Walk(s, [start] + own) == Some(e)
    requires 1 <= |own| <= 3 && forall k | 0 <= k < |own| :: Runs.Moves(own[k], id)
    ensures id < |t.calls|
    ensures var a := PhaseAfter(t.calls[id], own[0]);
            var b := if |own| > 1 then PhaseAfter(a, own[1]) else a;
            e.calls == t.calls[id := if |own| > 2 then PhaseAfter(b, own[2]) else b]
    ensures e.delivered == t.delivered + Hands(own[0]) + (if |own| > 1 then Hands(own[1]) else 0)
                 + (if |own| > 2 then Hands(own[2]) else 0)
    ensures e.reached == t.reached + (if own[0].ReachTool? then 1 else 0)
                 + (if |own| > 1 && own[1].ReachTool? then 1 else 0) + (if |own| > 2 && own[2].ReachTool? then 1 else 0)
  {
    hide Runs.Walk, Runs.Next, Runs.Enabled, PhaseAfter, Hands, Runs.Moves;
    var n := |own| - 1;
    var init := [start] + own[..n];
    assert [start] + own == init + [own[n]];
    Runs.WalkOn(s, init, own[n]);
    var m := Runs.Walk(s, init).value;
    Moved(m, own[n], id);
    if n == 0 {
      assert init == [start];
    } else {
      WalkOfThree(s, t, start, own[..n], id, m);
    }
  }

  /** One more settled call changes what is reserved by nothing. */
  lemma {:induction false} SettledAlike(s: Runs.State, e: Runs.State)
    requires Runs.Inv(s) && Runs.Inv(e) && (e.calls == s.calls || e.calls == s.calls + [Runs.Done])
    ensures e.budget.contextReserved == s.budget.contextReserved && e.budget.skillReserved == s.budget.skillReserved
    ensures e.budget.actualCalls - s.budget.actualCalls == e.reached - s.reached
  {
    hide Runs.Outstanding, Runs.OutstandingSkill, Runs.Waiting;
    Runs.OutstandingAppend(s.calls, Runs.Done);
  }
}
