/** The context budget of one agent run: what each operation on it does. The
    limits bound the tokens all tool results of the run may add together. */
module ToolBudget {
  import opened Text

  const DEFAULT_WINDOW := 128000
  const ROUND_LIMIT := 8
  const CALL_LIMIT := 24
  const MIN_CONTEXT_TOKENS := 2048
  const MAX_CONTEXT_TOKENS := 32000
  const MIN_GRANT_TOKENS := 512

  datatype Limits = Limits(
    maxRounds: int,
    maxCalls: int,
    maxResultTokens: int,
    maxContextTokens: int,
    maxSkillTokens: int)

  /** The part of the maximum kept back for notices of calls that get no grant;
      all of it when what would remain could not hold one grant. */
  function TerminalReserve(maximum: int): (r: int)
    ensures 0 <= r <= Max(maximum, 0)
    ensures maximum - r < MIN_GRANT_TOKENS ==> r == Max(maximum, 0)
  {
    if maximum <= 0 then 0
    else
      var reserve := Min(576, maximum / 4);
      if maximum - reserve < MIN_GRANT_TOKENS then maximum else reserve
  }

  function UsableMaximum(l: Limits): int { l.maxContextTokens - TerminalReserve(l.maxContextTokens) }

  /** What one notice may take out of the reserve. */
  function PerNotice(l: Limits): (n: int)
    ensures n >= 8
  {
    Max(TerminalReserve(l.maxContextTokens) / Max(l.maxCalls, 1), 8)
  }

  function NewLimits(requestedWindow: int): Limits
  {
    var window := if requestedWindow > 0 then requestedWindow else DEFAULT_WINDOW;
    var context := Min(Max(window / 8, Min(MIN_CONTEXT_TOKENS, window / 4)), MAX_CONTEXT_TOKENS);
    var usable := context - TerminalReserve(context);
    var quarter := if context / 4 < MIN_GRANT_TOKENS <= usable then MIN_GRANT_TOKENS else context / 4;
    Limits(ROUND_LIMIT, CALL_LIMIT, Min(quarter, 8000), context, Min(context / 2, 12000))
  }

  /** The tool budget stays inside the model's window, and a fresh run can
      start a tool exactly when the window leaves room for one whole grant
      beside the reserve. */
  lemma {:induction false} NewLimitsFit(window: int)
    requires window > 0
    ensures var l := NewLimits(window);
            && 0 <= l.maxContextTokens <= window / 4
            && 0 <= l.maxSkillTokens <= l.maxContextTokens && l.maxResultTokens <= l.maxContextTokens
            && (Prepare(NewBudget(l), false).Granted? <==> window >= 2728)
  {
    var l := NewLimits(window);
    if window / 4 < MIN_CONTEXT_TOKENS {
      assert l.maxContextTokens == window / 4;
    } else {
      assert l.maxContextTokens >= MIN_CONTEXT_TOKENS;
    }
  }

  datatype Budget = Budget(
    limits: Limits,
    contextUsed: int,
    contextReserved: int,
    skillUsed: int,
    skillReserved: int,
    skillBlocked: bool,
    forceFinal: bool,
    actualCalls: int)

  function NewBudget(l: Limits): Budget { Budget(l, 0, 0, 0, 0, false, false, 0) }

  datatype Grant = Grant(tokens: int, skill: bool)

  datatype Refusal = RunExhausted | SkillExhausted | CallLimitReached | ContextExhausted | ContextPending

  datatype Prepared =
    | Granted(after: Budget, grant: Grant)
    | Refused(after: Budget, refusal: Refusal)

  /** The tokens the next call could be given. */
  function Room(b: Budget, skill: bool): int
  {
    var limit := Min(b.limits.maxResultTokens, UsableMaximum(b.limits) - b.contextUsed - b.contextReserved);
    if skill then Min(limit, b.limits.maxSkillTokens - b.skillUsed - b.skillReserved) else limit
  }

  function Prepare(b: Budget, skill: bool): Prepared
  {
    if b.forceFinal then Refused(b, RunExhausted)
    else if skill && b.skillBlocked then Refused(b, SkillExhausted)
    else if b.actualCalls >= b.limits.maxCalls then Refused(b.(forceFinal := true), CallLimitReached)
    else
      var limit := Room(b, skill);
      if limit < MIN_GRANT_TOKENS then
        if skill && b.skillReserved == 0 then Refused(b.(skillBlocked := true), SkillExhausted)
        else if b.contextReserved == 0 then Refused(b.(forceFinal := true), ContextExhausted)
        else Refused(b, ContextPending)
      else
        Granted(b.(contextReserved := b.contextReserved + limit,
                   skillReserved := if skill then b.skillReserved + limit else b.skillReserved,
                   actualCalls := b.actualCalls + 1),
                Grant(limit, skill))
  }

  function Cancel(b: Budget, g: Grant, releaseCall: bool): Budget
  {
    b.(contextReserved := Max(b.contextReserved - g.tokens, 0),
       skillReserved := if g.skill then Max(b.skillReserved - g.tokens, 0) else b.skillReserved,
       actualCalls := if releaseCall then b.actualCalls - 1 else b.actualCalls)
  }

  function ReleaseCall(b: Budget): Budget { b.(actualCalls := b.actualCalls - 1) }

  function Finish(b: Budget, g: Grant, consumed: int): Budget
  {
    var reserved := Max(b.contextReserved - g.tokens, 0);
    var skillReserved := if g.skill then Max(b.skillReserved - g.tokens, 0) else b.skillReserved;
    var skillUsed := if g.skill then b.skillUsed + consumed else b.skillUsed;
    var used := b.contextUsed + consumed;
    b.(contextReserved := reserved, contextUsed := used, skillReserved := skillReserved, skillUsed := skillUsed,
       skillBlocked := b.skillBlocked
           || (g.skill && b.limits.maxSkillTokens - skillUsed < MIN_GRANT_TOKENS && skillReserved == 0),
       forceFinal := b.forceFinal || (b.limits.maxContextTokens - used < MIN_GRANT_TOKENS && reserved == 0))
  }

  /** What is left for a notice: everything no result has used or reserved. */
  function NoticeLimit(b: Budget): int
  {
    Min(b.limits.maxContextTokens - b.contextUsed - b.contextReserved, PerNotice(b.limits))
  }

  function Account(b: Budget, consumed: int): Budget
  {
    var used := b.contextUsed + consumed;
    b.(contextUsed := used,
       forceFinal := b.forceFinal || (b.limits.maxContextTokens - used < MIN_GRANT_TOKENS && b.contextReserved == 0))
  }

  function BeforeModel(b: Budget, rounds: int, calls: int): Budget
  {
    if rounds >= b.limits.maxRounds || calls >= b.limits.maxCalls || b.actualCalls >= b.limits.maxCalls || b.forceFinal
    then b.(forceFinal := true) else b
  }

  /** The JSON texts the operations produce, as functions of their inputs:
      the bounded form of a tool's result, the notice that replaces one that
      still does not fit, and the digest of a notice (its reason, code, tool). */
  datatype Encoder = Encoder(
    shorten: (string, string, int) -> string,
    tooLarge: string -> string,
    digest: string -> string)

  /** The text a grant is settled with. */
  function SettledText(encoder: Encoder, toolName: string, result: string, tokens: int): string
  {
    var bounded := encoder.shorten(toolName, result, tokens);
    if EstimateTextTokens(bounded) <= tokens then bounded else encoder.tooLarge(toolName)
  }

  /** Every result of the tool is settled within its grant. */
  ghost predicate Settles(encoder: Encoder, toolName: string)
  {
    forall result, tokens | tokens >= MIN_GRANT_TOKENS ::
      EstimateTextTokens(SettledText(encoder, toolName, result, tokens)) <= tokens
  }

  /** What can become of a notice. */
  predicate IsNoticeOf(encoder: Encoder, notice: string, text: string)
  {
    text == notice || text == encoder.digest(notice) || text == "{\"ok\":false}" || text == "{}"
  }

  predicate IsSkillTool(toolName: string)
  {
    "skill_" <= TrimSpace(toolName)
  }

  /** A tool's arguments as far as paging looks at them: the numbers asked for,
      None where there is none, and all else as it is. */
  datatype Arguments = Undecoded(text: string) | Fields(maxItems: Option<int>, maxChars: Option<int>, others: string)

  function Clamp(asked: Option<int>, maximum: int): (n: int)
    requires maximum >= 1
    ensures 1 <= n <= maximum && (asked.Some? && 1 <= asked.value <= maximum ==> n == asked.value)
  {
    if asked.Some? && 0 < asked.value <= maximum then asked.value else maximum
  }

  /** The paged tools are asked for no more than the grant can take; a smaller
      page that was asked for stays. */
  function BoundPaged(toolName: string, a: Arguments, limit: int): (b: Arguments)
    ensures b.Undecoded? == a.Undecoded? && (b.Fields? ==> b.others == a.others)
    ensures b != a ==> toolName == "skill_list" || toolName == "skill_read" || toolName == "file_read"
    ensures limit >= MIN_GRANT_TOKENS && a.Fields? && (toolName == "skill_read" || toolName == "file_read") ==>
              b.maxItems == a.maxItems && b.maxChars.Some? && 1 <= b.maxChars.value <= limit - 200
              && (a.maxChars.Some? && 1 <= a.maxChars.value <= limit - 200 ==> b.maxChars == a.maxChars)
    ensures limit >= MIN_GRANT_TOKENS && a.Fields? && toolName == "skill_list" ==>
              b.maxChars == Some(limit) && b.maxItems.Some? && 1 <= b.maxItems.value && 300 * b.maxItems.value <= limit
              && (a.maxItems.Some? && 1 <= a.maxItems.value && 300 * a.maxItems.value <= limit ==>
                b.maxItems == a.maxItems)
  {
    if a.Undecoded? then a
    else if toolName == "skill_list" then
      a.(maxItems := Some(Clamp(a.maxItems, Max(limit / 300, 1))), maxChars := Some(Max(limit, 256)))
    else if toolName == "skill_read" || toolName == "file_read" then
      a.(maxChars := Some(Clamp(a.maxChars, Max(limit - 200, 64))))
    else a
  }

  /** A message of the conversation: an assistant's with its number of calls,
      the final notice with the numbers it names, or any other. */
  datatype Turn =
    | Assistant(calls: int)
    | FinalNotice(rounds: int, calls: int, maxRounds: int, maxCalls: int)
    | OtherTurn

  /** Assistant messages with calls, and their calls. */
  function ToolUse(turns: seq<Turn>): (int, int)
  {
    if turns == [] then (0, 0)
    else
      var (rounds, calls) := ToolUse(turns[..|turns| - 1]);
      var last := turns[|turns| - 1];
      if last.Assistant? && last.calls > 0 then (rounds + 1, calls + last.calls) else (rounds, calls)
  }

  /** The messages a run added to the conversation it started from. */
  function Added(turns: seq<Turn>, baseline: nat): seq<Turn>
  {
    turns[Min(baseline, |turns|)..]
  }

  lemma {:induction false} TinyNotices()
    ensures EstimateTextTokens("{\"ok\":false}") == 4 && EstimateTextTokens("{}") == 1
  {
    hide ByteLen;
    AsciiByteLen("{\"ok\":false}");
    AsciiByteLen("{}");
  }

  /** A notice is cut down in steps and always fits a positive limit; only a
      limit that is not positive leaves nothing of it. */
  method BoundTerminalToolResult(encoder: Encoder, result: string, limit: int) returns (bounded: string)
    ensures EstimateTextTokens(bounded) <= Max(limit, 0)
    ensures limit > 0 && EstimateTextTokens(result) <= limit ==> bounded == result
    ensures limit > 0 && EstimateTextTokens(result) > limit ==>
              bounded == encoder.digest(result) || bounded == "{\"ok\":false}" || bounded == "{}"
    ensures limit >= 4 && EstimateTextTokens(result) > limit ==> bounded != "{}" || encoder.digest(result) == "{}"
  {
    if limit <= 0 {
      return "";
    }
    if EstimateTextTokens(result) <= limit {
      return result;
    }
    TinyNotices();
    var data := encoder.digest(result);
    if EstimateTextTokens(data) <= limit {
      return data;
    }
    var minimal := "{\"ok\":false}";
    if EstimateTextTokens(minimal) <= limit {
      return minimal;
    }
    return "{}";
  }

  /** The shared budget of a run. Every method is one critical section of its
      mutex, so a run is an interleaving of these methods. */
  class RunBudget {
    const encoder: Encoder
    const limits: Limits
    var contextUsed: int
    var contextReserved: int
    var skillUsed: int
    var skillReserved: int
    var skillBlocked: bool
    var forceFinal: bool
    var actualCalls: int
    var baseline: Option<nat>   // how long the conversation was at the first model turn
    var noteAdded: bool

    function State(): Budget
      reads this
    {
      Budget(limits, contextUsed, contextReserved, skillUsed, skillReserved, skillBlocked, forceFinal, actualCalls)
    }

    constructor (encoder: Encoder, limits: Limits)
      ensures State() == NewBudget(limits) && this.encoder == encoder && baseline == None && !noteAdded
    {
      this.encoder, this.limits := encoder, limits;
      contextUsed, contextReserved, skillUsed, skillReserved := 0, 0, 0, 0;
      skillBlocked, forceFinal, actualCalls := false, false, 0;
      baseline, noteAdded := None, false;
    }

    method PrepareToolCall(toolName: string, arguments: Arguments)
      returns (prepared: Arguments, grant: Grant, blocked: Option<Refusal>)
      modifies this`contextReserved, this`skillReserved, this`skillBlocked, this`forceFinal, this`actualCalls
      ensures var p := Prepare(old(State()), IsSkillTool(toolName));
              && State() == p.after
              && (p.Granted? ==> blocked == None && grant == p.grant)
              && (p.Granted? ==> prepared == BoundPaged(toolName, arguments, grant.tokens))
              && (p.Refused? ==> blocked == Some(p.refusal) && grant == Grant(0, false) && prepared == arguments)
    {
      hide IsSkillTool, TerminalReserve, BoundPaged;
      prepared, grant := arguments, Grant(0, false);
      if forceFinal {
        return prepared, grant, Some(RunExhausted);
      }
      var skill := IsSkillTool(toolName);
      if skill && skillBlocked {
        return prepared, grant, Some(SkillExhausted);
      }
      if actualCalls >= limits.maxCalls {
        forceFinal := true;
        return prepared, grant, Some(CallLimitReached);
      }
      var limit := limits.maxResultTokens;
      var remaining := UsableMaximum(limits) - contextUsed - contextReserved;
      if remaining < limit { limit := remaining; }
      if skill {
        remaining := limits.maxSkillTokens - skillUsed - skillReserved;
        if remaining < limit { limit := remaining; }
      }
      if limit < MIN_GRANT_TOKENS {
        if skill && skillReserved == 0 {
          skillBlocked := true;
          return prepared, grant, Some(SkillExhausted);
        }
        if contextReserved == 0 {
          forceFinal := true;
          return prepared, grant, Some(ContextExhausted);
        }
        return prepared, grant, Some(ContextPending);
      }
      contextReserved := contextReserved + limit;
      if skill { skillReserved := skillReserved + limit; }
      actualCalls := actualCalls + 1;
      return BoundPaged(toolName, arguments, limit), Grant(limit, skill), None;
    }

    method CancelToolGrant(grant: Grant, releaseCall: bool)
      modifies this`contextReserved, this`skillReserved, this`actualCalls
      ensures State() == if grant.tokens <= 0 then old(State()) else Cancel(old(State()), grant, releaseCall)
    {
      if grant.tokens <= 0 {
        return;
      }
      contextReserved := Max(contextReserved - grant.tokens, 0);
      if grant.skill { skillReserved := Max(skillReserved - grant.tokens, 0); }
      if releaseCall { actualCalls := actualCalls - 1; }
    }

    method ReleaseActualCall()
      modifies this`actualCalls
      ensures State() == ReleaseCall(old(State()))
    {
      actualCalls := actualCalls - 1;
    }

    method AccountUnreservedResult(result: string) returns (bounded: string)
      modifies this`contextUsed, this`forceFinal
      ensures TrimSpace(result) == "" ==> bounded == result && State() == old(State())
      ensures TrimSpace(result) != "" && old(NoticeLimit(State())) <= 0 ==> bounded == "" && State() == old(State())
      ensures TrimSpace(result) != "" && old(NoticeLimit(State())) > 0 ==>
                && State() == Account(old(State()), EstimateTextTokens(bounded))
                && EstimateTextTokens(bounded) <= old(NoticeLimit(State()))
                && IsNoticeOf(encoder, result, bounded)
    {
      hide TrimSpace, PerNotice, EstimateTextTokens;
      if TrimSpace(result) == "" {
        return result;
      }
      var remaining := limits.maxContextTokens - contextUsed - contextReserved;
      if remaining <= 0 {
        return "";
      }
      var limit := Min(remaining, PerNotice(limits));
      bounded := BoundTerminalToolResult(encoder, result, limit);
      contextUsed := contextUsed + EstimateTextTokens(bounded);
      if limits.maxContextTokens - contextUsed < MIN_GRANT_TOKENS && contextReserved == 0 {
        forceFinal := true;
      }
    }

    /** The returned text fits the grant whenever the replacement notice does;
        its true size is what is charged in any case. */
    method FinishToolResult(toolName: string, result: string, grant: Grant) returns (bounded: string)
      modifies this`contextReserved, this`contextUsed, this`skillReserved, this`skillUsed, this`skillBlocked,
          this`forceFinal
      ensures grant.tokens <= 0 ==> bounded == result && State() == old(State())
      ensures grant.tokens > 0 ==> State() == Finish(old(State()), grant, EstimateTextTokens(bounded))
      ensures grant.tokens > 0 ==>
                bounded == SettledText(encoder, toolName, result, grant.tokens)
      ensures grant.tokens > 0 && !old(forceFinal) ==>
                (forceFinal <==> contextReserved == 0 && limits.maxContextTokens - contextUsed < MIN_GRANT_TOKENS)
    {
      if grant.tokens <= 0 {
        return result;
      }
      bounded := encoder.shorten(toolName, result, grant.tokens);
      var consumed := EstimateTextTokens(bounded);
      if consumed > grant.tokens {
        bounded := encoder.tooLarge(toolName);
        consumed := EstimateTextTokens(bounded);
      }
      contextReserved := Max(contextReserved - grant.tokens, 0);
      contextUsed := contextUsed + consumed;
      if grant.skill {
        skillReserved := Max(skillReserved - grant.tokens, 0);
        skillUsed := skillUsed + consumed;
        if limits.maxSkillTokens - skillUsed < MIN_GRANT_TOKENS && skillReserved == 0 {
          skillBlocked := true;
        }
      }
      if limits.maxContextTokens - contextUsed < MIN_GRANT_TOKENS && contextReserved == 0 {
        forceFinal := true;
      }
    }

    /** Before each model turn: counts the tool use of this run and, once a limit
        is reached, forces the final answer; the notice that says so is added to
        the conversation exactly once. */
    method BeforeModelRewriteState(turns: seq<Turn>) returns (after: seq<Turn>)
      modifies this`forceFinal, this`baseline, this`noteAdded
      ensures baseline == if old(baseline).Some? then old(baseline) else Some(|turns|)
      ensures var use := ToolUse(Added(turns, baseline.value));
              && State() == BeforeModel(old(State()), use.0, use.1)
              && noteAdded == (old(noteAdded) || forceFinal)
              && after == if forceFinal && !old(noteAdded)
                          then turns + [FinalNotice(use.0, Max(use.1, actualCalls), limits.maxRounds, limits.maxCalls)]
                          else turns
    {
      hide ToolUse;
      after := turns;
      if baseline.None? {
        baseline := Some(|turns|);
      }
      var rounds, calls := CountGeneratedToolUse(turns, baseline.value);
      if rounds >= limits.maxRounds || calls >= limits.maxCalls || actualCalls >= limits.maxCalls || forceFinal {
        forceFinal := true;
        if !noteAdded {
          noteAdded := true;
          after := turns + [FinalNotice(rounds, Max(calls, actualCalls), limits.maxRounds, limits.maxCalls)];
        }
      }
    }
  }

  method CountGeneratedToolUse(turns: seq<Turn>, baseline: nat) returns (rounds: int, calls: int)
    ensures (rounds, calls) == ToolUse(Added(turns, baseline))
  {
    var start := Min(baseline, |turns|);
    rounds, calls := 0, 0;
    for k := start to |turns|
      invariant (rounds, calls) == ToolUse(turns[start..k])
    {
      assert turns[start..k + 1][..k - start] == turns[start..k];
      if turns[k].Assistant? && turns[k].calls > 0 {
        rounds, calls := rounds + 1, calls + turns[k].calls;
      }
    }
    assert turns[start..|turns|] == turns[start..];
  }
}
