/** The AI run protocol of one conversation: runs, tool calls, drafts, handoffs and replies. */
module AiRuns {
  import opened Totals

  datatype RunStatus = Queued | Running | Waiting | Completed | HandedOff | Failed | Superseded

  datatype Mode = Suggest | Autopilot

  datatype Run = Run(status: RunStatus, mode: Mode, rounds: nat, key: string)

  /** The two handoff tools are always available; the others are governed by policy. */
  datatype Tool = Unknown(name: string) | HumanHandoff | BookingHandoff | Governed(name: string, mutating: bool)

  datatype CallStatus = Proposed | Awaiting | Approved | Executing | Succeeded | CallFailed | Rejected | Cancelled

  datatype Call = Call(run: nat, callId: string, tool: Tool, status: CallStatus)

  datatype DraftStatus = Pending | Sent | Edited | Refused | Outdated

  datatype Draft = Draft(run: nat, status: DraftStatus)

  datatype HandoffStatus = Open | Acknowledged | Resolved

  datatype Handoff = Handoff(run: Option<nat>, status: HandoffStatus)

  /** An outbound message of a run: sent by autopilot, or from a draft; `failed` when the channel reported failure. */
  datatype Reply = Reply(run: nat, auto: bool, failed: bool)

  /** The autopilot states of the channels are one here. */
  datatype AiState = Off | Suggesting | Piloting | PausedByHuman | HandoffRequired

  /** Rows are never removed and are addressed by position. */
  datatype Conversation = Conversation(
    runs: seq<Run>, calls: seq<Call>, drafts: seq<Draft>, handoffs: seq<Handoff>, replies: seq<Reply>, state: AiState)

  // ----- what is not modelled decides freely -----

  /** How a tool's handler ends. */
  datatype Outcome = Done | ToolRefused | Crashed

  /** A tool call the provider proposes; whether its arguments validate and how its handler ends are free. */
  datatype Proposal = Proposal(callId: string, tool: Tool, valid: bool, outcome: Outcome)

  /** One answer of the provider: none, tool calls, or else a text that passes the safety checks or does not. */
  datatype Generation = Unavailable | Generated(calls: seq<Proposal>, safe: bool)

  datatype ToolMode = Disabled | RequireApproval | Automatic

  datatype Channel = PublicWebChat | HandingOff | Plain

  datatype Sending = Sends | Fails | Blocks | Breaks

  /** Why processing stops with an exception. */
  datatype Stop = ProviderDown | ToolError | SendBlocked | ContextChanged | Other

  /** The configuration and circumstances of one call of `process_run`. */
  datatype Setting = Setting(
    maxRounds: nat, maxCalls: nat, modes: map<string, ToolMode>, hasActor: bool, channel: Channel, pilotAllowed: bool,
    humanReplied: bool, obstacle: Option<Stop>, sending: Sending)

  // ----- rows -----

  predicate Active(status: RunStatus) { status.Queued? || status.Running? || status.Waiting? }

  function IsActive(): Run -> nat { (x: Run) => if Active(x.status) then 1 else 0 }

  function IsPending(): Draft -> nat { (x: Draft) => if x.status.Pending? then 1 else 0 }

  function IsUnresolved(): Handoff -> nat { (x: Handoff) => if x.status.Resolved? then 0 else 1 }

  function IsAwaiting(r: nat): Call -> nat { (x: Call) => if x.run == r && x.status.Awaiting? then 1 else 0 }

  /** Queued, running or waiting runs. */
  function ActiveRuns(s: Conversation): nat { Total(IsActive(), s.runs) }

  function PendingDrafts(s: Conversation): nat { Total(IsPending(), s.drafts) }

  /** Open or acknowledged handoffs. */
  function UnresolvedHandoffs(s: Conversation): nat { Total(IsUnresolved(), s.handoffs) }

  function AwaitingCalls(s: Conversation, r: nat): nat { Total(IsAwaiting(r), s.calls) }

  function WithStatus(s: Conversation, r: nat, status: RunStatus): Conversation {
    if r < |s.runs| then s.(runs := s.runs[r := s.runs[r].(status := status)]) else s
  }

  function HasCallId(r: nat, callId: string): Call -> bool { (c: Call) => c.run == r && c.callId == callId }

  function FindCall(calls: seq<Call>, r: nat, callId: string): (i: Option<nat>)
    ensures i.Some? ==> i.value < |calls| && calls[i.value].run == r && calls[i.value].callId == callId
  {
    Find(HasCallId(r, callId), calls)
  }

  function DraftOf(r: nat): Draft -> bool { (d: Draft) => d.run == r }

  function FindDraft(drafts: seq<Draft>, r: nat): (i: Option<nat>)
    ensures i.Some? ==> i.value < |drafts| && drafts[i.value].run == r
  {
    Find(DraftOf(r), drafts)
  }

  function AutoReplyOf(r: nat): Reply -> bool { (x: Reply) => x.run == r && x.auto }

  /** The reply already stored under the run's client message id. */
  function FindReply(replies: seq<Reply>, r: nat): (i: Option<nat>)
    ensures i.Some? ==> i.value < |replies| && replies[i.value].run == r && replies[i.value].auto
  {
    Find(AutoReplyOf(r), replies)
  }

  /** `AIToolCall.objects.get_or_create`. */
  function Recorded(s: Conversation, r: nat, p: Proposal, status: CallStatus): Conversation {
    if FindCall(s.calls, r, p.callId).Some? then s else s.(calls := s.calls + [Call(r, p.callId, p.tool, status)])
  }

  /** `AIDraft.objects.update_or_create`: an existing draft keeps its status. */
  function Drafted(s: Conversation, r: nat): Conversation {
    if FindDraft(s.drafts, r).Some? then s else s.(drafts := s.drafts + [Draft(r, Pending)])
  }

  /** `create_handoff` on behalf of a run whose status the caller holds as `held`. */
  function CreateHandoff(s: Conversation, run: Option<nat>, held: RunStatus): Conversation {
    if 0 < UnresolvedHandoffs(s) then
      if run.Some? && !held.HandedOff? && !held.Completed? then WithStatus(s, run.value, HandedOff) else s
    else
      var t := s.(handoffs := s.handoffs + [Handoff(run, Open)], state := HandoffRequired);
      if run.Some? then WithStatus(t, run.value, HandedOff) else t
  }

  // ----- tools -----

  predicate AlwaysAvailable(tool: Tool) { tool.HumanHandoff? || tool.BookingHandoff? }

  predicate Mutates(tool: Tool) { AlwaysAvailable(tool) || (tool.Governed? && tool.mutating) }

  function ModeOf(env: Setting, tool: Tool): ToolMode {
    if AlwaysAvailable(tool) then Automatic
    else if tool.Governed? && tool.name in env.modes then env.modes[tool.name]
    else Disabled
  }

  /** `execute_tool`: None when it returns an output. */
  function Execute(s: Conversation, c: nat, outcome: Outcome): (Conversation, Option<Stop>)
    requires c < |s.calls|
  {
    var call := s.calls[c];
    if call.status.Succeeded? then (s, None)
    else if call.status.Executing? || call.tool.Unknown? then (s, Some(ToolError))
    else match outcome
      case ToolRefused => (s, Some(ToolError))
      case Crashed => (s, Some(Other))
      case Done =>
        var t := if AlwaysAvailable(call.tool) && call.run < |s.runs| then CreateHandoff(s, Some(call.run), s.runs[call.run].status) else s;
        (t.(calls := t.calls[c := call.(status := Succeeded)]), None)
  }

  /** How the loop over proposed calls ends: with the run's processing over, with an exception, or through to the end. */
  datatype Flow = Stopped | Raised(stop: Stop) | Through(pending: bool)

  /** What the loop did: the state, how it ended, and how many tools it executed. */
  datatype Pass = Pass(after: Conversation, flow: Flow, executions: nat)

  /** A proposal refused by validation or policy: recorded as rejected, and handed off. */
  function RefuseProposal(s: Conversation, r: nat, p: Proposal): Conversation {
    CreateHandoff(Recorded(s, r, p, Rejected), Some(r), Running)
  }

  /** One round of the loop in `_handle_tool_calls`; Through(pending) when the loop goes on. */
  function RunCall(env: Setting, s: Conversation, r: nat, p: Proposal, pending: bool): Pass {
    if p.tool.Unknown? || !p.valid || ModeOf(env, p.tool).Disabled? then Pass(RefuseProposal(s, r, p), Stopped, 0)
    else if ModeOf(env, p.tool).RequireApproval? then Pass(Recorded(s, r, p, Awaiting), Through(true), 0)
    else
      var t := Recorded(s, r, p, Proposed);
      if Mutates(p.tool) && !env.hasActor then Pass(t, Raised(ToolError), 0)
      else
        var c := FindCall(t.calls, r, p.callId);
        if c.None? then Pass(t, Raised(Other), 0)
        else
          var (u, stop) := Execute(t, c.value, p.outcome);
          Pass(u, if stop.Some? then Raised(stop.value) else if p.tool.HumanHandoff? then Stopped else Through(pending), 1)
  }

  /** The loop over the proposed calls. */
  function RunCalls(env: Setting, s: Conversation, r: nat, calls: seq<Proposal>, pending: bool): Pass
    decreases |calls|
  {
    if calls == [] then Pass(s, Through(pending), 0)
    else
      var first := RunCall(env, s, r, calls[0], pending);
      if !first.flow.Through? then first
      else
        var rest := RunCalls(env, first.after, r, calls[1..], first.flow.pending);
        rest.(executions := first.executions + rest.executions)
  }

  // ----- the end of a run -----

  /** The handlers of `process_run`. */
  function Caught(env: Setting, s: Conversation, r: nat, stop: Stop): Conversation {
    match stop
    case ProviderDown => if env.channel.PublicWebChat? then CreateHandoff(s, Some(r), Running) else WithStatus(s, r, Failed)
    case ToolError => CreateHandoff(s, Some(r), Running)
    case SendBlocked => if env.channel.HandingOff? then CreateHandoff(s, Some(r), Running) else WithStatus(s, r, Failed)
    case ContextChanged => WithStatus(s, r, Superseded)
    case Other => WithStatus(s, r, Failed)
  }

  /** `_can_autopilot`. */
  predicate CanAutopilot(env: Setting, s: Conversation, r: nat) {
    s.state.Piloting? && env.pilotAllowed && !env.humanReplied && UnresolvedHandoffs(s) == 0 && AwaitingCalls(s, r) == 0
  }

  /** Sending the autopilot reply, at most one a run, and closing the run. */
  function SendReply(env: Setting, s: Conversation, r: nat): Conversation {
    var stored := FindReply(s.replies, r);
    if stored.Some? then WithStatus(s, r, if s.replies[stored.value].failed then Failed else Completed)
    else match env.sending
      case Sends => WithStatus(s.(replies := s.replies + [Reply(r, true, false)]), r, Completed)
      case Fails => WithStatus(s.(replies := s.replies + [Reply(r, true, true)]), r, Failed)
      case Blocks => Caught(env, s, r, SendBlocked)
      case Breaks => Caught(env, s, r, Other)
  }

  /** `_complete_text`. */
  function CompleteText(env: Setting, s: Conversation, r: nat, safe: bool): Conversation
    requires r < |s.runs|
  {
    if !safe then CreateHandoff(s, Some(r), Running)
    else if s.runs[r].mode.Autopilot? && CanAutopilot(env, s, r) then SendReply(env, s, r)
    else WithStatus(Drafted(s, r), r, Completed)
  }

  // ----- process_run -----

  /** A processed conversation, with the number of generations asked for and of tools executed. */
  datatype Trace = Trace(after: Conversation, generations: nat, executions: nat)

  function WithRounds(s: Conversation, r: nat, rounds: nat): Conversation {
    if r < |s.runs| then s.(runs := s.runs[r := s.runs[r].(rounds := rounds)]) else s
  }

  /** The n-th generation and everything after it, `rounds` tool rounds having been used. */
  function Generate(env: Setting, provider: nat -> Generation, s: Conversation, r: nat, n: nat, rounds: nat): Trace
    decreases if rounds < env.maxRounds then env.maxRounds - rounds else 0
  {
    var answer := provider(n);
    if |s.runs| <= r then Trace(s, 1, 0)
    else if answer.Unavailable? then Trace(Caught(env, s, r, ProviderDown), 1, 0)
    else if answer.calls == [] then Trace(CompleteText(env, s, r, answer.safe), 1, 0)
    else if env.maxRounds <= rounds || env.maxCalls < |answer.calls| then Trace(CreateHandoff(s, Some(r), Running), 1, 0)
    else
      var pass := RunCalls(env, s, r, answer.calls, false);
      match pass.flow
      case Stopped => Trace(pass.after, 1, pass.executions)
      case Raised(stop) => Trace(Caught(env, pass.after, r, stop), 1, pass.executions)
      case Through(pending) =>
        var t := WithRounds(pass.after, r, rounds + 1);
        if pending then Trace(WithStatus(t, r, Waiting), 1, pass.executions)
        else
          var rest := Generate(env, provider, t, r, n + 1, rounds + 1);
          Trace(rest.after, rest.generations + 1, rest.executions + pass.executions)
  }

  /** `process_run`. */
  function ProcessRun(env: Setting, provider: nat -> Generation, s: Conversation, r: nat): Trace {
    if |s.runs| <= r || !(s.runs[r].status.Queued? || s.runs[r].status.Running?) then Trace(s, 0, 0)
    else if !(s.state.Suggesting? || s.state.Piloting?) || env.humanReplied then Trace(WithStatus(s, r, Superseded), 0, 0)
    else
      var t := WithStatus(s, r, Running);
      if env.obstacle.Some? then Trace(Caught(env, t, r, env.obstacle.value), 0, 0)
      else Generate(env, provider, t, r, 0, t.runs[r].rounds)
  }

  // ----- the other entry points -----

  function HasTaskKey(key: string): Run -> bool { (x: Run) => x.key == key }

  function FindRun(runs: seq<Run>, key: string): (i: Option<nat>)
    ensures i.Some? ==> i.value < |runs| && runs[i.value].key == key
  {
    Find(HasTaskKey(key), runs)
  }

  /**
    `create_queued_run`: the run's position or the error.  `refusal` and `lateRefusal` are the errors of the checks before
    and after the ones modelled, `demoted` says that test autopilot is not allowed here.
    */
  function QueueRun(s: Conversation, key: string, requested: Option<AiState>, refusal: Option<string>, demoted: bool, lateRefusal: Option<string>):
    (Conversation, Result<nat>)
  {
    var selected := if requested.Some? then requested.value else s.state;
    if refusal.Some? then (s, Err(refusal.value))
    else if !selected.Suggesting? && !selected.Piloting? then (s, Err("conversation_ai_paused"))
    else if 0 < UnresolvedHandoffs(s) then (s, Err("active_handoff"))
    else if FindRun(s.runs, key).Some? then (s, Ok(FindRun(s.runs, key).value))
    else if 0 < ActiveRuns(s) || 0 < PendingDrafts(s) then (s, Err("active_run"))
    else if lateRefusal.Some? then (s, Err(lateRefusal.value))
    else
      var mode := if selected.Piloting? && !demoted then Autopilot else Suggest;
      (s.(runs := s.runs + [Run(Queued, mode, 0, key)]), Ok(|s.runs|))
  }

  /** `supersede_active_runs`. */
  function Supersede(s: Conversation): Conversation {
    s.(runs := seq(|s.runs|, i requires 0 <= i < |s.runs| =>
         if Active(s.runs[i].status) then s.runs[i].(status := Superseded) else s.runs[i]),
       drafts := seq(|s.drafts|, i requires 0 <= i < |s.drafts| =>
         if s.drafts[i].status.Pending? then s.drafts[i].(status := Outdated) else s.drafts[i]),
       calls := seq(|s.calls|, i requires 0 <= i < |s.calls| =>
         if s.calls[i].run < |s.runs| && Active(s.runs[s.calls[i].run].status)
            && (s.calls[i].status.Proposed? || s.calls[i].status.Awaiting?)
         then s.calls[i].(status := Cancelled) else s.calls[i]))
  }

  datatype DraftAction = Approve | Edit | RejectDraft

  /** `act_on_draft`; an outdated draft is only marked inside the transaction that the error rolls back. */
  function ActOnDraft(s: Conversation, d: nat, action: DraftAction, humanReplied: bool, validBody: bool, sending: Sending): (Conversation, Result<bool>) {
    if |s.drafts| <= d then (s, Err("not_found"))
    else if !s.drafts[d].status.Pending? || humanReplied then (s, Err("stale_draft"))
    else if action.RejectDraft? then (s.(drafts := s.drafts[d := s.drafts[d].(status := Refused)]), Ok(true))
    else if !validBody then (s, Err("invalid_draft_body"))
    else if sending.Blocks? || sending.Breaks? then (s, Err("send_unavailable"))
    else (s.(drafts := s.drafts[d := s.drafts[d].(status := if action.Approve? then Sent else Edited)],
             replies := s.replies + [Reply(s.drafts[d].run, false, sending.Fails?)]), Ok(true))
  }

  /** `_draft_after_approved_tools`, with the status the caller holds. */
  function DraftAfter(s: Conversation, r: nat, held: RunStatus): Conversation {
    if !held.Waiting? then s else WithStatus(Drafted(s, r), r, Completed)
  }

  /** `approve_tool_call`. */
  function ApproveCall(s: Conversation, c: nat, humanReplied: bool, outcome: Outcome): (Conversation, Result<bool>) {
    if |s.calls| <= c || |s.runs| <= s.calls[c].run then (s, Err("not_found"))
    else if !s.calls[c].status.Awaiting? || humanReplied then (s, Err("stale_tool_call"))
    else
      var r := s.calls[c].run;
      var held := s.runs[r].status;
      var t := s.(calls := s.calls[c := s.calls[c].(status := Approved)]);
      var (u, stop) := Execute(t, c, outcome);
      if stop == Some(ToolError) then
        (CreateHandoff(t.(calls := t.calls[c := t.calls[c].(status := CallFailed)]), Some(r), held), Ok(false))
      else if stop.Some? then (s, Err("internal_error"))
      else (if 0 < AwaitingCalls(u, r) then u else DraftAfter(u, r, held), Ok(true))
  }

  /** `reject_tool_call`. */
  function RejectCall(s: Conversation, c: nat): (Conversation, Result<bool>) {
    if |s.calls| <= c || |s.runs| <= s.calls[c].run then (s, Err("not_found"))
    else if !s.calls[c].status.Awaiting? then (s, Err("stale_tool_call"))
    else
      var t := s.(calls := s.calls[c := s.calls[c].(status := Rejected)]);
      (CreateHandoff(t, Some(s.calls[c].run), s.runs[s.calls[c].run].status), Ok(true))
  }

  datatype HandoffAction = Acknowledge | Assign | Resolve

  /** `update_handoff`; assigning changes nothing modelled here. */
  function UpdateHandoff(s: Conversation, h: nat, action: HandoffAction): (Conversation, Result<bool>) {
    if |s.handoffs| <= h then (s, Err("not_found"))
    else match action
      case Acknowledge =>
        if !s.handoffs[h].status.Open? then (s, Err("stale_handoff"))
        else (s.(handoffs := s.handoffs[h := s.handoffs[h].(status := Acknowledged)]), Ok(true))
      case Assign => (s, Ok(true))
      case Resolve =>
        if s.handoffs[h].status.Resolved? then (s, Err("stale_handoff"))
        else (s.(handoffs := s.handoffs[h := s.handoffs[h].(status := Resolved)]), Ok(true))
  }

  /** `set_conversation_ai_state`; `refusal` is the error of the configuration and channel checks, if any. */
  function SetState(s: Conversation, state: AiState, refusal: Option<string>): (Conversation, Result<bool>) {
    if state.PausedByHuman? || state.HandoffRequired? then (s, Err("invalid_ai_state"))
    else if refusal.Some? then (s, Err(refusal.value))
    else
      var t := s.(state := state);
      (if state.Off? then Supersede(t) else t, Ok(true))
  }

  /** `create_callback_handoff` of the voice channel: whether a handoff is open already is not looked at. */
  function Callback(s: Conversation): Conversation { s.(handoffs := s.handoffs + [Handoff(None, Open)]) }

  /** A channel pauses the AI or turns it off by itself, without superseding anything. */
  function ByChannel(s: Conversation, paused: bool): Conversation { s.(state := if paused then PausedByHuman else Off) }

  datatype Event =
    | QueueEvent(key: string, requested: Option<AiState>, refusal: Option<string>, demoted: bool, lateRefusal: Option<string>)
    | ProcessEvent(run: nat, env: Setting, provider: nat -> Generation)
    | DraftEvent(draft: nat, action: DraftAction, humanReplied: bool, validBody: bool, sending: Sending)
    | ApproveEvent(call: nat, humanReplied: bool, outcome: Outcome)
    | RejectEvent(call: nat)
    | HandoffEvent
    | CallbackEvent
    | ChannelEvent(paused: bool)
    | UpdateEvent(handoff: nat, update: HandoffAction)
    | SupersedeEvent(pausedByHuman: bool)
    | StateEvent(state: AiState, refusal: Option<string>)

  function Step(s: Conversation, x: Event): Conversation {
    match x
    case QueueEvent(key, requested, refusal, demoted, late) => QueueRun(s, key, requested, refusal, demoted, late).0
    case ProcessEvent(run, env, provider) => ProcessRun(env, provider, s, run).after
    case DraftEvent(draft, action, humanReplied, validBody, sending) => ActOnDraft(s, draft, action, humanReplied, validBody, sending).0
    case ApproveEvent(call, humanReplied, outcome) => ApproveCall(s, call, humanReplied, outcome).0
    case RejectEvent(call) => RejectCall(s, call).0
    case HandoffEvent => CreateHandoff(s, None, Completed)
    case CallbackEvent => Callback(s)
    case ChannelEvent(paused) => ByChannel(s, paused)
    case UpdateEvent(handoff, update) => UpdateHandoff(s, handoff, update).0
    case SupersedeEvent(paused) => Supersede(if paused then s.(state := PausedByHuman) else s)
    case StateEvent(state, refusal) => SetState(s, state, refusal).0
  }

  const STARTED := Conversation([], [], [], [], [], Off)

  function After(log: seq<Event>): Conversation {
    if log == [] then STARTED else Step(After(log[..|log| - 1]), log[|log| - 1])
  }
}
