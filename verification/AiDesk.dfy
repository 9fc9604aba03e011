/**
  The AI runtime services as they run: rows are updated in place as `AiRuns` says. Every entry point keeps `Valid`: the rows
  are those that follow from the events so far, so what the other modules prove of every run of the protocol holds of them.
  */
module AiDesk {
  import opened Totals
  import opened AiRuns
  import opened AiSafety
  import opened AiCallIds
  import opened AiDrafts

  /** The outcome of a loop that has k executions behind it already. */
  function Later(pass: Pass, k: nat): Pass { pass.(executions := pass.executions + k) }

  /** What every run of the protocol keeps, and what it keeps when no callback has come while a handoff was unresolved. */
  ghost predicate Upheld(log: seq<Event>, s: Conversation) {
    && Orderly(s) && OneDraftPerRun(s) && UniqueCalls(s)
    && (forall q: nat :: DraftsAnswered(s, q))
    && (AlwaysQuiet(log) ==> UnresolvedHandoffs(s) <= 1)
  }

  lemma AlwaysUpheld(log: seq<Event>)
    ensures Upheld(log, After(log))
  {
    AlwaysOrderly(log);
    AlwaysAnswered(log);
    AlwaysUniqueCalls(log);
    OneHandoffIff(log);
  }

  /** One event later the rows are those of the longer run. */
  lemma Noted(log: seq<Event>, x: Event)
    ensures After(log + [x]) == Step(After(log), x) && Upheld(log + [x], After(log + [x]))
  {
    assert (log + [x])[..|log|] == log;
    AlwaysUpheld(log + [x]);
  }

  class Desk {
    var runs: seq<Run>
    var calls: seq<Call>
    var drafts: seq<Draft>
    var handoffs: seq<Handoff>
    var replies: seq<Reply>
    var state: AiState
    ghost var log: seq<Event>

    function State(): Conversation
      reads this
    {
      Conversation(runs, calls, drafts, handoffs, replies, state)
    }

    /** The rows are what the events in `log` made of an empty conversation. */
    ghost predicate Valid()
      reads this
    {
      State() == After(log) && Upheld(log, State())
    }

    constructor ()
      ensures Valid() && log == []
      ensures State() == STARTED
    {
      runs, calls, drafts, handoffs, replies, state := [], [], [], [], [], Off;
      log := [];
      new;
      AlwaysUpheld([]);
    }

    method SaveStatus(r: nat, status: RunStatus)
      modifies `runs
      ensures State() == WithStatus(old(State()), r, status)
    {
      if r < |runs| {
        runs := runs[r := runs[r].(status := status)];
      }
    }

    /** `create_handoff`. */
    method CreateHandoff(run: Option<nat>, held: RunStatus)
      modifies `runs, `handoffs, `state
      ensures State() == AiRuns.CreateHandoff(old(State()), run, held)
    {
      if 0 < UnresolvedHandoffs(State()) {
        if run.Some? && held != HandedOff && held != Completed {
          SaveStatus(run.value, HandedOff);
        }
        return;
      }
      handoffs := handoffs + [Handoff(run, Open)];
      state := HandoffRequired;
      if run.Some? {
        SaveStatus(run.value, HandedOff);
      }
    }

    /** `AIToolCall.objects.get_or_create`. */
    method GetOrCreateCall(r: nat, p: Proposal, status: CallStatus)
      modifies `calls
      ensures State() == Recorded(old(State()), r, p, status)
    {
      if FindCall(calls, r, p.callId).None? {
        calls := calls + [Call(r, p.callId, p.tool, status)];
      }
    }

    /** `execute_tool`: a call that has succeeded is not executed again. */
    method ExecuteTool(c: nat, outcome: Outcome) returns (stop: Option<Stop>)
      requires c < |calls|
      modifies `runs, `calls, `handoffs, `state
      ensures (State(), stop) == Execute(old(State()), c, outcome)
    {
      var call := calls[c];
      if call.status == Succeeded {
        return None;
      }
      if call.status == Executing || call.tool.Unknown? {
        return Some(ToolError);
      }
      match outcome
      case ToolRefused => return Some(ToolError);
      case Crashed => return Some(Other);
      case Done =>
        if AlwaysAvailable(call.tool) && call.run < |runs| {
          CreateHandoff(Some(call.run), runs[call.run].status);
        }
        calls := calls[c := call.(status := Succeeded)];
        stop := None;
    }

    /** One round of the loop in `_handle_tool_calls`. */
    method HandleCall(env: Setting, r: nat, p: Proposal, pending: bool) returns (flow: Flow, executions: nat)
      modifies `runs, `calls, `handoffs, `state
      ensures Pass(State(), flow, executions) == RunCall(env, old(State()), r, p, pending)
    {
      executions := 0;
      if p.tool.Unknown? || !p.valid || ModeOf(env, p.tool) == Disabled {
        GetOrCreateCall(r, p, Rejected);
        CreateHandoff(Some(r), Running);
        return Stopped, 0;
      }
      if ModeOf(env, p.tool) == RequireApproval {
        GetOrCreateCall(r, p, Awaiting);
        return Through(true), 0;
      }
      GetOrCreateCall(r, p, Proposed);
      if Mutates(p.tool) && !env.hasActor {
        return Raised(ToolError), 0;
      }
      var c := FindCall(calls, r, p.callId);
      if c.None? {
        return Raised(Other), 0;
      }
      var stop := ExecuteTool(c.value, p.outcome);
      executions := 1;
      if stop.Some? {
        flow := Raised(stop.value);
      } else if p.tool.HumanHandoff? {
        flow := Stopped;
      } else {
        flow := Through(pending);
      }
    }

    /** The loop of `_handle_tool_calls` over the proposed calls. */
    method HandleCalls(env: Setting, r: nat, proposed: seq<Proposal>) returns (flow: Flow, executions: nat)
      modifies `runs, `calls, `handoffs, `state
      ensures Pass(State(), flow, executions) == RunCalls(env, old(State()), r, proposed, false)
    {
      flow, executions := Through(false), 0;
      var i := 0;
      while i < |proposed|
        invariant i <= |proposed| && flow.Through?
        invariant RunCalls(env, old(State()), r, proposed, false)
          == Later(RunCalls(env, State(), r, proposed[i..], flow.pending), executions)
      {
        assert proposed[i..][0] == proposed[i] && proposed[i..][1..] == proposed[i + 1..];
        var more;
        flow, more := HandleCall(env, r, proposed[i], flow.pending);
        executions := executions + more;
        i := i + 1;
        if !flow.Through? {
          return;
        }
      }
      assert proposed[i..] == [];
    }

    /** The exception handlers of `process_run`. */
    method Catch(env: Setting, r: nat, stop: Stop)
      modifies `runs, `handoffs, `state
      ensures State() == Caught(env, old(State()), r, stop)
    {
      match stop
      case ProviderDown =>
        if env.channel == PublicWebChat { CreateHandoff(Some(r), Running); } else { SaveStatus(r, Failed); }
      case ToolError => CreateHandoff(Some(r), Running);
      case SendBlocked =>
        if env.channel == HandingOff { CreateHandoff(Some(r), Running); } else { SaveStatus(r, Failed); }
      case ContextChanged => SaveStatus(r, Superseded);
      case Other => SaveStatus(r, Failed);
    }

    method Send(env: Setting, r: nat)
      modifies `runs, `handoffs, `replies, `state
      ensures State() == SendReply(env, old(State()), r)
    {
      var stored := FindReply(replies, r);
      if stored.Some? {
        SaveStatus(r, if replies[stored.value].failed then Failed else Completed);
        return;
      }
      match env.sending
      case Sends =>
        replies := replies + [Reply(r, true, false)];
        SaveStatus(r, Completed);
      case Fails =>
        replies := replies + [Reply(r, true, true)];
        SaveStatus(r, Failed);
      case Blocks => Catch(env, r, SendBlocked);
      case Breaks => Catch(env, r, Other);
    }

    /** `AIDraft.objects.update_or_create`. */
    method SaveDraft(r: nat)
      modifies `drafts
      ensures State() == Drafted(old(State()), r)
    {
      if FindDraft(drafts, r).None? {
        drafts := drafts + [Draft(r, Pending)];
      }
    }

    /** `_complete_text`. */
    method CompleteText(env: Setting, r: nat, safe: bool)
      requires r < |runs|
      modifies `runs, `drafts, `handoffs, `replies, `state
      ensures State() == AiRuns.CompleteText(env, old(State()), r, safe)
    {
      if !safe {
        CreateHandoff(Some(r), Running);
      } else if runs[r].mode == Autopilot && CanAutopilot(env, State(), r) {
        Send(env, r);
      } else {
        SaveDraft(r);
        SaveStatus(r, Completed);
      }
    }

    /** The provider asked, its answer handled, and again after each tool round: `generate` and `_handle_tool_calls`. */
    method Generate(env: Setting, provider: nat -> Generation, r: nat, n: nat, rounds: nat) returns (generations: nat, executions: nat)
      modifies `runs, `calls, `drafts, `handoffs, `replies, `state
      ensures Trace(State(), generations, executions) == AiRuns.Generate(env, provider, old(State()), r, n, rounds)
      decreases if rounds < env.maxRounds then env.maxRounds - rounds else 0
    {
      generations, executions := 1, 0;
      var answer := provider(n);
      if |runs| <= r {
        return;
      }
      if answer.Unavailable? {
        Catch(env, r, ProviderDown);
        return;
      }
      if answer.calls == [] {
        CompleteText(env, r, answer.safe);
        return;
      }
      if env.maxRounds <= rounds || env.maxCalls < |answer.calls| {
        CreateHandoff(Some(r), Running);
        return;
      }
      var flow;
      flow, executions := HandleCalls(env, r, answer.calls);
      match flow
      case Stopped =>
      case Raised(stop) => Catch(env, r, stop);
      case Through(pending) =>
        if r < |runs| {
          runs := runs[r := runs[r].(rounds := rounds + 1)];
        }
        if pending {
          SaveStatus(r, Waiting);
        } else {
          var moreGenerations, moreExecutions := Generate(env, provider, r, n + 1, rounds + 1);
          generations, executions := moreGenerations + 1, moreExecutions + executions;
        }
    }

    /** `process_run`. */
    method Work(env: Setting, provider: nat -> Generation, r: nat) returns (generations: nat, executions: nat)
      modifies `runs, `calls, `drafts, `handoffs, `replies, `state
      ensures Trace(State(), generations, executions) == AiRuns.ProcessRun(env, provider, old(State()), r)
    {
      generations, executions := 0, 0;
      if |runs| <= r || (runs[r].status != Queued && runs[r].status != Running) {
        return;
      }
      if (state != Suggesting && state != Piloting) || env.humanReplied {
        SaveStatus(r, Superseded);
        return;
      }
      SaveStatus(r, Running);
      if env.obstacle.Some? {
        Catch(env, r, env.obstacle.value);
        return;
      }
      generations, executions := Generate(env, provider, r, 0, runs[r].rounds);
    }

    /** `process_run`. */
    method ProcessRun(env: Setting, provider: nat -> Generation, r: nat) returns (generations: nat, executions: nat)
      requires Valid()
      modifies this
      ensures Valid() && log == old(log) + [ProcessEvent(r, env, provider)]
      ensures Trace(State(), generations, executions) == AiRuns.ProcessRun(env, provider, old(State()), r)
    {
      Noted(log, ProcessEvent(r, env, provider));
      log := log + [ProcessEvent(r, env, provider)];
      generations, executions := Work(env, provider, r);
    }

    /** `create_queued_run`, inside its transaction. */
    method StoreRun(key: string, requested: Option<AiState>, refusal: Option<string>, demoted: bool, lateRefusal: Option<string>)
      returns (r: Result<nat>)
      modifies `runs
      ensures (State(), r) == AiRuns.QueueRun(old(State()), key, requested, refusal, demoted, lateRefusal)
    {
      if refusal.Some? {
        return Err(refusal.value);
      }
      var selected := if requested.Some? then requested.value else state;
      if selected != Suggesting && selected != Piloting {
        return Err("conversation_ai_paused");
      }
      if selected == Piloting && demoted {
        selected := Suggesting;
      }
      if 0 < UnresolvedHandoffs(State()) {
        return Err("active_handoff");
      }
      var existing := FindRun(runs, key);
      if existing.Some? {
        return Ok(existing.value);
      }
      if 0 < ActiveRuns(State()) || 0 < PendingDrafts(State()) {
        return Err("active_run");
      }
      if lateRefusal.Some? {
        return Err(lateRefusal.value);
      }
      runs := runs + [Run(Queued, if selected == Piloting then Autopilot else Suggest, 0, key)];
      r := Ok(|runs| - 1);
    }

    /** `create_queued_run`. */
    method QueueRun(key: string, requested: Option<AiState>, refusal: Option<string>, demoted: bool, lateRefusal: Option<string>)
      returns (r: Result<nat>)
      requires Valid()
      modifies this
      ensures Valid() && log == old(log) + [QueueEvent(key, requested, refusal, demoted, lateRefusal)]
      ensures (State(), r) == AiRuns.QueueRun(old(State()), key, requested, refusal, demoted, lateRefusal)
    {
      Noted(log, QueueEvent(key, requested, refusal, demoted, lateRefusal));
      log := log + [QueueEvent(key, requested, refusal, demoted, lateRefusal)];
      r := StoreRun(key, requested, refusal, demoted, lateRefusal);
    }

    /** `act_on_draft`. */
    method ActOnDraft(d: nat, action: DraftAction, humanReplied: bool, validBody: bool, sending: Sending) returns (r: Result<bool>)
      requires Valid()
      modifies this
      ensures Valid() && log == old(log) + [DraftEvent(d, action, humanReplied, validBody, sending)]
      ensures (State(), r) == AiRuns.ActOnDraft(old(State()), d, action, humanReplied, validBody, sending)
    {
      Noted(log, DraftEvent(d, action, humanReplied, validBody, sending));
      log := log + [DraftEvent(d, action, humanReplied, validBody, sending)];
      if |drafts| <= d {
        return Err("not_found");
      }
      if drafts[d].status != Pending || humanReplied {
        return Err("stale_draft");
      }
      if action == RejectDraft {
        drafts := drafts[d := drafts[d].(status := Refused)];
        return Ok(true);
      }
      if !validBody {
        return Err("invalid_draft_body");
      }
      if sending == Blocks || sending == Breaks {
        return Err("send_unavailable");
      }
      replies := replies + [Reply(drafts[d].run, false, sending == Fails)];
      drafts := drafts[d := drafts[d].(status := if action == Approve then Sent else Edited)];
      r := Ok(true);
    }

    /** `approve_tool_call`, inside its transaction; a crash rolls everything back. */
    method DecideCall(c: nat, humanReplied: bool, outcome: Outcome) returns (r: Result<bool>)
      modifies `runs, `calls, `drafts, `handoffs, `replies, `state
      ensures (State(), r) == AiRuns.ApproveCall(old(State()), c, humanReplied, outcome)
    {
      if |calls| <= c || |runs| <= calls[c].run {
        return Err("not_found");
      }
      if calls[c].status != Awaiting || humanReplied {
        return Err("stale_tool_call");
      }
      var before := State();
      var run := calls[c].run;
      var held := runs[run].status;
      calls := calls[c := calls[c].(status := Approved)];
      var stop := ExecuteTool(c, outcome);
      if stop == Some(ToolError) {
        calls := calls[c := calls[c].(status := CallFailed)];
        CreateHandoff(Some(run), held);
        return Ok(false);
      }
      if stop.Some? {
        runs, calls, drafts := before.runs, before.calls, before.drafts;
        handoffs, replies, state := before.handoffs, before.replies, before.state;
        return Err("internal_error");
      }
      if AwaitingCalls(State(), run) == 0 && held == Waiting {
        SaveDraft(run);
        SaveStatus(run, Completed);
      }
      r := Ok(true);
    }

    /** `approve_tool_call`. */
    method ApproveCall(c: nat, humanReplied: bool, outcome: Outcome) returns (r: Result<bool>)
      requires Valid()
      modifies this
      ensures Valid() && log == old(log) + [ApproveEvent(c, humanReplied, outcome)]
      ensures (State(), r) == AiRuns.ApproveCall(old(State()), c, humanReplied, outcome)
    {
      Noted(log, ApproveEvent(c, humanReplied, outcome));
      log := log + [ApproveEvent(c, humanReplied, outcome)];
      r := DecideCall(c, humanReplied, outcome);
    }

    /** `reject_tool_call`. */
    method RejectCall(c: nat) returns (r: Result<bool>)
      requires Valid()
      modifies this
      ensures Valid() && log == old(log) + [RejectEvent(c)]
      ensures (State(), r) == AiRuns.RejectCall(old(State()), c)
    {
      Noted(log, RejectEvent(c));
      log := log + [RejectEvent(c)];
      if |calls| <= c || |runs| <= calls[c].run {
        return Err("not_found");
      }
      if calls[c].status != Awaiting {
        return Err("stale_tool_call");
      }
      calls := calls[c := calls[c].(status := Rejected)];
      CreateHandoff(Some(calls[c].run), runs[calls[c].run].status);
      r := Ok(true);
    }

    /** A handoff that no run has asked for. */
    method RequestHandoff()
      requires Valid()
      modifies this
      ensures Valid() && log == old(log) + [HandoffEvent]
      ensures State() == AiRuns.CreateHandoff(old(State()), None, Completed)
    {
      Noted(log, HandoffEvent);
      log := log + [HandoffEvent];
      CreateHandoff(None, Completed);
    }

    /** `create_callback_handoff` of the voice channel. */
    method Callback()
      requires Valid()
      modifies this
      ensures Valid() && log == old(log) + [CallbackEvent]
      ensures State() == AiRuns.Callback(old(State()))
    {
      Noted(log, CallbackEvent);
      log := log + [CallbackEvent];
      handoffs := handoffs + [Handoff(None, Open)];
    }

    /** A channel pauses the AI after a failed delivery, or turns it off for a call. */
    method SetByChannel(paused: bool)
      requires Valid()
      modifies this
      ensures Valid() && log == old(log) + [ChannelEvent(paused)]
      ensures State() == AiRuns.ByChannel(old(State()), paused)
    {
      Noted(log, ChannelEvent(paused));
      log := log + [ChannelEvent(paused)];
      state := if paused then PausedByHuman else Off;
    }

    /** `update_handoff`. */
    method UpdateHandoff(h: nat, action: HandoffAction) returns (r: Result<bool>)
      requires Valid()
      modifies this
      ensures Valid() && log == old(log) + [UpdateEvent(h, action)]
      ensures (State(), r) == AiRuns.UpdateHandoff(old(State()), h, action)
    {
      Noted(log, UpdateEvent(h, action));
      log := log + [UpdateEvent(h, action)];
      if |handoffs| <= h {
        return Err("not_found");
      }
      r := Ok(true);
      match action
      case Acknowledge =>
        if handoffs[h].status != Open {
          return Err("stale_handoff");
        }
        handoffs := handoffs[h := handoffs[h].(status := Acknowledged)];
      case Assign =>
      case Resolve =>
        if handoffs[h].status == Resolved {
          return Err("stale_handoff");
        }
        handoffs := handoffs[h := handoffs[h].(status := Resolved)];
    }

    /** `supersede_active_runs`: three bulk updates. */
    method SupersedeActive()
      modifies `runs, `calls, `drafts
      ensures State() == AiRuns.Supersede(old(State()))
    {
      var active := set i | 0 <= i < |runs| && Active(runs[i].status);
      runs := seq(|runs|, i requires 0 <= i < |runs| reads this =>
        if Active(runs[i].status) then runs[i].(status := Superseded) else runs[i]);
      drafts := seq(|drafts|, i requires 0 <= i < |drafts| reads this =>
        if drafts[i].status == Pending then drafts[i].(status := Outdated) else drafts[i]);
      calls := seq(|calls|, i requires 0 <= i < |calls| reads this =>
        if calls[i].run in active && (calls[i].status == Proposed || calls[i].status == Awaiting)
        then calls[i].(status := Cancelled) else calls[i]);
    }

    /** `supersede_active_runs`, on its own or after a person has paused the AI. */
    method Supersede(pausedByHuman: bool)
      requires Valid()
      modifies this
      ensures Valid() && log == old(log) + [SupersedeEvent(pausedByHuman)]
      ensures State() == AiRuns.Supersede(if pausedByHuman then old(State()).(state := PausedByHuman) else old(State()))
    {
      Noted(log, SupersedeEvent(pausedByHuman));
      log := log + [SupersedeEvent(pausedByHuman)];
      if pausedByHuman {
        state := PausedByHuman;
      }
      SupersedeActive();
    }

    /** `set_conversation_ai_state`. */
    method SetState(target: AiState, refusal: Option<string>) returns (r: Result<bool>)
      requires Valid()
      modifies this
      ensures Valid() && log == old(log) + [StateEvent(target, refusal)]
      ensures (State(), r) == AiRuns.SetState(old(State()), target, refusal)
    {
      Noted(log, StateEvent(target, refusal));
      log := log + [StateEvent(target, refusal)];
      if target == PausedByHuman || target == HandoffRequired {
        return Err("invalid_ai_state");
      }
      if refusal.Some? {
        return Err(refusal.value);
      }
      state := target;
      if target == Off {
        SupersedeActive();
      }
      r := Ok(true);
    }
  }
}
