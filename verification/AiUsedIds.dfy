/** What a call id that is used again does: the two ways it can leave a run behind, each with its exact condition. */
module AiUsedIds {
  import opened Totals
  import opened AiRuns
  import opened AiSafety
  import opened AiCallIds
  import opened AiFreshCalls
  import opened AiWaiting

  // ----- left running -----

  /** The stored call that answers a proposal's id, if any, still runs a handoff when executed. */
  predicate TakesEffect(s: Conversation, r: nat, p: Proposal) {
    var c := FindCall(s.calls, r, p.callId);
    c.None? || (!s.calls[c.value].status.Succeeded? && AlwaysAvailable(s.calls[c.value].tool))
  }

  /** A request for a human that ends a running run's processing hands it off exactly when its id is new or still to run a handoff. */
  lemma HandoffTakesEffectIff(env: Setting, s: Conversation, r: nat, p: Proposal, pending: bool)
    requires r < |s.runs| && s.runs[r].status.Running? && p.tool.HumanHandoff? && p.valid
    requires RunCall(env, s, r, p, pending).flow.Stopped?
    ensures RunCall(env, s, r, p, pending).after.runs[r].status == if TakesEffect(s, r, p) then HandedOff else Running
  {
    RecordedIds(s, r, p, Proposed, p.callId);
  }

  /** Where the loop over proposed calls ends the run's processing: the state before that call, and the call. */
  function StopsAt(env: Setting, s: Conversation, r: nat, calls: seq<Proposal>, pending: bool): Option<(Conversation, Proposal)>
    decreases |calls|
  {
    if calls == [] then None
    else
      var first := RunCall(env, s, r, calls[0], pending);
      match first.flow
      case Stopped => Some((s, calls[0]))
      case Raised(_) => None
      case Through(more) => StopsAt(env, first.after, r, calls[1..], more)
  }

  /** The same for everything from the n-th generation on. */
  function EndsAt(env: Setting, provider: nat -> Generation, s: Conversation, r: nat, n: nat, rounds: nat): Option<(Conversation, Proposal)>
    decreases RoundsLeft(env, rounds)
  {
    var answer := provider(n);
    if answer.Unavailable? || answer.calls == [] || env.maxRounds <= rounds || env.maxCalls < |answer.calls| then None
    else
      var pass := RunCalls(env, s, r, answer.calls, false);
      match pass.flow
      case Stopped => StopsAt(env, s, r, answer.calls, false)
      case Raised(_) => None
      case Through(pending) =>
        if pending then None else EndsAt(env, provider, WithRounds(pass.after, r, rounds + 1), r, n + 1, rounds + 1)
  }

  /** And for `process_run`: the call that ended it, if a call did. */
  function LastCall(env: Setting, provider: nat -> Generation, s: Conversation, r: nat): Option<(Conversation, Proposal)> {
    if |s.runs| <= r || !(s.runs[r].status.Queued? || s.runs[r].status.Running?) then None
    else if !(s.state.Suggesting? || s.state.Piloting?) || env.humanReplied || env.obstacle.Some? then None
    else EndsAt(env, provider, WithStatus(s, r, Running), r, 0, s.runs[r].rounds)
  }

  /** A request for a human by a run not yet handed off, under the id of a call that will not hand off any more. */
  predicate Ignored(at: Option<(Conversation, Proposal)>, r: nat) {
    at.Some? &&
    var (u, p) := at.value;
    r < |u.runs| && u.runs[r].status.Running? && p.tool.HumanHandoff? && p.valid && !TakesEffect(u, r, p)
  }

  lemma CallLeavesRunningIff(env: Setting, s: Conversation, r: nat, p: Proposal, pending: bool)
    requires r < |s.runs| && BeingProcessed(s.runs[r].status) && RunCall(env, s, r, p, pending).flow.Stopped?
    ensures RunCall(env, s, r, p, pending).after.runs[r].status.Running? <==> Ignored(Some((s, p)), r)
  {
    RunCallWithin(env, s, r, p, pending);
    HandoffWithin(Recorded(s, r, p, Rejected), r, Running);
    if s.runs[r].status.Running? && p.tool.HumanHandoff? && p.valid { HandoffTakesEffectIff(env, s, r, p, pending); }
  }

  lemma {:induction false} LoopLeavesRunningIff(env: Setting, s: Conversation, r: nat, calls: seq<Proposal>, pending: bool)
    requires r < |s.runs| && BeingProcessed(s.runs[r].status) && RunCalls(env, s, r, calls, pending).flow.Stopped?
    ensures r < |RunCalls(env, s, r, calls, pending).after.runs|
    ensures RunCalls(env, s, r, calls, pending).after.runs[r].status.Running? <==> Ignored(StopsAt(env, s, r, calls, pending), r)
    decreases |calls|
  {
    var first := RunCall(env, s, r, calls[0], pending);
    RunCallWithin(env, s, r, calls[0], pending);
    if first.flow.Stopped? {
      CallLeavesRunningIff(env, s, r, calls[0], pending);
    } else {
      LoopLeavesRunningIff(env, first.after, r, calls[1..], first.flow.pending);
    }
  }

  lemma {:induction false} GenerateLeavesRunningIff(env: Setting, provider: nat -> Generation, s: Conversation, r: nat, n: nat, rounds: nat)
    requires r < |s.runs| && BeingProcessed(s.runs[r].status)
    ensures r < |Generate(env, provider, s, r, n, rounds).after.runs|
    ensures Generate(env, provider, s, r, n, rounds).after.runs[r].status.Running? <==> Ignored(EndsAt(env, provider, s, r, n, rounds), r)
    decreases RoundsLeft(env, rounds)
  {
    var answer := provider(n);
    if answer.Unavailable? {
      CaughtFinishes(env, s, r, ProviderDown);
    } else if answer.calls == [] {
      CompleteFinishes(env, s, r, answer.safe);
    } else if env.maxRounds <= rounds || env.maxCalls < |answer.calls| {
      HandoffWithin(s, r, Running);
    } else {
      var pass := RunCalls(env, s, r, answer.calls, false);
      RunCallsWithin(env, s, r, answer.calls, false);
      match pass.flow
      case Stopped => LoopLeavesRunningIff(env, s, r, answer.calls, false);
      case Raised(stop) => CaughtFinishes(env, pass.after, r, stop);
      case Through(pending) =>
        if !pending { GenerateLeavesRunningIff(env, provider, WithRounds(pass.after, r, rounds + 1), r, n + 1, rounds + 1); }
    }
  }

  /**
    Processing leaves the stored run running exactly when its last call was a request for a human under the id of a stored
    call that has succeeded or is no handoff, and nothing before had handed the run off.
    */
  lemma LeftRunningIff(env: Setting, provider: nat -> Generation, s: Conversation, r: nat)
    requires r < |s.runs|
    ensures r < |ProcessRun(env, provider, s, r).after.runs|
    ensures ProcessRun(env, provider, s, r).after.runs[r].status.Running? <==> Ignored(LastCall(env, provider, s, r), r)
  {
    var t := WithStatus(s, r, Running);
    if env.obstacle.Some? { CaughtFinishes(env, t, r, env.obstacle.value); }
    GenerateLeavesRunningIff(env, provider, t, r, 0, s.runs[r].rounds);
  }

  // ----- left waiting for nothing -----

  /** The call of run r under an id awaits approval. */
  predicate AwaitsUnder(s: Conversation, r: nat, callId: string) {
    var c := FindCall(s.calls, r, callId);
    c.Some? && s.calls[c.value].status.Awaiting?
  }

  lemma NoneAwaitsIff(s: Conversation, r: nat)
    requires UniqueCalls(s)
    ensures AwaitingCalls(s, r) == 0 <==> forall callId :: !AwaitsUnder(s, r, callId)
  {
    if AwaitingCalls(s, r) == 0 {
      forall callId ensures !AwaitsUnder(s, r, callId) {
        if AwaitsUnder(s, r, callId) { TotalBoundsEach(IsAwaiting(r), s.calls, FindCall(s.calls, r, callId).value); }
      }
    } else if forall callId :: !AwaitsUnder(s, r, callId) {
      forall i | 0 <= i < |s.calls| ensures IsAwaiting(r)(s.calls[i]) == 0 {
        assert !AwaitsUnder(s, r, s.calls[i].callId);
        FindSpec(HasCallId(r, s.calls[i].callId), s.calls);
      }
      NothingToCount(IsAwaiting(r), s.calls);
    }
  }

  predicate NeedsApproval(env: Setting, p: Proposal) { !p.tool.Unknown? && p.valid && ModeOf(env, p.tool).RequireApproval? }

  /** Before a round: the id will have a call awaiting approval after it. Executing a call under the id takes it away for good. */
  ghost predicate WillAwait(env: Setting, s: Conversation, r: nat, calls: seq<Proposal>, callId: string) {
    && (forall p :: p in calls && p.callId == callId ==> NeedsApproval(env, p))
    && (AwaitsUnder(s, r, callId) || (FindCall(s.calls, r, callId).None? && exists p :: p in calls && p.callId == callId))
  }

  lemma ExecutedHasSucceeded(s: Conversation, r: nat, callId: string, outcome: Outcome)
    requires FindCall(s.calls, r, callId).Some? && Execute(s, FindCall(s.calls, r, callId).value, outcome).1.None?
    ensures var t := Execute(s, FindCall(s.calls, r, callId).value, outcome).0;
      FindCall(t.calls, r, callId).Some? && !AwaitsUnder(t, r, callId)
  {
    ExecuteKeepsIds(s, FindCall(s.calls, r, callId).value, outcome, r, callId);
  }

  lemma OwnIdAwaitsIff(env: Setting, s: Conversation, r: nat, p: Proposal, pending: bool)
    requires RunCall(env, s, r, p, pending).flow.Through?
    ensures var t := RunCall(env, s, r, p, pending).after;
      && FindCall(t.calls, r, p.callId).Some?
      && (AwaitsUnder(t, r, p.callId) <==> NeedsApproval(env, p) && (AwaitsUnder(s, r, p.callId) || FindCall(s.calls, r, p.callId).None?))
  {
    if NeedsApproval(env, p) {
      RecordedIds(s, r, p, Awaiting, p.callId);
    } else {
      RecordedIds(s, r, p, Proposed, p.callId);
      ExecutedHasSucceeded(Recorded(s, r, p, Proposed), r, p.callId, p.outcome);
    }
  }

  lemma ExecuteLeavesOthers(s: Conversation, c: nat, outcome: Outcome, r: nat, callId: string)
    requires c < |s.calls| && s.calls[c].callId != callId
    ensures var t := Execute(s, c, outcome).0;
      FindCall(t.calls, r, callId) == FindCall(s.calls, r, callId) && (AwaitsUnder(t, r, callId) <==> AwaitsUnder(s, r, callId))
  {
    ExecuteKeepsIds(s, c, outcome, r, callId);
  }

  lemma RecordedLeavesOthers(s: Conversation, r: nat, p: Proposal, status: CallStatus, callId: string)
    requires p.callId != callId
    ensures var t := Recorded(s, r, p, status);
      FindCall(t.calls, r, callId) == FindCall(s.calls, r, callId) && (AwaitsUnder(t, r, callId) <==> AwaitsUnder(s, r, callId))
  {
    RecordedIds(s, r, p, status, callId);
  }

  lemma OtherIdAwaitsIff(env: Setting, s: Conversation, r: nat, p: Proposal, pending: bool, callId: string)
    requires RunCall(env, s, r, p, pending).flow.Through? && p.callId != callId
    ensures var t := RunCall(env, s, r, p, pending).after;
      FindCall(t.calls, r, callId) == FindCall(s.calls, r, callId) && (AwaitsUnder(t, r, callId) <==> AwaitsUnder(s, r, callId))
  {
    if NeedsApproval(env, p) {
      RecordedLeavesOthers(s, r, p, Awaiting, callId);
    } else {
      var t := Recorded(s, r, p, Proposed);
      RecordedLeavesOthers(s, r, p, Proposed, callId);
      ExecuteLeavesOthers(t, FindCall(t.calls, r, p.callId).value, p.outcome, r, callId);
    }
  }

  /** A round that goes through leaves exactly those ids awaiting. */
  lemma {:induction false} RoundAwaitsIff(env: Setting, s: Conversation, r: nat, calls: seq<Proposal>, pending: bool, callId: string)
    requires RunCalls(env, s, r, calls, pending).flow.Through?
    ensures AwaitsUnder(RunCalls(env, s, r, calls, pending).after, r, callId) <==> WillAwait(env, s, r, calls, callId)
    decreases |calls|
  {
    if calls != [] {
      var first := RunCall(env, s, r, calls[0], pending);
      if calls[0].callId == callId { OwnIdAwaitsIff(env, s, r, calls[0], pending); }
      else { OtherIdAwaitsIff(env, s, r, calls[0], pending, callId); }
      RoundAwaitsIff(env, first.after, r, calls[1..], first.flow.pending, callId);
      FirstThenRest(env, s, first.after, r, calls, callId);
    }
  }

  lemma FirstThenRest(env: Setting, s: Conversation, t: Conversation, r: nat, calls: seq<Proposal>, callId: string)
    requires calls != []
    requires calls[0].callId == callId ==> FindCall(t.calls, r, callId).Some?
    requires calls[0].callId == callId ==>
      (AwaitsUnder(t, r, callId) <==> NeedsApproval(env, calls[0]) && (AwaitsUnder(s, r, callId) || FindCall(s.calls, r, callId).None?))
    requires calls[0].callId != callId ==> FindCall(t.calls, r, callId) == FindCall(s.calls, r, callId)
    requires calls[0].callId != callId ==> (AwaitsUnder(t, r, callId) <==> AwaitsUnder(s, r, callId))
    ensures WillAwait(env, t, r, calls[1..], callId) <==> WillAwait(env, s, r, calls, callId)
  {
    assert forall p :: p in calls <==> p == calls[0] || p in calls[1..];
  }

  /** The round that leaves the run waiting: the state before it and the calls proposed. */
  function WaitsAt(env: Setting, provider: nat -> Generation, s: Conversation, r: nat, n: nat, rounds: nat): Option<(Conversation, seq<Proposal>)>
    decreases RoundsLeft(env, rounds)
  {
    var answer := provider(n);
    if answer.Unavailable? || answer.calls == [] || env.maxRounds <= rounds || env.maxCalls < |answer.calls| then None
    else
      var pass := RunCalls(env, s, r, answer.calls, false);
      match pass.flow
      case Stopped => None
      case Raised(_) => None
      case Through(pending) =>
        if pending then Some((s, answer.calls))
        else WaitsAt(env, provider, WithRounds(pass.after, r, rounds + 1), r, n + 1, rounds + 1)
  }

  function LastRound(env: Setting, provider: nat -> Generation, s: Conversation, r: nat): Option<(Conversation, seq<Proposal>)> {
    if |s.runs| <= r || !(s.runs[r].status.Queued? || s.runs[r].status.Running?) then None
    else if !(s.state.Suggesting? || s.state.Piloting?) || env.humanReplied || env.obstacle.Some? then None
    else WaitsAt(env, provider, WithStatus(s, r, Running), r, 0, s.runs[r].rounds)
  }

  /** That round leaves no id awaiting approval. */
  ghost predicate LeavesNothing(env: Setting, at: Option<(Conversation, seq<Proposal>)>, r: nat) {
    at.Some? && forall callId :: !WillAwait(env, at.value.0, r, at.value.1, callId)
  }

  predicate WaitsForNothing(s: Conversation, r: nat) { r < |s.runs| && s.runs[r].status.Waiting? && AwaitingCalls(s, r) == 0 }

  lemma RoundLeavesNothingIff(env: Setting, s: Conversation, r: nat, calls: seq<Proposal>)
    requires UniqueCalls(s) && RunCalls(env, s, r, calls, false).flow.Through?
    ensures AwaitingCalls(RunCalls(env, s, r, calls, false).after, r) == 0 <==> LeavesNothing(env, Some((s, calls)), r)
  {
    var t := RunCalls(env, s, r, calls, false).after;
    RunCallsUnique(env, s, r, calls, false);
    NoneAwaitsIff(t, r);
    forall callId ensures AwaitsUnder(t, r, callId) <==> WillAwait(env, s, r, calls, callId) {
      RoundAwaitsIff(env, s, r, calls, false, callId);
    }
  }

  lemma {:induction false} GenerateLeavesNothingIff(env: Setting, provider: nat -> Generation, s: Conversation, r: nat, n: nat, rounds: nat)
    requires r < |s.runs| && BeingProcessed(s.runs[r].status) && UniqueCalls(s)
    ensures WaitsForNothing(Generate(env, provider, s, r, n, rounds).after, r) <==> LeavesNothing(env, WaitsAt(env, provider, s, r, n, rounds), r)
    decreases RoundsLeft(env, rounds)
  {
    var answer := provider(n);
    if answer.Unavailable? {
      CaughtFinishes(env, s, r, ProviderDown);
    } else if answer.calls == [] {
      CompleteFinishes(env, s, r, answer.safe);
    } else if env.maxRounds <= rounds || env.maxCalls < |answer.calls| {
      HandoffWithin(s, r, Running);
    } else {
      var pass := RunCalls(env, s, r, answer.calls, false);
      RunCallsWithin(env, s, r, answer.calls, false);
      RunCallsUnique(env, s, r, answer.calls, false);
      match pass.flow
      case Stopped =>
      case Raised(stop) => CaughtFinishes(env, pass.after, r, stop);
      case Through(pending) =>
        if pending { RoundLeavesNothingIff(env, s, r, answer.calls); }
        else { GenerateLeavesNothingIff(env, provider, WithRounds(pass.after, r, rounds + 1), r, n + 1, rounds + 1); }
    }
  }

  /**
    Processing leaves a run waiting with nothing to approve exactly when, in the round that made it wait, every id proposed
    for approval had a call that was settled before or was executed as well, and so was every id that awaited before.
    */
  lemma LeftWaitingIff(env: Setting, provider: nat -> Generation, s: Conversation, r: nat)
    requires UniqueCalls(s) && r < |s.runs| && (s.runs[r].status.Queued? || s.runs[r].status.Running?)
    ensures WaitsForNothing(ProcessRun(env, provider, s, r).after, r) <==> LeavesNothing(env, LastRound(env, provider, s, r), r)
  {
    var t := WithStatus(s, r, Running);
    if env.obstacle.Some? { CaughtFinishes(env, t, r, env.obstacle.value); }
    GenerateLeavesNothingIff(env, provider, t, r, 0, s.runs[r].rounds);
  }

  /** What supersedes the active runs. */
  predicate Supersedes(x: Event) { x.SupersedeEvent? || (x.StateEvent? && x.state.Off? && x.refusal.None?) }

  /** A run waiting for nothing stays so until it is superseded, whatever else happens; and until then no run is queued. */
  lemma StuckUnlessSuperseded(s: Conversation, x: Event, r: nat)
    requires WaitsForNothing(s, r)
    ensures WaitsForNothing(Step(s, x), r) <==> !Supersedes(x)
    ensures x.QueueEvent? ==> Step(s, x) == s
  {
    match x
    case QueueEvent(_, _, _, _, _) => TotalBoundsEach(IsActive(), s.runs, r);
    case ProcessEvent(q, env, provider) =>
      if q < |s.runs| && (s.runs[q].status.Queued? || s.runs[q].status.Running?) { ProcessFinishes(env, provider, s, q); }
    case ApproveEvent(c, humanReplied, outcome) =>
      if Step(s, x) != s { ApproveDecides(s, c, humanReplied, outcome); }
    case RejectEvent(c) =>
      if Step(s, x) != s {
        CallChanged(s, c, Rejected, r);
        HandoffWithin(s.(calls := s.calls[c := s.calls[c].(status := Rejected)]), s.calls[c].run, s.runs[s.calls[c].run].status);
      }
    case _ =>
  }

  /** Processing takes run r up and leaves it waiting for nothing. */
  ghost predicate Strands(s: Conversation, x: Event, r: nat) {
    && x.ProcessEvent? && x.run == r && r < |s.runs| && (s.runs[r].status.Queued? || s.runs[r].status.Running?)
    && LeavesNothing(x.env, LastRound(x.env, x.provider, s, r), r)
  }

  lemma ApproveStrandsNone(s: Conversation, c: nat, humanReplied: bool, outcome: Outcome, r: nat)
    requires !WaitsForNothing(s, r)
    ensures !WaitsForNothing(ApproveCall(s, c, humanReplied, outcome).0, r)
  {
    if ApproveCall(s, c, humanReplied, outcome).0 != s {
      ApproveDecides(s, c, humanReplied, outcome);
      ApprovedRunWaits(s, c, humanReplied, outcome);
    }
  }

  lemma RejectStrandsNone(s: Conversation, c: nat, r: nat)
    requires !WaitsForNothing(s, r)
    ensures !WaitsForNothing(RejectCall(s, c).0, r)
  {
    if RejectCall(s, c).0 != s {
      CallChanged(s, c, Rejected, r);
      HandoffWithin(s.(calls := s.calls[c := s.calls[c].(status := Rejected)]), s.calls[c].run, s.runs[s.calls[c].run].status);
    }
  }

  /** Nothing else strands a run. */
  lemma StrandedIff(s: Conversation, x: Event, r: nat)
    requires UniqueCalls(s) && !WaitsForNothing(s, r)
    ensures WaitsForNothing(Step(s, x), r) <==> Strands(s, x, r)
  {
    match x
    case ProcessEvent(q, env, provider) =>
      if q < |s.runs| && (s.runs[q].status.Queued? || s.runs[q].status.Running?) {
        if q == r { LeftWaitingIff(env, provider, s, r); } else { ProcessFinishes(env, provider, s, q); }
      }
    case ApproveEvent(c, humanReplied, outcome) => ApproveStrandsNone(s, c, humanReplied, outcome, r);
    case RejectEvent(c) => RejectStrandsNone(s, c, r);
    case _ =>
  }

  /** The run was stranded, and has not been superseded since. */
  ghost predicate Stranded(log: seq<Event>, r: nat) {
    log != [] &&
    var front, last := log[..|log| - 1], log[|log| - 1];
    if Stranded(front, r) then !Supersedes(last) else Strands(After(front), last, r)
  }

  /** In any run of the protocol a run waits with nothing to approve exactly when it was stranded and not superseded since. */
  lemma {:induction false} WaitsForNothingIff(log: seq<Event>, r: nat)
    ensures WaitsForNothing(After(log), r) <==> Stranded(log, r)
  {
    if log != [] {
      var front, last := log[..|log| - 1], log[|log| - 1];
      WaitsForNothingIff(front, r);
      if Stranded(front, r) {
        StuckUnlessSuperseded(After(front), last, r);
      } else {
        AlwaysUniqueCalls(front);
        StrandedIff(After(front), last, r);
      }
    }
  }

  // ----- two runs -----

  const LOOKUP := Governed("get_contact", false)

  const REUSING: Generation :=
    Generated([Proposal("a", LOOKUP, true, Done), Proposal("a", HumanHandoff, true, Done)], true)

  const PLAIN_SETTING :=
    Setting(3, 8, map["get_contact" := Automatic], true, Plain, true, false, None, Sends)

  function Reusing(): nat -> Generation { (n: nat) => REUSING }

  lemma AfterOneMore(log: seq<Event>, x: Event)
    ensures After(log + [x]) == Step(After(log), x)
  {
    assert (log + [x])[..|log|] == log;
  }

  lemma QueuedRun()
    ensures After([StateEvent(Suggesting, None)] + [QueueEvent("k", None, None, false, None)])
      == Conversation([Run(Queued, Suggest, 0, "k")], [], [], [], [], Suggesting)
  {
    var first := [StateEvent(Suggesting, None)];
    AfterOneMore([], first[0]);
    assert [] + [first[0]] == first;
    AfterOneMore(first, QueueEvent("k", None, None, false, None));
  }

  lemma ReusedLookup(s: Conversation)
    requires s == Conversation([Run(Running, Suggest, 0, "k")], [], [], [], [], Suggesting)
    ensures var looked := s.(calls := [Call(0, "a", LOOKUP, Succeeded)]);
      && RunCall(PLAIN_SETTING, s, 0, REUSING.calls[0], false) == Pass(looked, Through(false), 1)
      && RunCall(PLAIN_SETTING, looked, 0, REUSING.calls[1], false) == Pass(looked, Stopped, 1)
  {
    RecordedIds(s, 0, REUSING.calls[0], Proposed, "a");
  }

  lemma ReusedPass(s: Conversation)
    requires s == Conversation([Run(Running, Suggest, 0, "k")], [], [], [], [], Suggesting)
    ensures RunCalls(PLAIN_SETTING, s, 0, REUSING.calls, false) == Pass(s.(calls := [Call(0, "a", LOOKUP, Succeeded)]), Stopped, 2)
  {
    var looked := s.(calls := [Call(0, "a", LOOKUP, Succeeded)]);
    var rest := REUSING.calls[1..];
    ReusedLookup(s);
    assert rest[0] == REUSING.calls[1];
    assert RunCalls(PLAIN_SETTING, looked, 0, rest, false) == Pass(looked, Stopped, 1);
  }

  /** A run whose provider asks for a human under the id of an earlier lookup is left running, with no handoff. */
  lemma ReusedIdLeavesRunning()
    ensures var log := [StateEvent(Suggesting, None)] + [QueueEvent("k", None, None, false, None)] + [ProcessEvent(0, PLAIN_SETTING, Reusing())];
      && After(log).runs == [Run(Running, Suggest, 0, "k")]
      && After(log).handoffs == []
  {
    var queued := [StateEvent(Suggesting, None)] + [QueueEvent("k", None, None, false, None)];
    QueuedRun();
    AfterOneMore(queued, ProcessEvent(0, PLAIN_SETTING, Reusing()));
    var s := WithStatus(After(queued), 0, Running);
    assert s.runs == [Run(Running, Suggest, 0, "k")];
    ReusedPass(s);
    assert Reusing()(0) == REUSING;
    assert Generate(PLAIN_SETTING, Reusing(), s, 0, 0, 0).after == s.(calls := [Call(0, "a", LOOKUP, Succeeded)]);
  }

  const LEAD := Governed("create_lead", true)

  const REUSING_FOR_APPROVAL: Generation :=
    Generated([Proposal("a", LOOKUP, true, Done), Proposal("a", LEAD, true, Done)], true)

  const APPROVAL_SETTING := PLAIN_SETTING.(modes := map["get_contact" := Automatic, "create_lead" := RequireApproval])

  function ReusingForApproval(): nat -> Generation { (n: nat) => REUSING_FOR_APPROVAL }

  lemma ApprovalUnderUsedId(s: Conversation)
    requires s == Conversation([Run(Running, Suggest, 0, "k")], [], [], [], [], Suggesting)
    ensures var looked := s.(calls := [Call(0, "a", LOOKUP, Succeeded)]);
      && RunCall(APPROVAL_SETTING, s, 0, REUSING_FOR_APPROVAL.calls[0], false) == Pass(looked, Through(false), 1)
      && RunCall(APPROVAL_SETTING, looked, 0, REUSING_FOR_APPROVAL.calls[1], false) == Pass(looked, Through(true), 0)
  {
    RecordedIds(s, 0, REUSING_FOR_APPROVAL.calls[0], Proposed, "a");
  }

  lemma ApprovalPass(s: Conversation)
    requires s == Conversation([Run(Running, Suggest, 0, "k")], [], [], [], [], Suggesting)
    ensures RunCalls(APPROVAL_SETTING, s, 0, REUSING_FOR_APPROVAL.calls, false)
      == Pass(s.(calls := [Call(0, "a", LOOKUP, Succeeded)]), Through(true), 1)
  {
    var looked := s.(calls := [Call(0, "a", LOOKUP, Succeeded)]);
    var rest := REUSING_FOR_APPROVAL.calls[1..];
    ApprovalUnderUsedId(s);
    assert rest[0] == REUSING_FOR_APPROVAL.calls[1] && rest[1..] == [];
    assert RunCalls(APPROVAL_SETTING, looked, 0, rest, false) == Pass(looked, Through(true), 0);
  }

  lemma ApprovalGenerated(s: Conversation)
    requires s == Conversation([Run(Running, Suggest, 0, "k")], [], [], [], [], Suggesting)
    ensures Generate(APPROVAL_SETTING, ReusingForApproval(), s, 0, 0, 0).after
      == Conversation([Run(Waiting, Suggest, 1, "k")], [Call(0, "a", LOOKUP, Succeeded)], [], [], [], Suggesting)
  {
    ApprovalPass(s);
    assert ReusingForApproval()(0) == REUSING_FOR_APPROVAL;
  }

  /** A run whose provider asks for approval under the id of an earlier lookup waits with no call to approve. */
  lemma ReusedIdWaitsForNothing()
    ensures var log := [StateEvent(Suggesting, None)] + [QueueEvent("k", None, None, false, None)] + [ProcessEvent(0, APPROVAL_SETTING, ReusingForApproval())];
      WaitsForNothing(After(log), 0)
  {
    var queued := [StateEvent(Suggesting, None)] + [QueueEvent("k", None, None, false, None)];
    QueuedRun();
    AfterOneMore(queued, ProcessEvent(0, APPROVAL_SETTING, ReusingForApproval()));
    var s := WithStatus(After(queued), 0, Running);
    assert s.runs == [Run(Running, Suggest, 0, "k")];
    ApprovalGenerated(s);
    NothingToCount(IsAwaiting(0), [Call(0, "a", LOOKUP, Succeeded)]);
  }
}
