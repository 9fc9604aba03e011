/** Tool calls are told apart by the provider's call id: no run ever stores two under one id. */
module AiCallIds {
  import opened Totals
  import opened AiRuns
  import opened AiSafety

  /** A call id is stored at most once for a run. */
  ghost predicate UniqueCalls(s: Conversation) {
    forall i, j :: 0 <= i < j < |s.calls| && s.calls[i].run == s.calls[j].run ==> s.calls[i].callId != s.calls[j].callId
  }

  lemma SameIdsUnique(s: Conversation, t: Conversation)
    requires UniqueCalls(s) && |t.calls| == |s.calls|
    requires forall i :: 0 <= i < |s.calls| ==> t.calls[i].run == s.calls[i].run && t.calls[i].callId == s.calls[i].callId
    ensures UniqueCalls(t)
  {
  }

  lemma RecordedUnique(s: Conversation, r: nat, p: Proposal, status: CallStatus)
    requires UniqueCalls(s)
    ensures UniqueCalls(Recorded(s, r, p, status))
  {
    FindSpec(HasCallId(r, p.callId), s.calls);
  }

  lemma ExecuteUnique(s: Conversation, c: nat, outcome: Outcome)
    requires UniqueCalls(s) && c < |s.calls|
    ensures UniqueCalls(Execute(s, c, outcome).0)
  {
    SameIdsUnique(s, Execute(s, c, outcome).0);
  }

  lemma RunCallUnique(env: Setting, s: Conversation, r: nat, p: Proposal, pending: bool)
    requires UniqueCalls(s)
    ensures UniqueCalls(RunCall(env, s, r, p, pending).after)
  {
    var t := Recorded(s, r, p, Proposed);
    var c := FindCall(t.calls, r, p.callId);
    RecordedUnique(s, r, p, Rejected);
    RecordedUnique(s, r, p, Awaiting);
    RecordedUnique(s, r, p, Proposed);
    if c.Some? { ExecuteUnique(t, c.value, p.outcome); }
  }

  lemma {:induction false} RunCallsUnique(env: Setting, s: Conversation, r: nat, calls: seq<Proposal>, pending: bool)
    requires UniqueCalls(s)
    ensures UniqueCalls(RunCalls(env, s, r, calls, pending).after)
    decreases |calls|
  {
    if calls != [] {
      var first := RunCall(env, s, r, calls[0], pending);
      RunCallUnique(env, s, r, calls[0], pending);
      if first.flow.Through? { RunCallsUnique(env, first.after, r, calls[1..], first.flow.pending); }
    }
  }

  lemma {:induction false} GenerateUnique(env: Setting, provider: nat -> Generation, s: Conversation, r: nat, n: nat, rounds: nat)
    requires UniqueCalls(s)
    ensures UniqueCalls(Generate(env, provider, s, r, n, rounds).after)
    decreases RoundsLeft(env, rounds)
  {
    var answer, t := provider(n), Generate(env, provider, s, r, n, rounds).after;
    if r < |s.runs| && answer.Generated? && answer.calls != [] && rounds < env.maxRounds && |answer.calls| <= env.maxCalls {
      var pass := RunCalls(env, s, r, answer.calls, false);
      RunCallsUnique(env, s, r, answer.calls, false);
      match pass.flow
      case Stopped =>
      case Raised(stop) => CaughtKeeps(env, pass.after, r, stop);
      case Through(pending) =>
        if !pending { GenerateUnique(env, provider, WithRounds(pass.after, r, rounds + 1), r, n + 1, rounds + 1); }
    } else {
      CaughtKeeps(env, s, r, ProviderDown);
      assert t.calls == s.calls;
    }
  }

  lemma ApproveUnique(s: Conversation, c: nat, humanReplied: bool, outcome: Outcome)
    requires UniqueCalls(s)
    ensures UniqueCalls(ApproveCall(s, c, humanReplied, outcome).0)
  {
    SameIdsUnique(s, ApproveCall(s, c, humanReplied, outcome).0);
  }

  lemma SupersedeUnique(s: Conversation)
    requires UniqueCalls(s)
    ensures UniqueCalls(Supersede(s))
  {
    SameIdsUnique(s, Supersede(s));
  }

  lemma StepUniqueCalls(s: Conversation, x: Event)
    requires UniqueCalls(s)
    ensures UniqueCalls(Step(s, x))
  {
    match x
    case ProcessEvent(r, env, provider) =>
      if r < |s.runs| {
        var t := WithStatus(s, r, Running);
        GenerateUnique(env, provider, t, r, 0, t.runs[r].rounds);
        if env.obstacle.Some? { CaughtKeeps(env, t, r, env.obstacle.value); }
      }
    case ApproveEvent(c, humanReplied, outcome) => ApproveUnique(s, c, humanReplied, outcome);
    case RejectEvent(c) => SameIdsUnique(s, RejectCall(s, c).0);
    case SupersedeEvent(paused) => SupersedeUnique(if paused then s.(state := PausedByHuman) else s);
    case StateEvent(state, _) => SupersedeUnique(s.(state := state));
    case _ => assert Step(s, x).calls == s.calls;
  }

  /** In any run of the protocol no run has two calls under one id, used ids included. */
  lemma {:induction false} AlwaysUniqueCalls(log: seq<Event>)
    ensures UniqueCalls(After(log))
  {
    if log != [] {
      AlwaysUniqueCalls(log[..|log| - 1]);
      StepUniqueCalls(After(log[..|log| - 1]), log[|log| - 1]);
    }
  }
}
