/** A run that waits for approval can always be decided: some call of it awaits approval, as long as call ids are never used twice. */
module AiWaiting {
  import opened Totals
  import opened AiRuns
  import opened AiSafety
  import opened AiFreshCalls

  /** A waiting run has a call to decide on. */
  predicate WaitsForSomething(s: Conversation, q: nat) {
    q < |s.runs| && s.runs[q].status.Waiting? ==> 0 < AwaitingCalls(s, q)
  }

  ghost predicate AllWaitForSomething(s: Conversation) { forall q: nat :: WaitsForSomething(s, q) }

  lemma ExecuteKeepsAwaiting(s: Conversation, c: nat, outcome: Outcome, r: nat)
    requires c < |s.calls| && !s.calls[c].status.Awaiting?
    ensures AwaitingCalls(Execute(s, c, outcome).0, r) == AwaitingCalls(s, r)
  {
    TotalUpdate(IsAwaiting(r), s.calls, c, s.calls[c].(status := Succeeded));
  }

  /** Under a new id a proposal adds an awaiting call or leaves their number alone; one left for approval adds one. */
  lemma NewCallAwaits(env: Setting, s: Conversation, r: nat, p: Proposal, pending: bool)
    requires FindCall(s.calls, r, p.callId).None? && RunCall(env, s, r, p, pending).flow.Through?
    ensures AwaitingCalls(s, r) <= AwaitingCalls(RunCall(env, s, r, p, pending).after, r)
    ensures RunCall(env, s, r, p, pending).flow.pending && !pending ==> 0 < AwaitingCalls(RunCall(env, s, r, p, pending).after, r)
  {
    RecordedIds(s, r, p, Awaiting, p.callId);
    RecordedIds(s, r, p, Proposed, p.callId);
    TotalAppend(IsAwaiting(r), s.calls, Call(r, p.callId, p.tool, Awaiting));
    TotalAppend(IsAwaiting(r), s.calls, Call(r, p.callId, p.tool, Proposed));
    ExecuteKeepsAwaiting(Recorded(s, r, p, Proposed), |s.calls|, p.outcome, r);
  }

  lemma {:induction false} PassAwaits(env: Setting, provider: nat -> Generation, s: Conversation, r: nat, n: nat, i: nat, pending: bool)
    requires r < |s.runs| && i <= |Calls(provider, n)| && DistinctIds(provider) && UnusedFrom(provider, s, r, n, i)
    requires pending ==> 0 < AwaitingCalls(s, r)
    ensures var pass := RunCalls(env, s, r, Calls(provider, n)[i..], pending);
      pass.flow.Through? && pass.flow.pending ==> 0 < AwaitingCalls(pass.after, r)
    decreases |Calls(provider, n)| - i
  {
    var calls := Calls(provider, n);
    if i < |calls| {
      var p := calls[i];
      assert calls[i..][1..] == calls[i + 1..];
      var first := RunCall(env, s, r, p, pending);
      RunCallWithin(env, s, r, p, pending);
      if first.flow.Through? {
        NewCallAwaits(env, s, r, p, pending);
        forall m: nat, j: nat | (n < m || (n == m && i + 1 <= j)) && j < |Calls(provider, m)|
          ensures FindCall(first.after.calls, r, Calls(provider, m)[j].callId).None?
        {
          RunCallIds(env, s, r, p, pending, Calls(provider, m)[j].callId);
        }
        PassAwaits(env, provider, first.after, r, n, i + 1, first.flow.pending);
      }
    }
  }

  lemma {:induction false} GenerateAwaits(env: Setting, provider: nat -> Generation, s: Conversation, r: nat, n: nat, rounds: nat)
    requires r < |s.runs| && BeingProcessed(s.runs[r].status)
    requires DistinctIds(provider) && UnusedFrom(provider, s, r, n, 0)
    ensures WaitsForSomething(Generate(env, provider, s, r, n, rounds).after, r)
    decreases RoundsLeft(env, rounds)
  {
    var answer := provider(n);
    if answer.Unavailable? {
      CaughtFinishes(env, s, r, ProviderDown);
    } else if answer.calls == [] {
      CompleteFinishes(env, s, r, answer.safe);
    } else if env.maxRounds <= rounds || env.maxCalls < |answer.calls| {
      HandoffWithin(s, r, Running);
    } else {
      var pass := RunCalls(env, s, r, answer.calls, false);
      assert Calls(provider, n)[0..] == answer.calls;
      PassAwaits(env, provider, s, r, n, 0, false);
      FreshPass(env, provider, s, r, n, 0, false);
      RunCallsWithin(env, s, r, answer.calls, false);
      match pass.flow
      case Stopped =>
      case Raised(stop) => CaughtFinishes(env, pass.after, r, stop);
      case Through(pending) =>
        if !pending { GenerateAwaits(env, provider, WithRounds(pass.after, r, rounds + 1), r, n + 1, rounds + 1); }
    }
  }

  lemma ProcessWaits(env: Setting, provider: nat -> Generation, s: Conversation, r: nat)
    requires AllWaitForSomething(s) && DistinctIds(provider) && UnusedFrom(provider, s, r, 0, 0)
    ensures AllWaitForSomething(ProcessRun(env, provider, s, r).after)
  {
    if r < |s.runs| && (s.runs[r].status.Queued? || s.runs[r].status.Running?) {
      var t, u := WithStatus(s, r, Running), ProcessRun(env, provider, s, r).after;
      ProcessFinishes(env, provider, s, r);
      if env.obstacle.Some? { CaughtFinishes(env, t, r, env.obstacle.value); }
      GenerateAwaits(env, provider, t, r, 0, t.runs[r].rounds);
      forall q: nat ensures WaitsForSomething(u, q) { assert WaitsForSomething(s, q); }
    }
  }

  lemma ApproveWaits(s: Conversation, c: nat, humanReplied: bool, outcome: Outcome)
    requires AllWaitForSomething(s)
    ensures AllWaitForSomething(ApproveCall(s, c, humanReplied, outcome).0)
  {
    var u := ApproveCall(s, c, humanReplied, outcome).0;
    if u != s {
      ApproveDecides(s, c, humanReplied, outcome);
      ApprovedRunWaits(s, c, humanReplied, outcome);
      forall q: nat ensures WaitsForSomething(u, q) { assert WaitsForSomething(s, q); }
    }
  }

  lemma ApprovedRunWaits(s: Conversation, c: nat, humanReplied: bool, outcome: Outcome)
    requires ApproveCall(s, c, humanReplied, outcome).0 != s
    ensures WaitsForSomething(ApproveCall(s, c, humanReplied, outcome).0, s.calls[c].run)
  {
    var r := s.calls[c].run;
    var t := s.(calls := s.calls[c := s.calls[c].(status := CallStatus.Approved)]);
    ExecuteWithin(t, c, outcome);
    HandoffWithin(t.(calls := t.calls[c := t.calls[c].(status := CallFailed)]), r, s.runs[r].status);
  }

  lemma RejectWaits(s: Conversation, c: nat)
    requires AllWaitForSomething(s)
    ensures AllWaitForSomething(RejectCall(s, c).0)
  {
    var u := RejectCall(s, c).0;
    if u != s {
      var r := s.calls[c].run;
      HandoffWithin(s.(calls := s.calls[c := s.calls[c].(status := Rejected)]), r, s.runs[r].status);
      forall q: nat ensures WaitsForSomething(u, q) {
        assert WaitsForSomething(s, q);
        CallChanged(s, c, Rejected, q);
      }
    }
  }

  /** The event processes a run, if any, with a provider whose call ids are new. */
  ghost predicate FreshIds(s: Conversation, x: Event) {
    x.ProcessEvent? ==> DistinctIds(x.provider) && UnusedFrom(x.provider, s, x.run, 0, 0)
  }

  lemma OtherWaits(s: Conversation, x: Event)
    requires AllWaitForSomething(s) && !x.ProcessEvent? && !x.ApproveEvent? && !x.RejectEvent?
    ensures AllWaitForSomething(Step(s, x))
  {
    forall q: nat ensures WaitsForSomething(Step(s, x), q) { assert WaitsForSomething(s, q); }
  }

  lemma StepWaits(s: Conversation, x: Event)
    requires AllWaitForSomething(s) && FreshIds(s, x)
    ensures AllWaitForSomething(Step(s, x))
  {
    match x
    case ProcessEvent(run, env, provider) => ProcessWaits(env, provider, s, run);
    case ApproveEvent(call, humanReplied, outcome) => ApproveWaits(s, call, humanReplied, outcome);
    case RejectEvent(call) => RejectWaits(s, call);
    case _ => OtherWaits(s, x);
  }

  ghost predicate FreshLog(log: seq<Event>) {
    log != [] ==> FreshLog(log[..|log| - 1]) && FreshIds(After(log[..|log| - 1]), log[|log| - 1])
  }

  /** In any run of the protocol in which call ids are new, a run that waits for approval has a call awaiting it. */
  lemma {:induction false} NoRunWaitsForNothing(log: seq<Event>)
    requires FreshLog(log)
    ensures AllWaitForSomething(After(log))
  {
    if log != [] {
      NoRunWaitsForNothing(log[..|log| - 1]);
      StepWaits(After(log[..|log| - 1]), log[|log| - 1]);
    }
  }
}
