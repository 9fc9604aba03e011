/** When processing leaves a run finished: as long as no call id is used twice. */
module AiFreshCalls {
  import opened Totals
  import opened AiRuns
  import opened AiSafety

  function Calls(provider: nat -> Generation, n: nat): seq<Proposal> {
    if provider(n).Generated? then provider(n).calls else []
  }

  /** The provider never gives two proposals the same call id. */
  ghost predicate DistinctIds(provider: nat -> Generation) {
    forall n: nat, i: nat, m: nat, j: nat :: i < |Calls(provider, n)| && j < |Calls(provider, m)| && (n != m || i != j) ==>
      Calls(provider, n)[i].callId != Calls(provider, m)[j].callId
  }

  /** No call of run r is stored under an id of the proposals from position i of generation n on. */
  ghost predicate UnusedFrom(provider: nat -> Generation, s: Conversation, r: nat, n: nat, i: nat) {
    forall m: nat, j: nat :: (n < m || (n == m && i <= j)) && j < |Calls(provider, m)| ==>
      FindCall(s.calls, r, Calls(provider, m)[j].callId).None?
  }

  predicate BeingProcessed(status: RunStatus) { status.Running? || status.HandedOff? }

  lemma {:induction false} FoundById(a: seq<Call>, b: seq<Call>, r: nat, callId: string)
    requires |a| == |b| && forall i :: 0 <= i < |a| ==> a[i].run == b[i].run && a[i].callId == b[i].callId
    ensures FindCall(a, r, callId) == FindCall(b, r, callId)
  {
    if a != [] { FoundById(a[..|a| - 1], b[..|b| - 1], r, callId); }
  }

  lemma ExecuteKeepsIds(s: Conversation, c: nat, outcome: Outcome, r: nat, callId: string)
    requires c < |s.calls|
    ensures FindCall(Execute(s, c, outcome).0.calls, r, callId) == FindCall(s.calls, r, callId)
  {
    FoundById(Execute(s, c, outcome).0.calls, s.calls, r, callId);
  }

  lemma RecordedIds(s: Conversation, r: nat, p: Proposal, status: CallStatus, callId: string)
    ensures callId != p.callId ==> FindCall(Recorded(s, r, p, status).calls, r, callId) == FindCall(s.calls, r, callId)
    ensures FindCall(s.calls, r, p.callId).None? ==>
      FindCall(Recorded(s, r, p, status).calls, r, p.callId) == Some(|s.calls|)
      && Recorded(s, r, p, status).calls == s.calls + [Call(r, p.callId, p.tool, status)]
  {
    assert (s.calls + [Call(r, p.callId, p.tool, status)])[..|s.calls|] == s.calls;
  }

  /** One proposal takes up no id but its own. */
  lemma RunCallIds(env: Setting, s: Conversation, r: nat, p: Proposal, pending: bool, callId: string)
    requires callId != p.callId && RunCall(env, s, r, p, pending).flow.Through?
    ensures FindCall(RunCall(env, s, r, p, pending).after.calls, r, callId) == FindCall(s.calls, r, callId)
  {
    RecordedIds(s, r, p, Awaiting, callId);
    RecordedIds(s, r, p, Proposed, callId);
    var t := Recorded(s, r, p, Proposed);
    var c := FindCall(t.calls, r, p.callId);
    if c.Some? { ExecuteKeepsIds(t, c.value, p.outcome, r, callId); }
  }

  /** Under a new id a request for a human hands the run off. */
  lemma NewHandoffTakesEffect(env: Setting, s: Conversation, r: nat, p: Proposal, pending: bool)
    requires r < |s.runs| && BeingProcessed(s.runs[r].status) && FindCall(s.calls, r, p.callId).None?
    requires RunCall(env, s, r, p, pending).flow.Stopped?
    ensures RunCall(env, s, r, p, pending).after.runs[r].status.HandedOff?
  {
    RecordedIds(s, r, p, Proposed, p.callId);
  }

  lemma {:induction false} FreshPass(env: Setting, provider: nat -> Generation, s: Conversation, r: nat, n: nat, i: nat, pending: bool)
    requires r < |s.runs| && BeingProcessed(s.runs[r].status) && i <= |Calls(provider, n)|
    requires DistinctIds(provider) && UnusedFrom(provider, s, r, n, i)
    ensures var pass := RunCalls(env, s, r, Calls(provider, n)[i..], pending);
      && |pass.after.runs| == |s.runs|
      && (pass.flow.Stopped? ==> pass.after.runs[r].status.HandedOff?)
      && (pass.flow.Through? ==> UnusedFrom(provider, pass.after, r, n + 1, 0))
    decreases |Calls(provider, n)| - i
  {
    var calls := Calls(provider, n);
    RunCallsWithin(env, s, r, calls[i..], pending);
    if i < |calls| {
      var p := calls[i];
      assert calls[i..][1..] == calls[i + 1..];
      var first := RunCall(env, s, r, p, pending);
      RunCallWithin(env, s, r, p, pending);
      if first.flow.Through? {
        forall m: nat, j: nat | (n < m || (n == m && i + 1 <= j)) && j < |Calls(provider, m)|
          ensures FindCall(first.after.calls, r, Calls(provider, m)[j].callId).None?
        {
          RunCallIds(env, s, r, p, pending, Calls(provider, m)[j].callId);
        }
        FreshPass(env, provider, first.after, r, n, i + 1, first.flow.pending);
      } else if first.flow.Stopped? {
        NewHandoffTakesEffect(env, s, r, p, pending);
      }
    }
  }

  lemma {:induction false} FreshGenerateEnds(env: Setting, provider: nat -> Generation, s: Conversation, r: nat, n: nat, rounds: nat)
    requires r < |s.runs| && BeingProcessed(s.runs[r].status)
    requires DistinctIds(provider) && UnusedFrom(provider, s, r, n, 0)
    ensures var t := Generate(env, provider, s, r, n, rounds).after;
      |t.runs| == |s.runs| && !t.runs[r].status.Queued? && !t.runs[r].status.Running?
    decreases RoundsLeft(env, rounds)
  {
    var answer := provider(n);
    if answer.Unavailable? {
      CaughtFinishes(env, s, r, ProviderDown);
    } else if answer.calls == [] {
      CompleteFinishes(env, s, r, answer.safe);
    } else if env.maxRounds <= rounds || env.maxCalls < |answer.calls| {
      HandoffWithin(s, r, Running);
    } else {
      var pass := RunCalls(env, s, r, answer.calls, false);
      assert Calls(provider, n)[0..] == answer.calls;
      FreshPass(env, provider, s, r, n, 0, false);
      RunCallsWithin(env, s, r, answer.calls, false);
      match pass.flow
      case Stopped =>
      case Raised(stop) => CaughtFinishes(env, pass.after, r, stop);
      case Through(pending) =>
        if !pending { FreshGenerateEnds(env, provider, WithRounds(pass.after, r, rounds + 1), r, n + 1, rounds + 1); }
    }
  }

  /** With fresh call ids, whatever else the provider does, processing leaves the stored run neither queued nor running. */
  lemma ProcessedRunIsDone(env: Setting, provider: nat -> Generation, s: Conversation, r: nat)
    requires r < |s.runs| && DistinctIds(provider) && UnusedFrom(provider, s, r, 0, 0)
    ensures var t := ProcessRun(env, provider, s, r).after;
      |t.runs| == |s.runs| && !t.runs[r].status.Queued? && !t.runs[r].status.Running?
  {
    var t := WithStatus(s, r, Running);
    if env.obstacle.Some? { CaughtFinishes(env, t, r, env.obstacle.value); }
    FreshGenerateEnds(env, provider, t, r, 0, t.runs[r].rounds);
  }
}
