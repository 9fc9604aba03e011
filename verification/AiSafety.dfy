/** What the AI run protocol keeps: bounded work, one work item, no reply by a run that handed off; and when it keeps one handoff. */
module AiSafety {
  import opened Totals
  import opened AiRuns

  // ----- bounded work -----

  lemma {:induction false} LoopExecutesEachOnce(env: Setting, s: Conversation, r: nat, calls: seq<Proposal>, pending: bool)
    ensures RunCalls(env, s, r, calls, pending).executions <= |calls|
    decreases |calls|
  {
    if calls != [] {
      var first := RunCall(env, s, r, calls[0], pending);
      if first.flow.Through? { LoopExecutesEachOnce(env, first.after, r, calls[1..], first.flow.pending); }
    }
  }

  function RoundsLeft(env: Setting, rounds: nat): nat { if rounds < env.maxRounds then env.maxRounds - rounds else 0 }

  lemma OneRoundLess(env: Setting, rounds: nat, generations: nat, executions: nat, more: nat)
    requires rounds < env.maxRounds && more <= env.maxCalls
    requires generations <= RoundsLeft(env, rounds + 1) + 1 && executions <= RoundsLeft(env, rounds + 1) * env.maxCalls
    ensures generations + 1 <= RoundsLeft(env, rounds) + 1 && executions + more <= RoundsLeft(env, rounds) * env.maxCalls
  {
    assert RoundsLeft(env, rounds) * env.maxCalls == RoundsLeft(env, rounds + 1) * env.maxCalls + env.maxCalls;
  }

  predicate Bounded(env: Setting, rounds: nat, generations: nat, executions: nat) {
    generations <= RoundsLeft(env, rounds) + 1 && executions <= RoundsLeft(env, rounds) * env.maxCalls
  }

  lemma {:induction false} GenerateIsBounded(env: Setting, provider: nat -> Generation, s: Conversation, r: nat, n: nat, rounds: nat)
    ensures var t := Generate(env, provider, s, r, n, rounds); Bounded(env, rounds, t.generations, t.executions)
    decreases RoundsLeft(env, rounds)
  {
    var answer := provider(n);
    Product(0, RoundsLeft(env, rounds), env.maxCalls);
    if r < |s.runs| && answer.Generated? && answer.calls != [] && rounds < env.maxRounds && |answer.calls| <= env.maxCalls {
      var pass := RunCalls(env, s, r, answer.calls, false);
      LoopExecutesEachOnce(env, s, r, answer.calls, false);
      Product(1, RoundsLeft(env, rounds), env.maxCalls);
      if pass.flow == Through(false) {
        var t := WithRounds(pass.after, r, rounds + 1);
        GenerateIsBounded(env, provider, t, r, n + 1, rounds + 1);
        var rest := Generate(env, provider, t, r, n + 1, rounds + 1);
        OneRoundLess(env, rounds, rest.generations, rest.executions, pass.executions);
      }
    }
  }

  /** Whatever the provider answers, processing asks at most once more than there are tool rounds, and executes at most the allowed calls in each. */
  lemma ProcessingIsBounded(env: Setting, provider: nat -> Generation, s: Conversation, r: nat)
    ensures ProcessRun(env, provider, s, r).generations <= env.maxRounds + 1
    ensures ProcessRun(env, provider, s, r).executions <= env.maxRounds * env.maxCalls
  {
    if r < |s.runs| {
      var rounds := s.runs[r].rounds;
      GenerateIsBounded(env, provider, WithStatus(s, r, Running), r, 0, rounds);
      Product(RoundsLeft(env, rounds), env.maxRounds, env.maxCalls);
    }
  }

  lemma Product(a: nat, b: nat, k: nat)
    requires a <= b
    ensures a * k <= b * k && 0 <= b * k
  {
  }

  // ----- what the tool loop keeps -----

  /** A handoff opened by run r, or none. */
  predicate HandoffStep(s: Conversation, t: Conversation, r: nat) {
    || t.handoffs == s.handoffs
    || (UnresolvedHandoffs(s) == 0 && t.handoffs == s.handoffs + [Handoff(Some(r), Open)])
  }

  /** From s to t nothing but run r, its calls and at most one handoff has changed; a handoff marks the run. */
  ghost predicate Within(s: Conversation, t: Conversation, r: nat) {
    && r < |s.runs| == |t.runs| && t.runs == s.runs[r := t.runs[r]]
    && (t.runs[r].status == s.runs[r].status || t.runs[r].status.HandedOff?)
    && t.drafts == s.drafts && t.replies == s.replies
    && HandoffStep(s, t, r) && (t.handoffs != s.handoffs ==> t.runs[r].status.HandedOff?)
    && forall q: nat :: q != r ==> AwaitingCalls(t, q) == AwaitingCalls(s, q)
  }

  lemma OneMoreHandoff(s: Conversation, t: Conversation, r: nat)
    requires HandoffStep(s, t, r)
    ensures UnresolvedHandoffs(t) == if t.handoffs == s.handoffs then UnresolvedHandoffs(s) else 1
  {
    TotalAppend(IsUnresolved(), s.handoffs, Handoff(Some(r), Open));
  }

  lemma WithinTransitive(s: Conversation, t: Conversation, u: Conversation, r: nat)
    requires Within(s, t, r) && Within(t, u, r)
    ensures Within(s, u, r)
  {
    OneMoreHandoff(s, t, r);
  }

  lemma RecordedWithin(s: Conversation, r: nat, p: Proposal, status: CallStatus)
    requires r < |s.runs|
    ensures Within(s, Recorded(s, r, p, status), r)
  {
    forall q: nat | q != r ensures AwaitingCalls(Recorded(s, r, p, status), q) == AwaitingCalls(s, q) {
      TotalAppend(IsAwaiting(q), s.calls, Call(r, p.callId, p.tool, status));
    }
  }

  lemma HandoffWithin(s: Conversation, r: nat, held: RunStatus)
    requires r < |s.runs|
    ensures Within(s, CreateHandoff(s, Some(r), held), r)
    ensures !held.HandedOff? && !held.Completed? ==> CreateHandoff(s, Some(r), held).runs[r].status.HandedOff?
  {
  }

  lemma ExecuteWithin(s: Conversation, c: nat, outcome: Outcome)
    requires c < |s.calls| && s.calls[c].run < |s.runs|
    ensures Within(s, Execute(s, c, outcome).0, s.calls[c].run)
  {
    var call := s.calls[c];
    HandoffWithin(s, call.run, s.runs[call.run].status);
    forall q: nat | q != call.run ensures AwaitingCalls(Execute(s, c, outcome).0, q) == AwaitingCalls(s, q) {
      TotalUpdate(IsAwaiting(q), s.calls, c, call.(status := Succeeded));
    }
  }

  lemma RunCallWithin(env: Setting, s: Conversation, r: nat, p: Proposal, pending: bool)
    requires r < |s.runs|
    ensures Within(s, RunCall(env, s, r, p, pending).after, r)
  {
    RecordedWithin(s, r, p, Rejected);
    RecordedWithin(s, r, p, Awaiting);
    RecordedWithin(s, r, p, Proposed);
    var rejected := Recorded(s, r, p, Rejected);
    HandoffWithin(rejected, r, Running);
    WithinTransitive(s, rejected, RefuseProposal(s, r, p), r);
    var t := Recorded(s, r, p, Proposed);
    var c := FindCall(t.calls, r, p.callId);
    if c.Some? {
      ExecuteWithin(t, c.value, p.outcome);
      WithinTransitive(s, t, Execute(t, c.value, p.outcome).0, r);
    }
  }

  lemma {:induction false} RunCallsWithin(env: Setting, s: Conversation, r: nat, calls: seq<Proposal>, pending: bool)
    requires r < |s.runs|
    ensures Within(s, RunCalls(env, s, r, calls, pending).after, r)
    decreases |calls|
  {
    if calls != [] {
      var first := RunCall(env, s, r, calls[0], pending);
      RunCallWithin(env, s, r, calls[0], pending);
      if first.flow.Through? {
        RunCallsWithin(env, first.after, r, calls[1..], first.flow.pending);
        WithinTransitive(s, first.after, RunCalls(env, first.after, r, calls[1..], first.flow.pending).after, r);
      }
    }
  }

  // ----- what processing keeps -----

  /** Run r, which had no draft, has one now. */
  predicate NewDraft(s: Conversation, t: Conversation, r: nat) {
    FindDraft(s.drafts, r).None? && t.drafts == s.drafts + [Draft(r, Pending)]
  }

  /** From s, where run r is being processed, to its end t: perhaps a draft of the completed run, or a reply of a run that opened no handoff. */
  ghost predicate Finished(s: Conversation, t: Conversation, r: nat) {
    && r < |s.runs| == |t.runs| && t.runs == s.runs[r := t.runs[r]]
    && !t.runs[r].status.Queued?
    && (t.drafts == s.drafts || (NewDraft(s, t, r) && t.runs[r].status.Completed?))
    && HandoffStep(s, t, r) && (t.handoffs != s.handoffs ==> !t.runs[r].status.Running?)
    && (t.replies == s.replies
        || (t.handoffs == s.handoffs && |t.replies| == |s.replies| + 1 && t.replies == s.replies + [t.replies[|s.replies|]]
            && t.replies[|s.replies|].run == r && t.replies[|s.replies|].auto && AwaitingCalls(t, r) == 0 && !Active(t.runs[r].status)))
    && forall q: nat :: q != r ==> AwaitingCalls(t, q) == AwaitingCalls(s, q)
  }

  lemma FinishLater(s: Conversation, t: Conversation, u: Conversation, r: nat)
    requires Within(s, t, r) && Finished(t, u, r) && (UnresolvedHandoffs(t) != 0 ==> u.replies == t.replies)
    requires t.handoffs != s.handoffs ==> !u.runs[r].status.Running?
    ensures Finished(s, u, r)
  {
    OneMoreHandoff(s, t, r);
  }

  lemma CaughtFinishes(env: Setting, s: Conversation, r: nat, stop: Stop)
    requires r < |s.runs|
    ensures Finished(s, Caught(env, s, r, stop), r)
    ensures Caught(env, s, r, stop).replies == s.replies
    ensures !Active(Caught(env, s, r, stop).runs[r].status)
  {
    HandoffWithin(s, r, Running);
  }

  lemma CompleteFinishes(env: Setting, s: Conversation, r: nat, safe: bool)
    requires r < |s.runs|
    ensures Finished(s, CompleteText(env, s, r, safe), r)
    ensures UnresolvedHandoffs(s) != 0 ==> CompleteText(env, s, r, safe).replies == s.replies
    ensures !Active(CompleteText(env, s, r, safe).runs[r].status)
  {
    HandoffWithin(s, r, Running);
    CaughtFinishes(env, s, r, SendBlocked);
    CaughtFinishes(env, s, r, Other);
  }

  lemma RoundsWithin(s: Conversation, t: Conversation, r: nat, rounds: nat)
    requires Within(s, t, r)
    ensures Within(s, WithRounds(t, r, rounds), r)
  {
  }

  lemma {:induction false} GenerateFinishes(env: Setting, provider: nat -> Generation, s: Conversation, r: nat, n: nat, rounds: nat)
    requires r < |s.runs| && !s.runs[r].status.Queued?
    ensures Finished(s, Generate(env, provider, s, r, n, rounds).after, r)
    ensures UnresolvedHandoffs(s) != 0 ==> Generate(env, provider, s, r, n, rounds).after.replies == s.replies
    ensures s.runs[r].status.HandedOff? ==> !Generate(env, provider, s, r, n, rounds).after.runs[r].status.Running?
    decreases RoundsLeft(env, rounds)
  {
    var answer, u := provider(n), Generate(env, provider, s, r, n, rounds).after;
    if answer.Unavailable? {
      CaughtFinishes(env, s, r, ProviderDown);
    } else if answer.calls == [] {
      CompleteFinishes(env, s, r, answer.safe);
    } else if env.maxRounds <= rounds || env.maxCalls < |answer.calls| {
      HandoffWithin(s, r, Running);
    } else {
      var pass := RunCalls(env, s, r, answer.calls, false);
      RunCallsWithin(env, s, r, answer.calls, false);
      RoundEnds(env, provider, s, r, n, rounds, pass);
    }
  }

  /** The end of one tool round. */
  lemma {:induction false} RoundEnds(env: Setting, provider: nat -> Generation, s: Conversation, r: nat, n: nat, rounds: nat, pass: Pass)
    requires r < |s.runs| && !s.runs[r].status.Queued? && rounds < env.maxRounds && Within(s, pass.after, r)
    ensures var u := AfterPass(env, provider, r, n, rounds, pass);
      && Finished(s, u, r)
      && (UnresolvedHandoffs(s) != 0 ==> u.replies == s.replies)
      && (s.runs[r].status.HandedOff? ==> !u.runs[r].status.Running?)
    decreases RoundsLeft(env, rounds), 0
  {
    match pass.flow
    case Stopped =>
    case Raised(stop) =>
      CaughtFinishes(env, pass.after, r, stop);
      FinishLater(s, pass.after, Caught(env, pass.after, r, stop), r);
    case Through(pending) =>
      var t := WithRounds(pass.after, r, rounds + 1);
      RoundsWithin(s, pass.after, r, rounds + 1);
      OneMoreHandoff(s, t, r);
      if !pending {
        GenerateFinishes(env, provider, t, r, n + 1, rounds + 1);
        FinishLater(s, t, Generate(env, provider, t, r, n + 1, rounds + 1).after, r);
      }
  }

  /** What the state is once a round has ended, and everything after it. */
  function AfterPass(env: Setting, provider: nat -> Generation, r: nat, n: nat, rounds: nat, pass: Pass): Conversation
    requires rounds < env.maxRounds
  {
    match pass.flow
    case Stopped => pass.after
    case Raised(stop) => Caught(env, pass.after, r, stop)
    case Through(pending) =>
      var t := WithRounds(pass.after, r, rounds + 1);
      if pending then WithStatus(t, r, Waiting) else Generate(env, provider, t, r, n + 1, rounds + 1).after
  }

  lemma ProcessFinishes(env: Setting, provider: nat -> Generation, s: Conversation, r: nat)
    requires r < |s.runs| && (s.runs[r].status.Queued? || s.runs[r].status.Running?)
    ensures Finished(s, ProcessRun(env, provider, s, r).after, r)
  {
    var t := WithStatus(s, r, Running);
    if env.obstacle.Some? { CaughtFinishes(env, t, r, env.obstacle.value); }
    GenerateFinishes(env, provider, t, r, 0, t.runs[r].rounds);
  }

  /** A run that opens a handoff while it is processed sends no autopilot reply. */
  lemma HandoffSilencesAutopilot(env: Setting, provider: nat -> Generation, s: Conversation, r: nat)
    requires ProcessRun(env, provider, s, r).after.handoffs != s.handoffs
    ensures ProcessRun(env, provider, s, r).after.replies == s.replies
  {
    if r < |s.runs| && (s.runs[r].status.Queued? || s.runs[r].status.Running?) { ProcessFinishes(env, provider, s, r); }
  }

  // ----- the invariant -----

  function OpenedBy(q: nat): Handoff -> nat { (h: Handoff) => if h.run == Some(q) then 1 else 0 }

  function PilotedBy(q: nat): Reply -> nat { (x: Reply) => if x.run == q && x.auto then 1 else 0 }

  /** Handoffs run q has opened, autopilot replies it has sent. */
  function Opened(s: Conversation, q: nat): nat { Total(OpenedBy(q), s.handoffs) }

  function Piloted(s: Conversation, q: nat): nat { Total(PilotedBy(q), s.replies) }

  /** A run that opened a handoff will not be processed again; one that replied is over, and has not opened a handoff. */
  predicate RunOrderly(s: Conversation, q: nat) {
    && (0 < Opened(s, q) ==> q < |s.runs| && !s.runs[q].status.Queued? && !s.runs[q].status.Running? && Piloted(s, q) == 0)
    && Piloted(s, q) <= 1
    && (0 < Piloted(s, q) ==> q < |s.runs| && !Active(s.runs[q].status) && AwaitingCalls(s, q) == 0)
  }

  ghost predicate Orderly(s: Conversation) {
    && ActiveRuns(s) + PendingDrafts(s) <= 1
    && forall q: nat :: RunOrderly(s, q)
  }

  lemma StepCounts(s: Conversation, t: Conversation, r: nat)
    requires r < |s.runs| == |t.runs| && t.runs == s.runs[r := t.runs[r]] && HandoffStep(s, t, r)
    requires t.drafts == s.drafts || t.drafts == s.drafts + [Draft(r, Pending)]
    ensures ActiveRuns(t) + IsActive()(s.runs[r]) == ActiveRuns(s) + IsActive()(t.runs[r])
    ensures PendingDrafts(t) == PendingDrafts(s) + if t.drafts == s.drafts then 0 else 1
    ensures IsActive()(s.runs[r]) <= ActiveRuns(s)
  {
    TotalUpdate(IsActive(), s.runs, r, t.runs[r]);
    TotalAppend(IsPending(), s.drafts, Draft(r, Pending));
    TotalBoundsEach(IsActive(), s.runs, r);
  }

  lemma StepOpened(s: Conversation, t: Conversation, r: nat, q: nat)
    requires HandoffStep(s, t, r)
    ensures Opened(t, q) == Opened(s, q) + if t.handoffs != s.handoffs && q == r then 1 else 0
  {
    TotalAppend(OpenedBy(q), s.handoffs, Handoff(Some(r), Open));
  }

  lemma FinishedRunOrderly(s: Conversation, t: Conversation, r: nat, q: nat)
    requires RunOrderly(s, q) && Finished(s, t, r) && (s.runs[r].status.Queued? || s.runs[r].status.Running?)
    ensures RunOrderly(t, q)
  {
    StepOpened(s, t, r, q);
    if t.replies != s.replies { TotalAppend(PilotedBy(q), s.replies, t.replies[|s.replies|]); }
  }

  lemma ProcessOrderly(env: Setting, provider: nat -> Generation, s: Conversation, r: nat)
    requires Orderly(s)
    ensures Orderly(ProcessRun(env, provider, s, r).after)
  {
    if r < |s.runs| && (s.runs[r].status.Queued? || s.runs[r].status.Running?) {
      var t := ProcessRun(env, provider, s, r).after;
      ProcessFinishes(env, provider, s, r);
      StepCounts(s, t, r);
      forall q: nat ensures RunOrderly(t, q) { FinishedRunOrderly(s, t, r, q); }
    }
  }

  /** What approving or rejecting a call of run r may do: finish a waiting run with a draft, or hand off. */
  ghost predicate Decided(s: Conversation, t: Conversation, r: nat) {
    && r < |s.runs| == |t.runs| && t.runs == s.runs[r := t.runs[r]]
    && (|| t.runs[r].status == s.runs[r].status || t.runs[r].status.HandedOff?
        || (s.runs[r].status.Waiting? && t.runs[r].status.Completed?))
    && (t.drafts == s.drafts || (NewDraft(s, t, r) && s.runs[r].status.Waiting? && t.runs[r].status.Completed?))
    && HandoffStep(s, t, r) && (t.handoffs != s.handoffs ==> t.runs[r].status.HandedOff? || t.runs[r].status.Completed?)
    && t.replies == s.replies
    && forall q: nat :: q != r ==> AwaitingCalls(t, q) == AwaitingCalls(s, q)
  }

  lemma DecidedOrderly(s: Conversation, t: Conversation, r: nat)
    requires Orderly(s) && Decided(s, t, r) && 0 < AwaitingCalls(s, r)
    ensures Orderly(t)
  {
    StepCounts(s, t, r);
    assert RunOrderly(s, r);
    forall q: nat ensures RunOrderly(t, q) {
      assert RunOrderly(s, q);
      StepOpened(s, t, r, q);
    }
  }

  /** A call's status changed, everything else as it was. */
  lemma CallChanged(s: Conversation, c: nat, status: CallStatus, q: nat)
    requires c < |s.calls| && s.calls[c].status.Awaiting? && !status.Awaiting?
    ensures var t := s.(calls := s.calls[c := s.calls[c].(status := status)]);
      AwaitingCalls(t, q) == AwaitingCalls(s, q) - if s.calls[c].run == q then 1 else 0
    ensures 0 < AwaitingCalls(s, s.calls[c].run)
  {
    TotalUpdate(IsAwaiting(q), s.calls, c, s.calls[c].(status := status));
    TotalBoundsEach(IsAwaiting(s.calls[c].run), s.calls, c);
  }

  lemma RejectOrderly(s: Conversation, c: nat)
    requires Orderly(s)
    ensures Orderly(RejectCall(s, c).0)
  {
    var t := RejectCall(s, c).0;
    if t != s {
      var r := s.calls[c].run;
      forall q: nat | q != r ensures AwaitingCalls(t, q) == AwaitingCalls(s, q) { CallChanged(s, c, Rejected, q); }
      CallChanged(s, c, Rejected, r);
      HandoffWithin(s.(calls := s.calls[c := s.calls[c].(status := Rejected)]), r, s.runs[r].status);
      DecidedOrderly(s, t, r);
    }
  }

  lemma ApproveDecides(s: Conversation, c: nat, humanReplied: bool, outcome: Outcome)
    requires ApproveCall(s, c, humanReplied, outcome).0 != s
    ensures Decided(s, ApproveCall(s, c, humanReplied, outcome).0, s.calls[c].run) && 0 < AwaitingCalls(s, s.calls[c].run)
  {
    var r := s.calls[c].run;
    var t := s.(calls := s.calls[c := s.calls[c].(status := CallStatus.Approved)]);
    CallChanged(s, c, CallStatus.Approved, r);
    forall q: nat | q != r ensures AwaitingCalls(t, q) == AwaitingCalls(s, q) { CallChanged(s, c, CallStatus.Approved, q); }
    var (u, stop) := Execute(t, c, outcome);
    ExecuteWithin(t, c, outcome);
    if stop == Some(ToolError) {
      var failed := t.(calls := t.calls[c := t.calls[c].(status := CallFailed)]);
      forall q: nat ensures AwaitingCalls(failed, q) == AwaitingCalls(t, q) {
        TotalUpdate(IsAwaiting(q), t.calls, c, t.calls[c].(status := CallFailed));
      }
      HandoffWithin(failed, r, s.runs[r].status);
    }
  }

  lemma ApproveOrderly(s: Conversation, c: nat, humanReplied: bool, outcome: Outcome)
    requires Orderly(s)
    ensures Orderly(ApproveCall(s, c, humanReplied, outcome).0)
  {
    var t := ApproveCall(s, c, humanReplied, outcome).0;
    if t != s {
      ApproveDecides(s, c, humanReplied, outcome);
      DecidedOrderly(s, t, s.calls[c].run);
    }
  }

  lemma QueueOrderly(s: Conversation, key: string, requested: Option<AiState>, refusal: Option<string>, demoted: bool, late: Option<string>)
    requires Orderly(s)
    ensures Orderly(QueueRun(s, key, requested, refusal, demoted, late).0)
  {
    var t := QueueRun(s, key, requested, refusal, demoted, late).0;
    if t != s {
      TotalAppend(IsActive(), s.runs, t.runs[|s.runs|]);
      forall q: nat ensures RunOrderly(t, q) { assert RunOrderly(s, q); }
    }
  }

  lemma DraftOrderly(s: Conversation, d: nat, action: DraftAction, humanReplied: bool, validBody: bool, sending: Sending)
    requires Orderly(s)
    ensures Orderly(ActOnDraft(s, d, action, humanReplied, validBody, sending).0)
  {
    var t := ActOnDraft(s, d, action, humanReplied, validBody, sending).0;
    if t != s {
      TotalUpdate(IsPending(), s.drafts, d, t.drafts[d]);
      forall q: nat ensures RunOrderly(t, q) {
        assert RunOrderly(s, q);
        TotalAppend(PilotedBy(q), s.replies, Reply(s.drafts[d].run, false, sending.Fails?));
      }
    }
  }

  lemma {:induction false} NothingToCount<T>(weight: T -> nat, rows: seq<T>)
    requires forall i :: 0 <= i < |rows| ==> weight(rows[i]) == 0
    ensures Total(weight, rows) == 0
  {
    if rows != [] { NothingToCount(weight, rows[..|rows| - 1]); }
  }

  lemma SupersedeOrderly(s: Conversation)
    requires Orderly(s)
    ensures Orderly(Supersede(s))
  {
    var t := Supersede(s);
    NothingToCount(IsActive(), t.runs);
    NothingToCount(IsPending(), t.drafts);
    forall q: nat ensures RunOrderly(t, q) {
      assert RunOrderly(s, q);
      TotalMono(IsAwaiting(q), t.calls, IsAwaiting(q), s.calls);
    }
  }

  lemma UpdateOrderly(s: Conversation, h: nat, action: HandoffAction)
    requires Orderly(s)
    ensures Orderly(UpdateHandoff(s, h, action).0)
  {
    var t := UpdateHandoff(s, h, action).0;
    if t != s {
      forall q: nat ensures RunOrderly(t, q) {
        assert RunOrderly(s, q);
        TotalUpdate(OpenedBy(q), s.handoffs, h, t.handoffs[h]);
      }
    }
  }

  lemma CustomerHandoffOrderly(s: Conversation)
    requires Orderly(s)
    ensures Orderly(CreateHandoff(s, None, Completed))
  {
    var t := CreateHandoff(s, None, Completed);
    if t != s { CallbackOrderly(s); StateOrderly(Callback(s), HandoffRequired); }
  }

  lemma CallbackOrderly(s: Conversation)
    requires Orderly(s)
    ensures Orderly(Callback(s))
  {
    forall q: nat ensures RunOrderly(Callback(s), q) {
      assert RunOrderly(s, q);
      TotalAppend(OpenedBy(q), s.handoffs, Handoff(None, Open));
    }
  }

  lemma StateOrderly(s: Conversation, state: AiState)
    requires Orderly(s)
    ensures Orderly(s.(state := state))
  {
    forall q: nat ensures RunOrderly(s.(state := state), q) { assert RunOrderly(s, q); }
  }

  lemma StepOrderly(s: Conversation, x: Event)
    requires Orderly(s)
    ensures Orderly(Step(s, x))
  {
    match x
    case QueueEvent(key, requested, refusal, demoted, late) => QueueOrderly(s, key, requested, refusal, demoted, late);
    case ProcessEvent(run, env, provider) => ProcessOrderly(env, provider, s, run);
    case DraftEvent(draft, action, humanReplied, validBody, sending) => DraftOrderly(s, draft, action, humanReplied, validBody, sending);
    case ApproveEvent(call, humanReplied, outcome) => ApproveOrderly(s, call, humanReplied, outcome);
    case RejectEvent(call) => RejectOrderly(s, call);
    case HandoffEvent => CustomerHandoffOrderly(s);
    case CallbackEvent => CallbackOrderly(s);
    case ChannelEvent(paused) => StateOrderly(s, if paused then PausedByHuman else Off);
    case UpdateEvent(handoff, update) => UpdateOrderly(s, handoff, update);
    case SupersedeEvent(paused) =>
      StateOrderly(s, PausedByHuman);
      SupersedeOrderly(if paused then s.(state := PausedByHuman) else s);
    case StateEvent(state, refusal) =>
      StateOrderly(s, state);
      SupersedeOrderly(s.(state := state));
  }

  lemma {:induction false} AlwaysOrderly(log: seq<Event>)
    ensures Orderly(After(log))
  {
    if log == [] {
      forall q: nat ensures RunOrderly(STARTED, q) { }
    } else {
      AlwaysOrderly(log[..|log| - 1]);
      StepOrderly(After(log[..|log| - 1]), log[|log| - 1]);
    }
  }

  /** In any run of the protocol there is at most one work item, an active run or a pending draft. */
  lemma SingleWorkItem(log: seq<Event>)
    ensures ActiveRuns(After(log)) + PendingDrafts(After(log)) <= 1
  {
    AlwaysOrderly(log);
  }

  /** The event is not a callback while a handoff is unresolved. */
  predicate Quiet(s: Conversation, x: Event) { x.CallbackEvent? ==> UnresolvedHandoffs(s) == 0 }

  lemma ProcessOneHandoff(env: Setting, provider: nat -> Generation, s: Conversation, r: nat)
    requires UnresolvedHandoffs(s) <= 1
    ensures UnresolvedHandoffs(ProcessRun(env, provider, s, r).after) <= 1
  {
    if r < |s.runs| && (s.runs[r].status.Queued? || s.runs[r].status.Running?) {
      ProcessFinishes(env, provider, s, r);
      OneMoreHandoff(s, ProcessRun(env, provider, s, r).after, r);
    }
  }

  lemma ApproveOneHandoff(s: Conversation, c: nat, humanReplied: bool, outcome: Outcome)
    requires UnresolvedHandoffs(s) <= 1
    ensures UnresolvedHandoffs(ApproveCall(s, c, humanReplied, outcome).0) <= 1
  {
    var t := ApproveCall(s, c, humanReplied, outcome).0;
    if t != s {
      ApproveDecides(s, c, humanReplied, outcome);
      OneMoreHandoff(s, t, s.calls[c].run);
    }
  }

  lemma RejectOneHandoff(s: Conversation, c: nat)
    requires UnresolvedHandoffs(s) <= 1
    ensures UnresolvedHandoffs(RejectCall(s, c).0) <= 1
  {
    if RejectCall(s, c).0 != s { OneMoreHandoff(s, RejectCall(s, c).0, s.calls[c].run); }
  }

  lemma UpdateOneHandoff(s: Conversation, h: nat, action: HandoffAction)
    requires UnresolvedHandoffs(s) <= 1
    ensures UnresolvedHandoffs(UpdateHandoff(s, h, action).0) <= 1
  {
    var t := UpdateHandoff(s, h, action).0;
    if t != s { TotalUpdate(IsUnresolved(), s.handoffs, h, t.handoffs[h]); }
  }

  /** One event leaves at most one handoff unresolved exactly when it is not such a callback. */
  lemma StepOneHandoffIff(s: Conversation, x: Event)
    requires UnresolvedHandoffs(s) <= 1
    ensures UnresolvedHandoffs(Step(s, x)) <= 1 <==> Quiet(s, x)
  {
    match x
    case ProcessEvent(r, env, provider) => ProcessOneHandoff(env, provider, s, r);
    case ApproveEvent(c, humanReplied, outcome) => ApproveOneHandoff(s, c, humanReplied, outcome);
    case RejectEvent(c) => RejectOneHandoff(s, c);
    case UpdateEvent(h, action) => UpdateOneHandoff(s, h, action);
    case HandoffEvent => TotalAppend(IsUnresolved(), s.handoffs, Handoff(None, Open));
    case CallbackEvent => TotalAppend(IsUnresolved(), s.handoffs, Handoff(None, Open));
    case _ =>
  }

  ghost predicate AlwaysOneHandoff(log: seq<Event>) {
    log == [] || (AlwaysOneHandoff(log[..|log| - 1]) && UnresolvedHandoffs(After(log)) <= 1)
  }

  ghost predicate AlwaysQuiet(log: seq<Event>) {
    log == [] || (AlwaysQuiet(log[..|log| - 1]) && Quiet(After(log[..|log| - 1]), log[|log| - 1]))
  }

  /** All along a run of the protocol at most one handoff is unresolved exactly when no callback comes while one is. */
  lemma {:induction false} OneHandoffIff(log: seq<Event>)
    ensures AlwaysOneHandoff(log) <==> AlwaysQuiet(log)
    ensures AlwaysQuiet(log) ==> UnresolvedHandoffs(After(log)) <= 1
  {
    if log != [] {
      OneHandoffIff(log[..|log| - 1]);
      if AlwaysQuiet(log[..|log| - 1]) { StepOneHandoffIff(After(log[..|log| - 1]), log[|log| - 1]); }
    }
  }

  /** In any run of the protocol no AI run has both opened a handoff and sent an autopilot reply, in whatever order. */
  lemma NoReplyByHandedOffRun(log: seq<Event>, i: nat, j: nat)
    requires i < |After(log).handoffs| && j < |After(log).replies| && After(log).replies[j].auto
    ensures After(log).handoffs[i].run != Some(After(log).replies[j].run)
  {
    var s, q := After(log), After(log).replies[j].run;
    AlwaysOrderly(log);
    assert RunOrderly(s, q);
    TotalBoundsEach(OpenedBy(q), s.handoffs, i);
    TotalBoundsEach(PilotedBy(q), s.replies, j);
  }

  /** In any run of the protocol an AI run sends at most one autopilot reply. */
  lemma OneReplyPerRun(log: seq<Event>, q: nat)
    ensures Piloted(After(log), q) <= 1
  {
    AlwaysOrderly(log);
    assert RunOrderly(After(log), q);
  }

  // ----- tools run once -----

  /** What has succeeded stays as it is. */
  ghost predicate KeepsSucceeded(s: Conversation, t: Conversation) {
    && |s.calls| <= |t.calls|
    && forall i :: 0 <= i < |s.calls| && s.calls[i].status.Succeeded? ==> t.calls[i] == s.calls[i]
  }

  lemma RunCallKeeps(env: Setting, s: Conversation, r: nat, p: Proposal, pending: bool)
    ensures KeepsSucceeded(s, RunCall(env, s, r, p, pending).after)
  {
    var t := Recorded(s, r, p, Proposed);
    var c := FindCall(t.calls, r, p.callId);
    if c.Some? { assert KeepsSucceeded(t, Execute(t, c.value, p.outcome).0); }
  }

  lemma {:induction false} RunCallsKeep(env: Setting, s: Conversation, r: nat, calls: seq<Proposal>, pending: bool)
    ensures KeepsSucceeded(s, RunCalls(env, s, r, calls, pending).after)
    decreases |calls|
  {
    if calls != [] {
      var first := RunCall(env, s, r, calls[0], pending);
      RunCallKeeps(env, s, r, calls[0], pending);
      if first.flow.Through? { RunCallsKeep(env, first.after, r, calls[1..], first.flow.pending); }
    }
  }

  lemma CaughtKeeps(env: Setting, s: Conversation, r: nat, stop: Stop)
    ensures Caught(env, s, r, stop).calls == s.calls
  {
  }

  lemma {:induction false} GenerateKeeps(env: Setting, provider: nat -> Generation, s: Conversation, r: nat, n: nat, rounds: nat)
    ensures KeepsSucceeded(s, Generate(env, provider, s, r, n, rounds).after)
    decreases RoundsLeft(env, rounds)
  {
    var answer := provider(n);
    if r < |s.runs| && answer.Generated? && answer.calls != [] && rounds < env.maxRounds && |answer.calls| <= env.maxCalls {
      var pass := RunCalls(env, s, r, answer.calls, false);
      RunCallsKeep(env, s, r, answer.calls, false);
      match pass.flow
      case Stopped =>
      case Raised(stop) => CaughtKeeps(env, pass.after, r, stop);
      case Through(pending) =>
        if !pending { GenerateKeeps(env, provider, WithRounds(pass.after, r, rounds + 1), r, n + 1, rounds + 1); }
    } else {
      CaughtKeeps(env, s, r, ProviderDown);
    }
  }

  lemma ProcessKeeps(env: Setting, provider: nat -> Generation, s: Conversation, r: nat)
    ensures KeepsSucceeded(s, ProcessRun(env, provider, s, r).after)
  {
    if r < |s.runs| {
      var t := WithStatus(s, r, Running);
      GenerateKeeps(env, provider, t, r, 0, t.runs[r].rounds);
      if env.obstacle.Some? { CaughtKeeps(env, t, r, env.obstacle.value); }
    }
  }

  lemma StepKeeps(s: Conversation, x: Event)
    ensures KeepsSucceeded(s, Step(s, x))
  {
    if x.ProcessEvent? { ProcessKeeps(x.env, x.provider, s, x.run); }
  }

  /** Nothing that can happen reopens a tool call that has succeeded; and executing it again returns without any effect. */
  lemma SucceededCallIsFinal(s: Conversation, x: Event, c: nat, outcome: Outcome)
    requires c < |s.calls| && s.calls[c].status.Succeeded?
    ensures c < |Step(s, x).calls| && Step(s, x).calls[c] == s.calls[c]
    ensures Execute(Step(s, x), c, outcome) == (Step(s, x), None)
  {
    StepKeeps(s, x);
  }
}
