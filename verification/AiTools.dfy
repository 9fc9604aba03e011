/** Which tools the AI may run, by the organization's policy alone: what each proposal leads to, and why a call has succeeded. */
module AiTools {
  import opened Totals
  import opened AiRuns
  import opened AiSafety
  import opened AiFreshCalls
  import opened AiEndings

  // ----- one proposal -----

  /** Nothing the policy lets the AI do: an unknown tool, arguments that do not validate, or a tool not switched on. */
  predicate Forbidden(env: Setting, p: Proposal) {
    || !p.valid || p.tool.Unknown?
    || (p.tool.Governed? && (p.tool.name in env.modes ==> env.modes[p.tool.name] == Disabled))
  }

  /** A person has to approve it first. */
  predicate ToApprove(env: Setting, p: Proposal) {
    p.valid && p.tool.Governed? && p.tool.name in env.modes && env.modes[p.tool.name] == RequireApproval
  }

  /** The AI may run it by itself: a handoff, or a tool on automatic. */
  predicate Automatic(env: Setting, p: Proposal) {
    && p.valid
    && (p.tool == HumanHandoff || p.tool == BookingHandoff
        || (p.tool.Governed? && p.tool.name in env.modes && env.modes[p.tool.name] == ToolMode.Automatic))
  }

  /** It changes something, so that an actor has to answer for it. */
  predicate NeedsActor(p: Proposal) { p.tool == HumanHandoff || p.tool == BookingHandoff || (p.tool.Governed? && p.tool.mutating) }

  predicate Stored(s: Conversation, r: nat, callId: string) {
    exists i :: 0 <= i < |s.calls| && s.calls[i].run == r && s.calls[i].callId == callId
  }

  lemma StoredIs(s: Conversation, r: nat, callId: string)
    ensures Stored(s, r, callId) <==> FindCall(s.calls, r, callId).Some?
  {
    FindSpec(HasCallId(r, callId), s.calls);
  }

  /** Under a new id the call is stored with the status, and nothing else happens to the calls. */
  predicate OnlyStores(s: Conversation, t: Conversation, r: nat, p: Proposal, status: CallStatus) {
    t.calls == if Stored(s, r, p.callId) then s.calls else s.calls + [Call(r, p.callId, p.tool, status)]
  }

  /** A forbidden proposal is stored as rejected and ends processing with a person asked; one to approve is stored and left. */
  lemma ProposalNotRun(env: Setting, s: Conversation, r: nat, p: Proposal, pending: bool)
    requires r < |s.runs|
    ensures var pass := RunCall(env, s, r, p, pending);
      Forbidden(env, p) ==>
        pass.flow == Stopped && pass.executions == 0 && OnlyStores(s, pass.after, r, p, Rejected) && AskedForPerson(pass.after, r)
    ensures var pass := RunCall(env, s, r, p, pending);
      ToApprove(env, p) ==>
        && pass.flow == Through(true) && pass.executions == 0
        && OnlyStores(s, pass.after, r, p, Awaiting) && pass.after.runs == s.runs && pass.after.handoffs == s.handoffs
    ensures var pass := RunCall(env, s, r, p, pending);
      Automatic(env, p) && NeedsActor(p) && !env.hasActor ==>
        && pass.flow == Raised(ToolError) && pass.executions == 0
        && OnlyStores(s, pass.after, r, p, Proposed) && pass.after.runs == s.runs && pass.after.handoffs == s.handoffs
    ensures Forbidden(env, p) || ToApprove(env, p) || Automatic(env, p)
  {
    StoredIs(s, r, p.callId);
    AskingTakesEffect(Recorded(s, r, p, Rejected), r);
  }

  /** An automatic one under a new id is run once, and what its handler does decides; a handoff asks for a person. */
  lemma ProposalRun(env: Setting, s: Conversation, r: nat, p: Proposal, pending: bool)
    requires r < |s.runs| && Automatic(env, p) && (NeedsActor(p) ==> env.hasActor) && !Stored(s, r, p.callId)
    requires s.runs[r].status == Running
    ensures var pass := RunCall(env, s, r, p, pending);
      && pass.executions == 1
      && (p.outcome == Done ==> pass.flow == if p.tool == HumanHandoff then Stopped else Through(pending))
      && (p.outcome == ToolRefused ==> pass.flow == Raised(ToolError))
      && (p.outcome == Crashed ==> pass.flow == Raised(Other))
      && OnlyStores(s, pass.after, r, p, if p.outcome == Done then Succeeded else Proposed)
      && (p.outcome == Done && !p.tool.Governed? ==> AskedForPerson(pass.after, r))
      && (p.outcome != Done || p.tool.Governed? ==> pass.after.runs == s.runs && pass.after.handoffs == s.handoffs)
  {
    StoredIs(s, r, p.callId);
    RecordedIds(s, r, p, Proposed, p.callId);
    AskingTakesEffect(Recorded(s, r, p, Proposed), r);
  }

  /** Call i is the one of the run under the id. */
  predicate TheCall(s: Conversation, r: nat, callId: string, i: nat) {
    && i < |s.calls| && s.calls[i].run == r && s.calls[i].callId == callId
    && forall j :: 0 <= j < |s.calls| && s.calls[j].run == r && s.calls[j].callId == callId ==> j == i
  }

  /**
    Under an id that is stored, it is the stored call that runs: not again once it has succeeded, nor while it executes, and
    otherwise as its own tool says.
    */
  lemma ProposalOfStoredCall(env: Setting, s: Conversation, r: nat, p: Proposal, pending: bool, i: nat)
    requires r < |s.runs| && Automatic(env, p) && (NeedsActor(p) ==> env.hasActor) && TheCall(s, r, p.callId, i)
    requires s.runs[r].status == Running
    ensures var pass, call := RunCall(env, s, r, p, pending), s.calls[i];
      if call.status == Succeeded then pass.after == s && pass.flow == if p.tool == HumanHandoff then Stopped else Through(pending)
      else if call.status == Executing || call.tool.Unknown? || p.outcome == ToolRefused then pass.after == s && pass.flow == Raised(ToolError)
      else if p.outcome == Crashed then pass.after == s && pass.flow == Raised(Other)
      else
        && pass.after.calls == s.calls[i := call.(status := Succeeded)]
        && pass.flow == (if p.tool == HumanHandoff then Stopped else Through(pending))
        && if call.tool.Governed? then pass.after == s.(calls := pass.after.calls) else AskedForPerson(pass.after, r)
  {
    StoredIs(s, r, p.callId);
    FindSpec(HasCallId(r, p.callId), s.calls);
    assert FindCall(s.calls, r, p.callId) == Some(i);
    AskingTakesEffect(s, r);
  }

  /** The proposals are dealt with in order: a list in two parts is the first part, and the second if the first goes through. */
  lemma {:induction false} LoopInOrder(env: Setting, s: Conversation, r: nat, a: seq<Proposal>, b: seq<Proposal>, pending: bool)
    ensures var first := RunCalls(env, s, r, a, pending);
      RunCalls(env, s, r, a + b, pending) ==
        if !first.flow.Through? then first
        else var rest := RunCalls(env, first.after, r, b, first.flow.pending); rest.(executions := first.executions + rest.executions)
    decreases |a|
  {
    if a == [] {
      assert a + b == b;
    } else {
      assert (a + b)[0] == a[0] && (a + b)[1..] == a[1..] + b;
      var first := RunCall(env, s, r, a[0], pending);
      if first.flow.Through? { LoopInOrder(env, first.after, r, a[1..], b, first.flow.pending); }
    }
  }

  lemma LoopOfOne(env: Setting, s: Conversation, r: nat, p: Proposal, pending: bool)
    ensures RunCalls(env, s, r, [p], pending) == RunCall(env, s, r, p, pending)
  {
    assert [p][1..] == [];
  }

  // ----- why a call has succeeded -----

  /** The AI was allowed to run the proposal by itself, and its handler finished. */
  predicate Licensed(env: Setting, p: Proposal) { Automatic(env, p) && (NeedsActor(p) ==> env.hasActor) && p.outcome == Done }

  /** Call i has succeeded on the way from s to t. */
  predicate NewlySucceeded(s: Conversation, t: Conversation, i: nat) {
    i < |t.calls| && t.calls[i].status == Succeeded && !(i < |s.calls| && s.calls[i].status == Succeeded)
  }

  lemma ExecutedAlone(s: Conversation, c: nat, outcome: Outcome, i: nat)
    requires c < |s.calls| && NewlySucceeded(s, Execute(s, c, outcome).0, i)
    ensures i == c && outcome == Done && Execute(s, c, outcome).0.calls[i] == s.calls[i].(status := Succeeded)
  {
  }

  lemma RecordedSucceedsNone(s: Conversation, r: nat, p: Proposal, status: CallStatus, i: nat)
    requires status != Succeeded
    ensures !NewlySucceeded(s, Recorded(s, r, p, status), i)
  {
  }

  lemma RunCallLicensed(env: Setting, s: Conversation, r: nat, p: Proposal, pending: bool, i: nat)
    requires NewlySucceeded(s, RunCall(env, s, r, p, pending).after, i)
    ensures RunCall(env, s, r, p, pending).after.calls[i].run == r && RunCall(env, s, r, p, pending).after.calls[i].callId == p.callId
    ensures Licensed(env, p)
  {
    if p.tool.Unknown? || !p.valid || ModeOf(env, p.tool).Disabled? {
      RecordedSucceedsNone(s, r, p, Rejected, i);
    } else if ModeOf(env, p.tool).RequireApproval? {
      RecordedSucceedsNone(s, r, p, Awaiting, i);
    } else {
      RecordedSucceedsNone(s, r, p, Proposed, i);
      var t := Recorded(s, r, p, Proposed);
      var c := FindCall(t.calls, r, p.callId);
      if c.Some? && !(Mutates(p.tool) && !env.hasActor) { ExecutedAlone(t, c.value, p.outcome, i); }
    }
  }

  lemma {:induction false} LoopLicensed(env: Setting, s: Conversation, r: nat, calls: seq<Proposal>, pending: bool, i: nat)
    returns (j: nat)
    requires NewlySucceeded(s, RunCalls(env, s, r, calls, pending).after, i)
    ensures j < |calls| && Licensed(env, calls[j]) && RunCalls(env, s, r, calls, pending).after.calls[i].run == r
    ensures RunCalls(env, s, r, calls, pending).after.calls[i].callId == calls[j].callId
    decreases |calls|
  {
    var first := RunCall(env, s, r, calls[0], pending);
    if NewlySucceeded(s, first.after, i) {
      RunCallLicensed(env, s, r, calls[0], pending, i);
      if first.flow.Through? { RunCallsKeep(env, first.after, r, calls[1..], first.flow.pending); }
      j := 0;
    } else {
      j := LoopLicensed(env, first.after, r, calls[1..], first.flow.pending, i);
      j := j + 1;
    }
  }

  /** After a last answer the calls are those the loop left, or those of before. */
  lemma LastAnswerCalls(env: Setting, provider: nat -> Generation, s: Conversation, r: nat, n: nat, rounds: nat)
    requires !AsksAgain(env, provider, s, r, n, rounds)
    ensures var t := Generate(env, provider, s, r, n, rounds).after;
      t.calls == s.calls || (provider(n).Generated? && t.calls == RunCalls(env, s, r, provider(n).calls, false).after.calls)
  {
    CaughtKeeps(env, s, r, ProviderDown);
    if provider(n).Generated? {
      var pass := RunCalls(env, s, r, provider(n).calls, false);
      if pass.flow.Raised? { CaughtKeeps(env, pass.after, r, pass.flow.stop); }
    }
  }

  /** The call answers a licensed proposal of the provider's. */
  ghost predicate Answers(env: Setting, provider: nat -> Generation, r: nat, call: Call) {
    call.run == r &&
    exists m: nat, j: nat :: j < |Calls(provider, m)| && Licensed(env, Calls(provider, m)[j]) && call.callId == Calls(provider, m)[j].callId
  }

  lemma LoopAnswers(env: Setting, provider: nat -> Generation, s: Conversation, r: nat, n: nat, i: nat)
    requires provider(n).Generated? && NewlySucceeded(s, RunCalls(env, s, r, provider(n).calls, false).after, i)
    ensures Answers(env, provider, r, RunCalls(env, s, r, provider(n).calls, false).after.calls[i])
  {
    var j := LoopLicensed(env, s, r, provider(n).calls, false, i);
    assert Calls(provider, n)[j] == provider(n).calls[j];
  }

  lemma LastAnswerAnswers(env: Setting, provider: nat -> Generation, s: Conversation, r: nat, n: nat, rounds: nat, i: nat)
    requires !AsksAgain(env, provider, s, r, n, rounds) && NewlySucceeded(s, Generate(env, provider, s, r, n, rounds).after, i)
    ensures Answers(env, provider, r, Generate(env, provider, s, r, n, rounds).after.calls[i])
  {
    LastAnswerCalls(env, provider, s, r, n, rounds);
    LoopAnswers(env, provider, s, r, n, i);
  }

  /** A call that is new in the whole is new in the round or in the rest. */
  lemma RoundThenRest(env: Setting, provider: nat -> Generation, s: Conversation, pass: Pass, rest: Conversation, r: nat, n: nat, i: nat)
    requires provider(n).Generated? && pass == RunCalls(env, s, r, provider(n).calls, false) && KeepsSucceeded(pass.after, rest)
    requires NewlySucceeded(pass.after, rest, i) ==> Answers(env, provider, r, rest.calls[i])
    requires NewlySucceeded(s, rest, i)
    ensures Answers(env, provider, r, rest.calls[i])
  {
    if NewlySucceeded(s, pass.after, i) { LoopAnswers(env, provider, s, r, n, i); }
  }

  lemma {:induction false} GenerateLicensed(env: Setting, provider: nat -> Generation, s: Conversation, r: nat, n: nat, rounds: nat, i: nat)
    requires r < |s.runs|
    ensures NewlySucceeded(s, Generate(env, provider, s, r, n, rounds).after, i) ==>
      Answers(env, provider, r, Generate(env, provider, s, r, n, rounds).after.calls[i])
    decreases RoundsLeft(env, rounds)
  {
    if NewlySucceeded(s, Generate(env, provider, s, r, n, rounds).after, i) {
      if AsksAgain(env, provider, s, r, n, rounds) {
        var pass := RunCalls(env, s, r, provider(n).calls, false);
        var t := WithRounds(pass.after, r, rounds + 1);
        var rest := Generate(env, provider, t, r, n + 1, rounds + 1).after;
        RunCallsWithin(env, s, r, provider(n).calls, false);
        GenerateLicensed(env, provider, t, r, n + 1, rounds + 1, i);
        GenerateKeeps(env, provider, t, r, n + 1, rounds + 1);
        AskedAgain(env, provider, s, r, n, rounds, pass);
        RoundThenRest(env, provider, s, pass, rest, r, n, i);
      } else {
        LastAnswerAnswers(env, provider, s, r, n, rounds, i);
      }
    }
  }

  /** A call that has succeeded in processing was proposed, and the AI was allowed to run that proposal by itself. */
  lemma ProcessLicensed(env: Setting, provider: nat -> Generation, s: Conversation, r: nat, i: nat)
    requires NewlySucceeded(s, ProcessRun(env, provider, s, r).after, i)
    ensures Answers(env, provider, r, ProcessRun(env, provider, s, r).after.calls[i])
  {
    var t := WithStatus(s, r, Running);
    if env.obstacle.Some? { CaughtKeeps(env, t, r, env.obstacle.value); }
    GenerateLicensed(env, provider, t, r, 0, t.runs[r].rounds, i);
  }
}
