/** The other entry points of the AI runtime, said of the rows alone: whom they accept, what they change, and what they leave. */
module AiEntries {
  import opened Totals
  import opened AiRuns
  import opened AiSafety
  import opened AiEndings

  // ----- queueing -----

  predicate SomeRunActive(s: Conversation) { exists i :: 0 <= i < |s.runs| && s.runs[i].status in {Queued, Running, Waiting} }

  predicate SomeDraftPending(s: Conversation) { exists i :: 0 <= i < |s.drafts| && s.drafts[i].status == Pending }

  predicate TaskKnown(s: Conversation, key: string) { exists i :: 0 <= i < |s.runs| && s.runs[i].key == key }

  lemma WorkIs(s: Conversation, key: string)
    ensures SomeRunActive(s) <==> 0 < ActiveRuns(s)
    ensures SomeDraftPending(s) <==> 0 < PendingDrafts(s)
    ensures SomeHandoffOpen(s) <==> 0 < UnresolvedHandoffs(s)
    ensures TaskKnown(s, key) <==> FindRun(s.runs, key).Some?
  {
    SomeCounts(IsActive(), s.runs);
    SomeCounts(IsPending(), s.drafts);
    SomeCounts(IsUnresolved(), s.handoffs);
    FindSpec(HasTaskKey(key), s.runs);
  }

  /** A task is accepted while the AI is on and no person is waited for: under a known key, or when nothing else is under way. */
  lemma QueuedIff(s: Conversation, key: string, requested: Option<AiState>, refusal: Option<string>, demoted: bool, late: Option<string>)
    ensures QueueRun(s, key, requested, refusal, demoted, late).1.Ok? <==>
      && refusal == None && (if requested.Some? then requested.value else s.state) in {Suggesting, Piloting}
      && !SomeHandoffOpen(s)
      && (TaskKnown(s, key) || (!SomeRunActive(s) && !SomeDraftPending(s) && late == None))
  {
    WorkIs(s, key);
  }

  /** Accepted under a new key there is one more run, queued, on autopilot exactly when that was selected and not ruled out. */
  lemma QueuedRunIs(s: Conversation, key: string, requested: Option<AiState>, refusal: Option<string>, demoted: bool, late: Option<string>)
    ensures var (t, r) := QueueRun(s, key, requested, refusal, demoted, late);
      if r.Ok? && !TaskKnown(s, key) then
        && r.value == |s.runs| && t == s.(runs := t.runs) && |t.runs| == |s.runs| + 1 && s.runs <= t.runs
        && t.runs[|s.runs|].status == Queued && t.runs[|s.runs|].rounds == 0 && t.runs[|s.runs|].key == key
        && (t.runs[|s.runs|].mode == Autopilot <==> (if requested.Some? then requested.value else s.state) == Piloting && !demoted)
      else t == s && (r.Ok? ==> r.value < |s.runs| && s.runs[r.value].key == key)
  {
    WorkIs(s, key);
  }

  // ----- drafts -----

  /** A pending draft is acted on unless a person has replied; sending it takes a valid body and a channel that takes it. */
  lemma DraftActedOnIff(s: Conversation, d: nat, action: DraftAction, humanReplied: bool, validBody: bool, sending: Sending)
    ensures ActOnDraft(s, d, action, humanReplied, validBody, sending).1.Ok? <==>
      && d < |s.drafts| && s.drafts[d].status == Pending && !humanReplied
      && (action == RejectDraft || (validBody && sending in {Sends, Fails}))
    ensures ActOnDraft(s, d, action, humanReplied, validBody, sending).1.Err? ==> ActOnDraft(s, d, action, humanReplied, validBody, sending).0 == s
  {
  }

  /** Rejected it is refused; approved or edited it is marked so and one message is sent for its run. */
  lemma DraftActedOn(s: Conversation, d: nat, action: DraftAction, humanReplied: bool, validBody: bool, sending: Sending)
    requires ActOnDraft(s, d, action, humanReplied, validBody, sending).1.Ok?
    ensures d < |s.drafts|
    ensures var t := ActOnDraft(s, d, action, humanReplied, validBody, sending).0;
      && t == s.(drafts := s.drafts[d := t.drafts[d]], replies := t.replies) && t.drafts[d].run == s.drafts[d].run
      && t.drafts[d].status == (match action case Approve => Sent case Edit => Edited case RejectDraft => Refused)
      && t.replies == if action == RejectDraft then s.replies else s.replies + [Reply(s.drafts[d].run, false, sending == Fails)]
  {
  }

  // ----- handoffs -----

  /** A person is asked on behalf of run r: a handoff is opened unless one is open already, and a run not yet over is handed off. */
  predicate PersonAsked(s: Conversation, t: Conversation, r: nat)
    requires r < |s.runs|
  {
    if SomeHandoffOpen(s) then
      t == s.(calls := t.calls, runs := s.runs[r := s.runs[r].(status := if s.runs[r].status == Completed then Completed else HandedOff)])
    else
      t == s.(calls := t.calls, runs := s.runs[r := s.runs[r].(status := HandedOff)],
              handoffs := s.handoffs + [Handoff(Some(r), HandoffStatus.Open)], state := HandoffRequired)
  }

  lemma CreateHandoffAsks(s: Conversation, r: nat)
    requires r < |s.runs|
    ensures PersonAsked(s, CreateHandoff(s, Some(r), s.runs[r].status), r)
    ensures CreateHandoff(s, Some(r), s.runs[r].status).calls == s.calls
  {
    WorkIs(s, "");
    var t := CreateHandoff(s, Some(r), s.runs[r].status);
    if SomeHandoffOpen(s) && s.runs[r].status in {HandedOff, Completed} { assert s.runs == s.runs[r := s.runs[r]]; }
  }

  /** A handoff changes exactly by being acknowledged while open or resolved while not resolved. */
  lemma HandoffChangesIff(s: Conversation, x: Event, h: nat, to: HandoffStatus)
    requires h < |s.handoffs|
    ensures h < |Step(s, x).handoffs| && Step(s, x).handoffs[h].run == s.handoffs[h].run
    ensures (Step(s, x).handoffs[h].status == to && to != s.handoffs[h].status) <==>
      (|| (x == UpdateEvent(h, Acknowledge) && s.handoffs[h].status == HandoffStatus.Open && to == Acknowledged)
       || (x == UpdateEvent(h, Resolve) && s.handoffs[h].status != Resolved && to == Resolved))
  {
    match x
    case ProcessEvent(r, env, provider) =>
      if r < |s.runs| && (s.runs[r].status.Queued? || s.runs[r].status.Running?) { ProcessFinishes(env, provider, s, r); }
    case ApproveEvent(c, humanReplied, outcome) => if Step(s, x) != s { ApproveDecides(s, c, humanReplied, outcome); }
    case RejectEvent(c) => if Step(s, x) != s { CreateHandoffAsks(s.(calls := s.calls[c := s.calls[c].(status := Rejected)]), s.calls[c].run); }
    case UpdateEvent(i, action) =>
    case _ =>
  }

  /** An update is accepted exactly when it changes the status of a handoff that is there, or assigns it. */
  lemma UpdateAcceptedIff(s: Conversation, h: nat, action: HandoffAction)
    ensures var (t, r) := UpdateHandoff(s, h, action);
      && (r.Ok? <==> h < |s.handoffs| && (action == Assign || (h < |t.handoffs| && t.handoffs[h].status != s.handoffs[h].status)))
      && (r.Err? ==> t == s)
  {
  }

  /** A customer's request opens a handoff of no run, unless one is open already; a voice callback opens one in any case. */
  lemma CustomerAsks(s: Conversation)
    ensures Step(s, HandoffEvent) ==
      if SomeHandoffOpen(s) then s else s.(handoffs := s.handoffs + [Handoff(None, HandoffStatus.Open)], state := HandoffRequired)
    ensures Step(s, CallbackEvent) == s.(handoffs := s.handoffs + [Handoff(None, HandoffStatus.Open)])
  {
    WorkIs(s, "");
  }

  // ----- approval -----

  /** The call is there with its run, and waits for a decision. */
  predicate ToDecide(s: Conversation, c: nat) { c < |s.calls| && s.calls[c].run < |s.runs| && s.calls[c].status == Awaiting }

  /** A call is rejected exactly while it waits; it is marked so, and a person is asked on behalf of its run. */
  lemma RejectedIff(s: Conversation, c: nat)
    ensures RejectCall(s, c).1.Ok? <==> ToDecide(s, c)
    ensures !ToDecide(s, c) ==> RejectCall(s, c).0 == s
    ensures ToDecide(s, c) ==>
      && RejectCall(s, c).0.calls == s.calls[c := s.calls[c].(status := Rejected)]
      && PersonAsked(s, RejectCall(s, c).0, s.calls[c].run)
  {
    if ToDecide(s, c) { CreateHandoffAsks(s.(calls := s.calls[c := s.calls[c].(status := Rejected)]), s.calls[c].run); }
  }

  /** It is approved exactly while it waits, no person has replied, and its handler does not crash. */
  lemma ApprovedIff(s: Conversation, c: nat, humanReplied: bool, outcome: Outcome)
    ensures ApproveCall(s, c, humanReplied, outcome).1.Ok? <==>
      (ToDecide(s, c) && !humanReplied && (s.calls[c].tool.Unknown? || outcome != Crashed))
    ensures ApproveCall(s, c, humanReplied, outcome).1.Err? ==> ApproveCall(s, c, humanReplied, outcome).0 == s
  {
  }

  /** An approved call whose handler refuses has failed, and a person is asked. */
  lemma ApprovedAndRefused(s: Conversation, c: nat, outcome: Outcome)
    requires ToDecide(s, c) && (s.calls[c].tool.Unknown? || outcome == ToolRefused)
    ensures ApproveCall(s, c, false, outcome).1 == Ok(false)
    ensures ApproveCall(s, c, false, outcome).0.calls == s.calls[c := s.calls[c].(status := CallFailed)]
    ensures PersonAsked(s, ApproveCall(s, c, false, outcome).0, s.calls[c].run)
  {
    var t := s.(calls := s.calls[c := s.calls[c].(status := CallFailed)]);
    assert s.calls[c := s.calls[c].(status := CallStatus.Approved)][c := s.calls[c].(status := CallFailed)] == t.calls;
    CreateHandoffAsks(t, s.calls[c].run);
  }

  /** Some other call of the run waits too. */
  predicate AnotherAwaits(s: Conversation, c: nat)
    requires c < |s.calls|
  {
    exists i :: 0 <= i < |s.calls| && i != c && s.calls[i].run == s.calls[c].run && s.calls[i].status == Awaiting
  }

  /** One whose handler finishes has succeeded; a waiting run with no other call to decide is completed with a draft. */
  lemma ApprovedAndDone(s: Conversation, c: nat)
    requires ToDecide(s, c) && s.calls[c].tool.Governed?
    ensures ApproveCall(s, c, false, Done).1 == Ok(true)
    ensures var t, r := ApproveCall(s, c, false, Done).0, s.calls[c].run;
      && t.calls == s.calls[c := s.calls[c].(status := Succeeded)] && t.handoffs == s.handoffs && t.replies == s.replies && t.state == s.state
      && (s.runs[r].status == Waiting && !AnotherAwaits(s, c) ==>
           && t.runs == s.runs[r := s.runs[r].(status := Completed)]
           && t.drafts == if HasDraft(s, r) then s.drafts else s.drafts + [Draft(r, Pending)])
      && (s.runs[r].status != Waiting || AnotherAwaits(s, c) ==> t.runs == s.runs && t.drafts == s.drafts)
  {
    var r := s.calls[c].run;
    var t := s.(calls := s.calls[c := s.calls[c].(status := Succeeded)]);
    assert s.calls[c := s.calls[c].(status := CallStatus.Approved)][c := s.calls[c].(status := Succeeded)] == t.calls;
    CountsAre(t, r);
    CountsAre(s, r);
    if AnotherAwaits(s, c) {
      var i :| 0 <= i < |s.calls| && i != c && s.calls[i].run == r && s.calls[i].status == Awaiting;
      assert t.calls[i] == s.calls[i];
    } else {
      assert !SomeCallAwaits(t, r);
    }
  }

  // ----- supersession and the state -----

  /** Supersession closes what is under way: active runs, pending drafts, and their calls not yet decided; nothing else. */
  lemma SupersededRows(s: Conversation, i: nat)
    ensures var t := Supersede(s);
      && |t.runs| == |s.runs| && |t.drafts| == |s.drafts| && |t.calls| == |s.calls|
      && t.handoffs == s.handoffs && t.replies == s.replies && t.state == s.state
      && (i < |s.runs| ==> t.runs[i] == if s.runs[i].status in {Queued, Running, Waiting} then s.runs[i].(status := Superseded) else s.runs[i])
      && (i < |s.drafts| ==> t.drafts[i] == if s.drafts[i].status == Pending then s.drafts[i].(status := Outdated) else s.drafts[i])
      && (i < |s.calls| ==>
           var r := s.calls[i].run;
           t.calls[i] == if r < |s.runs| && s.runs[r].status in {Queued, Running, Waiting} && s.calls[i].status in {Proposed, Awaiting}
                         then s.calls[i].(status := Cancelled) else s.calls[i])
  {
  }

  /** Turning the AI off supersedes what is under way; setting any other state does not. */
  lemma StateSetIff(s: Conversation, to: AiState, refusal: Option<string>)
    ensures SetState(s, to, refusal).1.Ok? <==> to in {Off, Suggesting, Piloting} && refusal == None
    ensures SetState(s, to, refusal).1.Err? ==> SetState(s, to, refusal).0 == s
    ensures SetState(s, to, refusal).1.Ok? ==> SetState(s, to, refusal).0 == (if to == Off then Supersede(s) else s).(state := to)
  {
  }

  /** The AI's state after any event: what was set, what a person or channel set, or waiting for a person when a run or customer has asked. */
  lemma StateAfter(s: Conversation, x: Event)
    ensures Step(s, x).state ==
      if x.StateEvent? && x.refusal == None && x.state in {Off, Suggesting, Piloting} then x.state
      else if x == SupersedeEvent(true) || x == ChannelEvent(true) then PausedByHuman
      else if x == ChannelEvent(false) then Off
      else if x != CallbackEvent && |s.handoffs| < |Step(s, x).handoffs| then HandoffRequired
      else s.state
  {
    match x
    case ProcessEvent(r, env, provider) => ProcessState(env, provider, s, r);
    case ApproveEvent(c, humanReplied, outcome) =>
    case _ =>
  }

  /** The state moves with the handoffs. */
  predicate StateFollows(s: Conversation, t: Conversation) {
    |s.handoffs| <= |t.handoffs| && t.state == if |s.handoffs| < |t.handoffs| then HandoffRequired else s.state
  }

  lemma RunCallState(env: Setting, s: Conversation, r: nat, p: Proposal, pending: bool)
    ensures StateFollows(s, RunCall(env, s, r, p, pending).after)
  {
  }

  lemma {:induction false} RunCallsState(env: Setting, s: Conversation, r: nat, calls: seq<Proposal>, pending: bool)
    ensures StateFollows(s, RunCalls(env, s, r, calls, pending).after)
    decreases |calls|
  {
    if calls != [] {
      var first := RunCall(env, s, r, calls[0], pending);
      RunCallState(env, s, r, calls[0], pending);
      if first.flow.Through? { RunCallsState(env, first.after, r, calls[1..], first.flow.pending); }
    }
  }

  lemma LastAnswerState(env: Setting, provider: nat -> Generation, s: Conversation, r: nat, n: nat, rounds: nat)
    requires !AsksAgain(env, provider, s, r, n, rounds)
    ensures StateFollows(s, Generate(env, provider, s, r, n, rounds).after)
  {
    if provider(n).Generated? { RunCallsState(env, s, r, provider(n).calls, false); }
  }

  lemma {:induction false} GenerateState(env: Setting, provider: nat -> Generation, s: Conversation, r: nat, n: nat, rounds: nat)
    requires r < |s.runs|
    ensures StateFollows(s, Generate(env, provider, s, r, n, rounds).after)
    decreases RoundsLeft(env, rounds)
  {
    if AsksAgain(env, provider, s, r, n, rounds) {
      var pass := RunCalls(env, s, r, provider(n).calls, false);
      RunCallsWithin(env, s, r, provider(n).calls, false);
      RunCallsState(env, s, r, provider(n).calls, false);
      AskedAgain(env, provider, s, r, n, rounds, pass);
      GenerateState(env, provider, WithRounds(pass.after, r, rounds + 1), r, n + 1, rounds + 1);
    } else {
      LastAnswerState(env, provider, s, r, n, rounds);
    }
  }

  lemma ProcessState(env: Setting, provider: nat -> Generation, s: Conversation, r: nat)
    ensures StateFollows(s, ProcessRun(env, provider, s, r).after)
  {
    if r < |s.runs| {
      var t := WithStatus(s, r, Running);
      GenerateState(env, provider, t, r, 0, t.runs[r].rounds);
    }
  }
}
