/** How processing ends, by the provider's last answer: what is sent, what is drafted, and when a person is asked instead. */
module AiEndings {
  import opened Totals
  import opened AiRuns
  import opened AiSafety
  import opened AiFreshCalls

  // ----- the rows, plainly -----

  predicate SomeHandoffOpen(s: Conversation) { exists i :: 0 <= i < |s.handoffs| && s.handoffs[i].status != Resolved }

  predicate SomeCallAwaits(s: Conversation, r: nat) {
    exists i :: 0 <= i < |s.calls| && s.calls[i].run == r && s.calls[i].status == Awaiting
  }

  predicate HasReplied(s: Conversation, r: nat) { exists i :: 0 <= i < |s.replies| && s.replies[i].run == r && s.replies[i].auto }

  predicate HasDraft(s: Conversation, r: nat) { exists i :: 0 <= i < |s.drafts| && s.drafts[i].run == r }

  lemma {:induction false} SomeCounts<T>(weight: T -> nat, rows: seq<T>)
    ensures 0 < Total(weight, rows) <==> exists i :: 0 <= i < |rows| && 0 < weight(rows[i])
  {
    if exists i :: 0 <= i < |rows| && 0 < weight(rows[i]) {
      var i :| 0 <= i < |rows| && 0 < weight(rows[i]);
      TotalBoundsEach(weight, rows, i);
    } else {
      NothingToCount(weight, rows);
    }
  }

  lemma CountsAre(s: Conversation, r: nat)
    ensures SomeHandoffOpen(s) <==> 0 < UnresolvedHandoffs(s)
    ensures SomeCallAwaits(s, r) <==> 0 < AwaitingCalls(s, r)
    ensures HasReplied(s, r) <==> FindReply(s.replies, r).Some?
    ensures HasDraft(s, r) <==> FindDraft(s.drafts, r).Some?
  {
    SomeCounts(IsUnresolved(), s.handoffs);
    SomeCounts(IsAwaiting(r), s.calls);
    FindSpec(AutoReplyOf(r), s.replies);
    FindSpec(DraftOf(r), s.drafts);
  }

  /** The run is an autopilot one, autopilot is on and allowed, and no person and no call is waited for. */
  predicate OnAutopilot(env: Setting, s: Conversation, r: nat) {
    && r < |s.runs| && s.runs[r].mode == Autopilot && s.state == Piloting && env.pilotAllowed && !env.humanReplied
    && !SomeHandoffOpen(s) && !SomeCallAwaits(s, r)
  }

  // ----- the laws -----

  /** The run is handed off to a person who has not dealt with it yet. */
  predicate AskedForPerson(s: Conversation, r: nat) { r < |s.runs| && s.runs[r].status == HandedOff && SomeHandoffOpen(s) }

  predicate IsText(answer: Generation, safe: bool) { answer.Generated? && answer.calls == [] && answer.safe == safe }

  /** No answer, or an unsafe text: nothing is sent or drafted, and a person is asked; on other channels no answer is a failure. */
  predicate UnansweredLaw(env: Setting, s: Conversation, t: Conversation, r: nat, last: Generation) {
    && (IsText(last, false) ==> AskedForPerson(t, r))
    && (last == Unavailable && env.channel == PublicWebChat ==> AskedForPerson(t, r))
    && (last == Unavailable && env.channel != PublicWebChat ==> r < |t.runs| && t.runs[r].status == Failed)
  }

  /** One reply is appended exactly for a safe text of a run on autopilot that has not replied, if the channel takes it. */
  predicate ReplyLaw(env: Setting, s: Conversation, t: Conversation, r: nat, last: Generation) {
    && (t.replies != s.replies <==>
         (IsText(last, true) && OnAutopilot(env, t, r) && !HasReplied(s, r) && (env.sending == Sends || env.sending == Fails)))
    && (t.replies != s.replies ==>
         && t.replies == s.replies + [Reply(r, true, env.sending == Fails)]
         && t.runs[r].status == if env.sending == Fails then Failed else Completed)
  }

  /** Row i is the one autopilot reply of the run. */
  predicate TheReply(replies: seq<Reply>, r: nat, i: nat) {
    && i < |replies| && replies[i].run == r && replies[i].auto
    && forall j :: 0 <= j < |replies| && replies[j].run == r && replies[j].auto ==> j == i
  }

  /** Where a safe text on autopilot sends no reply: the run ends as the reply it sent before did, or fails with the channel. */
  predicate UnsentLaw(env: Setting, s: Conversation, t: Conversation, r: nat, last: Generation) {
    IsText(last, true) && OnAutopilot(env, t, r) ==>
      && (!HasReplied(s, r) && env.sending in {Blocks, Breaks} ==> t.runs[r].status == Failed)
      && forall i :: 0 <= i < |s.replies| && TheReply(s.replies, r, i) ==> t.runs[r].status == if s.replies[i].failed then Failed else Completed
  }

  /** One draft is appended exactly for a safe text of a completed run that is not on autopilot and has no draft. */
  predicate DraftLaw(env: Setting, s: Conversation, t: Conversation, r: nat, last: Generation) {
    && (t.drafts != s.drafts <==>
         (IsText(last, true) && r < |t.runs| && t.runs[r].status == Completed && !OnAutopilot(env, t, r) && !HasDraft(s, r)))
    && (t.drafts != s.drafts ==> t.drafts == s.drafts + [Draft(r, Pending)])
    && (IsText(last, true) && !OnAutopilot(env, t, r) && r < |t.runs| && t.runs[r].status != Completed ==>
         env.sending == Blocks && env.channel == HandingOff && AskedForPerson(t, r))
  }

  /** More calls than allowed, or any after the last tool round: none is executed and a person is asked. */
  predicate LimitLaw(env: Setting, t: Conversation, r: nat, last: Generation, rounds: nat) {
    last.Generated? && last.calls != [] && (env.maxCalls < |last.calls| || env.maxRounds <= rounds) ==> AskedForPerson(t, r)
  }

  predicate EndLaw(env: Setting, s: Conversation, t: Conversation, r: nat, last: Generation, rounds: nat) {
    && UnansweredLaw(env, s, t, r, last) && ReplyLaw(env, s, t, r, last) && UnsentLaw(env, s, t, r, last) && DraftLaw(env, s, t, r, last)
    && LimitLaw(env, t, r, last, rounds)
  }

  lemma AskingTakesEffect(s: Conversation, r: nat)
    requires r < |s.runs|
    ensures AskedForPerson(CreateHandoff(s, Some(r), Running), r)
    ensures CreateHandoff(s, Some(r), Running).replies == s.replies && CreateHandoff(s, Some(r), Running).drafts == s.drafts
  {
    var t := CreateHandoff(s, Some(r), Running);
    CountsAre(s, r);
    if !SomeHandoffOpen(s) { assert t.handoffs[|s.handoffs|].status != Resolved; }
  }

  lemma UnavailableEnds(env: Setting, s: Conversation, r: nat, rounds: nat)
    requires r < |s.runs|
    ensures EndLaw(env, s, Caught(env, s, r, ProviderDown), r, Unavailable, rounds)
  {
    AskingTakesEffect(s, r);
  }

  lemma UnsafeTextEnds(env: Setting, s: Conversation, r: nat, answer: Generation, rounds: nat)
    requires r < |s.runs| && IsText(answer, false)
    ensures EndLaw(env, s, CompleteText(env, s, r, false), r, answer, rounds)
  {
    AskingTakesEffect(s, r);
  }

  lemma SafeTextEnds(env: Setting, s: Conversation, r: nat, answer: Generation, rounds: nat)
    requires r < |s.runs| && IsText(answer, true)
    ensures EndLaw(env, s, CompleteText(env, s, r, true), r, answer, rounds)
  {
    CountsAre(s, r);
    CountsAre(CompleteText(env, s, r, true), r);
    AskingTakesEffect(s, r);
    SentBefore(env, s, r);
  }

  lemma SentBefore(env: Setting, s: Conversation, r: nat)
    requires r < |s.runs|
    ensures forall i :: 0 <= i < |s.replies| && TheReply(s.replies, r, i) ==> SendReply(env, s, r).runs[r].status == if s.replies[i].failed then Failed else Completed
  {
    FindSpec(AutoReplyOf(r), s.replies);
  }

  lemma CallsEnd(env: Setting, s: Conversation, t: Conversation, r: nat, answer: Generation, rounds: nat)
    requires answer.Generated? && answer.calls != [] && t.replies == s.replies && t.drafts == s.drafts
    requires env.maxCalls < |answer.calls| || env.maxRounds <= rounds ==> AskedForPerson(t, r)
    ensures EndLaw(env, s, t, r, answer, rounds)
  {
  }

  /** What happens before the last answer sends and drafts nothing. */
  lemma EndLater(env: Setting, s: Conversation, t: Conversation, u: Conversation, r: nat, last: Generation, rounds: nat)
    requires t.replies == s.replies && t.drafts == s.drafts && EndLaw(env, t, u, r, last, rounds)
    ensures EndLaw(env, s, u, r, last, rounds)
  {
  }

  lemma CaughtSendsNothing(env: Setting, s: Conversation, r: nat, stop: Stop)
    ensures Caught(env, s, r, stop).replies == s.replies && Caught(env, s, r, stop).drafts == s.drafts
  {
  }

  /** A tool round that the loop, an exception or an approval ends. */
  lemma RoundEndsLaw(env: Setting, s: Conversation, pass: Pass, r: nat, answer: Generation, rounds: nat)
    requires answer.Generated? && answer.calls != [] && |answer.calls| <= env.maxCalls && rounds < env.maxRounds && Within(s, pass.after, r)
    ensures pass.flow.Stopped? ==> EndLaw(env, s, pass.after, r, answer, rounds)
    ensures pass.flow.Raised? ==> EndLaw(env, s, Caught(env, pass.after, r, pass.flow.stop), r, answer, rounds)
    ensures pass.flow == Through(true) ==> EndLaw(env, s, WithStatus(WithRounds(pass.after, r, rounds + 1), r, Waiting), r, answer, rounds)
  {
    match pass.flow
    case Stopped => CallsEnd(env, s, pass.after, r, answer, rounds);
    case Raised(stop) =>
      CaughtSendsNothing(env, pass.after, r, stop);
      CallsEnd(env, s, Caught(env, pass.after, r, stop), r, answer, rounds);
    case Through(pending) => CallsEnd(env, s, WithStatus(WithRounds(pass.after, r, rounds + 1), r, Waiting), r, answer, rounds);
  }

  /** An answer that ends processing at once. */
  lemma AnswerEndsLaw(env: Setting, s: Conversation, r: nat, answer: Generation, rounds: nat)
    requires r < |s.runs|
    ensures answer.Unavailable? ==> EndLaw(env, s, Caught(env, s, r, ProviderDown), r, answer, rounds)
    ensures answer.Generated? && answer.calls == [] ==> EndLaw(env, s, CompleteText(env, s, r, answer.safe), r, answer, rounds)
    ensures answer.Generated? && answer.calls != [] ==> EndLaw(env, s, CreateHandoff(s, Some(r), Running), r, answer, rounds)
  {
    if answer.Unavailable? {
      UnavailableEnds(env, s, r, rounds);
    } else if answer.calls != [] {
      AskingTakesEffect(s, r);
      CallsEnd(env, s, CreateHandoff(s, Some(r), Running), r, answer, rounds);
    } else if answer.safe {
      SafeTextEnds(env, s, r, answer, rounds);
    } else {
      UnsafeTextEnds(env, s, r, answer, rounds);
    }
  }

  /** A round after which the provider is asked again. */
  lemma AskedAgain(env: Setting, provider: nat -> Generation, s: Conversation, r: nat, n: nat, rounds: nat, pass: Pass)
    requires r < |s.runs| && provider(n).Generated? && provider(n).calls != [] && |provider(n).calls| <= env.maxCalls && rounds < env.maxRounds
    requires pass == RunCalls(env, s, r, provider(n).calls, false) && pass.flow == Through(false)
    ensures var rest, t := Generate(env, provider, WithRounds(pass.after, r, rounds + 1), r, n + 1, rounds + 1), Generate(env, provider, s, r, n, rounds);
      t.after == rest.after && t.generations == rest.generations + 1
  {
  }

  /** And one after which it is not. */
  lemma AskedNoMore(env: Setting, provider: nat -> Generation, s: Conversation, r: nat, n: nat, rounds: nat, pass: Pass)
    requires r < |s.runs| && provider(n).Generated? && provider(n).calls != [] && |provider(n).calls| <= env.maxCalls && rounds < env.maxRounds
    requires pass == RunCalls(env, s, r, provider(n).calls, false) && pass.flow != Through(false)
    ensures Generate(env, provider, s, r, n, rounds).generations == 1
    ensures EndLaw(env, s, Generate(env, provider, s, r, n, rounds).after, r, provider(n), rounds)
  {
    RunCallsWithin(env, s, r, provider(n).calls, false);
    RoundEndsLaw(env, s, pass, r, provider(n), rounds);
  }

  lemma AnswersAtOnce(env: Setting, provider: nat -> Generation, s: Conversation, r: nat, n: nat, rounds: nat)
    requires r < |s.runs|
    requires provider(n).Unavailable? || provider(n).calls == [] || env.maxRounds <= rounds || env.maxCalls < |provider(n).calls|
    ensures Generate(env, provider, s, r, n, rounds).generations == 1
    ensures EndLaw(env, s, Generate(env, provider, s, r, n, rounds).after, r, provider(n), rounds)
  {
    AnswerEndsLaw(env, s, r, provider(n), rounds);
  }

  lemma OneAnswerEnds(env: Setting, provider: nat -> Generation, s: Conversation, r: nat, n: nat, rounds: nat)
    requires r < |s.runs| && !AsksAgain(env, provider, s, r, n, rounds)
    ensures Generate(env, provider, s, r, n, rounds).generations == 1
    ensures EndLaw(env, s, Generate(env, provider, s, r, n, rounds).after, r, provider(n), rounds)
  {
    var answer := provider(n);
    if answer.Unavailable? || answer.calls == [] || env.maxRounds <= rounds || env.maxCalls < |answer.calls| {
      AnswersAtOnce(env, provider, s, r, n, rounds);
    } else {
      AskedNoMore(env, provider, s, r, n, rounds, RunCalls(env, s, r, answer.calls, false));
    }
  }

  /** The answer is a round of calls that goes through with nothing left for approval. */
  predicate AsksAgain(env: Setting, provider: nat -> Generation, s: Conversation, r: nat, n: nat, rounds: nat) {
    && provider(n).Generated? && provider(n).calls != [] && |provider(n).calls| <= env.maxCalls && rounds < env.maxRounds
    && RunCalls(env, s, r, provider(n).calls, false).flow == Through(false)
  }

  /** The end of processing by its trace. */
  ghost predicate Ends(env: Setting, provider: nat -> Generation, s: Conversation, r: nat, n: nat, rounds: nat, t: Trace) {
    0 < t.generations && EndLaw(env, s, t.after, r, provider(n + t.generations - 1), rounds + t.generations - 1)
  }

  /** The end of the rest is the end of the whole: nothing is sent or drafted in the round before. */
  lemma OneRoundEarlier(env: Setting, provider: nat -> Generation, s: Conversation, t: Conversation, r: nat, n: nat, rounds: nat, rest: Trace, whole: Trace)
    requires t.replies == s.replies && t.drafts == s.drafts
    requires whole.after == rest.after && whole.generations == rest.generations + 1
    requires Ends(env, provider, t, r, n + 1, rounds + 1, rest)
    ensures Ends(env, provider, s, r, n, rounds, whole)
  {
    EndLater(env, s, t, rest.after, r, provider(n + rest.generations), rounds + rest.generations);
  }

  lemma {:induction false} GenerateEnds(env: Setting, provider: nat -> Generation, s: Conversation, r: nat, n: nat, rounds: nat)
    requires r < |s.runs|
    ensures Ends(env, provider, s, r, n, rounds, Generate(env, provider, s, r, n, rounds))
    decreases RoundsLeft(env, rounds)
  {
    if AsksAgain(env, provider, s, r, n, rounds) {
      var pass := RunCalls(env, s, r, provider(n).calls, false);
      var t := WithRounds(pass.after, r, rounds + 1);
      RunCallsWithin(env, s, r, provider(n).calls, false);
      AskedAgain(env, provider, s, r, n, rounds, pass);
      GenerateEnds(env, provider, t, r, n + 1, rounds + 1);
      OneRoundEarlier(env, provider, s, t, r, n, rounds,
                      Generate(env, provider, t, r, n + 1, rounds + 1), Generate(env, provider, s, r, n, rounds));
    } else {
      OneAnswerEnds(env, provider, s, r, n, rounds);
    }
  }

  /** Whether the provider is asked at all. */
  predicate Asks(env: Setting, s: Conversation, r: nat) {
    && r < |s.runs| && s.runs[r].status in {Queued, Running} && s.state in {Suggesting, Piloting}
    && !env.humanReplied && env.obstacle == None
  }

  /** Processing that asks the provider ends as its last answer says. */
  lemma ProcessEnds(env: Setting, provider: nat -> Generation, s: Conversation, r: nat)
    ensures var t := ProcessRun(env, provider, s, r);
      && (0 < t.generations <==> Asks(env, s, r))
      && (0 < t.generations ==> Ends(env, provider, s, r, 0, s.runs[r].rounds, t))
      && (t.generations == 0 ==> t.after.replies == s.replies && t.after.drafts == s.drafts)
  {
    if r < |s.runs| {
      var t := WithStatus(s, r, Running);
      if env.obstacle.Some? { CaughtSendsNothing(env, t, r, env.obstacle.value); }
      if Asks(env, s, r) {
        var u := ProcessRun(env, provider, s, r);
        GenerateEnds(env, provider, t, r, 0, s.runs[r].rounds);
        EndLater(env, s, t, u.after, r, provider(u.generations - 1), s.runs[r].rounds + u.generations - 1);
      }
    }
  }

  /** What an obstacle met before the first question does, by its kind and the channel. */
  predicate ObstacleLaw(env: Setting, t: Conversation, r: nat, stop: Stop) {
    r < |t.runs| &&
    match stop
    case ToolError => AskedForPerson(t, r)
    case ProviderDown => if env.channel == PublicWebChat then AskedForPerson(t, r) else t.runs[r].status == Failed
    case SendBlocked => if env.channel == HandingOff then AskedForPerson(t, r) else t.runs[r].status == Failed
    case ContextChanged => t.runs[r].status == Superseded
    case Other => t.runs[r].status == Failed
  }

  /** A run that is over or waiting is left alone; one nobody wants answered any more is superseded; an obstacle ends it. */
  lemma NotAskedIs(env: Setting, provider: nat -> Generation, s: Conversation, r: nat)
    requires !Asks(env, s, r)
    ensures var t := ProcessRun(env, provider, s, r).after;
      if r < |s.runs| && s.runs[r].status in {Queued, Running} then
        if s.state !in {Suggesting, Piloting} || env.humanReplied then t == s.(runs := s.runs[r := s.runs[r].(status := Superseded)])
        else ObstacleLaw(env, t, r, env.obstacle.value)
      else t == s
  {
    if r < |s.runs| && env.obstacle.Some? { AskingTakesEffect(WithStatus(s, r, Running), r); }
  }

  // ----- unsafe texts -----

  /** If no text the provider gives is safe, nothing is sent and nothing drafted. */
  lemma NothingUnsafeIsSent(env: Setting, provider: nat -> Generation, s: Conversation, r: nat)
    requires forall n: nat :: !IsText(provider(n), true)
    ensures ProcessRun(env, provider, s, r).after.replies == s.replies
    ensures ProcessRun(env, provider, s, r).after.drafts == s.drafts
  {
    ProcessEnds(env, provider, s, r);
  }

  /** Processing that ends on an unsafe text sends and drafts nothing, and leaves the run to a person. */
  lemma UnsafeTextAsksForPerson(env: Setting, provider: nat -> Generation, s: Conversation, r: nat)
    requires 0 < ProcessRun(env, provider, s, r).generations
    requires IsText(provider(ProcessRun(env, provider, s, r).generations - 1), false)
    ensures AskedForPerson(ProcessRun(env, provider, s, r).after, r)
    ensures ProcessRun(env, provider, s, r).after.replies == s.replies && ProcessRun(env, provider, s, r).after.drafts == s.drafts
  {
    ProcessEnds(env, provider, s, r);
  }
}
