/** Drafts of the AI runtime: a run has at most one, and exactly the accepted ones put a message into the conversation. */
module AiDrafts {
  import opened Totals
  import opened AiRuns
  import opened AiSafety

  // ----- one draft a run -----

  ghost predicate OneDraftPerRun(s: Conversation) {
    forall i, j :: 0 <= i < j < |s.drafts| ==> s.drafts[i].run != s.drafts[j].run
  }

  lemma SameRunsOneDraft(s: Conversation, t: Conversation)
    requires OneDraftPerRun(s) && |t.drafts| == |s.drafts|
    requires forall i :: 0 <= i < |s.drafts| ==> t.drafts[i].run == s.drafts[i].run
    ensures OneDraftPerRun(t)
  {
  }

  lemma NewDraftIsOnly(s: Conversation, t: Conversation, r: nat)
    requires OneDraftPerRun(s) && NewDraft(s, t, r)
    ensures OneDraftPerRun(t)
  {
    FindSpec(DraftOf(r), s.drafts);
  }

  lemma StepOneDraft(s: Conversation, x: Event)
    requires OneDraftPerRun(s)
    ensures OneDraftPerRun(Step(s, x))
  {
    var t := Step(s, x);
    match x
    case ProcessEvent(r, env, provider) =>
      if r < |s.runs| && (s.runs[r].status.Queued? || s.runs[r].status.Running?) {
        ProcessFinishes(env, provider, s, r);
        if t.drafts != s.drafts { NewDraftIsOnly(s, t, r); }
      }
    case ApproveEvent(c, humanReplied, outcome) =>
      if t != s {
        ApproveDecides(s, c, humanReplied, outcome);
        if t.drafts != s.drafts { NewDraftIsOnly(s, t, s.calls[c].run); }
      }
    case _ => SameRunsOneDraft(s, t);
  }

  // ----- one message a draft -----

  function SentFor(q: nat): Draft -> nat { (d: Draft) => if d.run == q && (d.status.Sent? || d.status.Edited?) then 1 else 0 }

  function RepliesFor(q: nat): Reply -> nat { (x: Reply) => if x.run == q && !x.auto then 1 else 0 }

  /** As many messages have been sent from drafts of run q as drafts of it have been approved or edited. */
  predicate DraftsAnswered(s: Conversation, q: nat) { Total(RepliesFor(q), s.replies) == Total(SentFor(q), s.drafts) }

  lemma DraftAnswered(s: Conversation, d: nat, action: DraftAction, humanReplied: bool, validBody: bool, sending: Sending, q: nat)
    requires DraftsAnswered(s, q)
    ensures DraftsAnswered(ActOnDraft(s, d, action, humanReplied, validBody, sending).0, q)
  {
    var t := ActOnDraft(s, d, action, humanReplied, validBody, sending).0;
    if t != s {
      TotalUpdate(SentFor(q), s.drafts, d, t.drafts[d]);
      TotalAppend(RepliesFor(q), s.replies, Reply(s.drafts[d].run, false, sending.Fails?));
    }
  }

  lemma {:induction false} SentAlike(a: seq<Draft>, b: seq<Draft>, q: nat)
    requires |a| == |b| && forall i :: 0 <= i < |a| ==> SentFor(q)(a[i]) == SentFor(q)(b[i])
    ensures Total(SentFor(q), a) == Total(SentFor(q), b)
  {
    if a != [] { SentAlike(a[..|a| - 1], b[..|b| - 1], q); }
  }

  lemma ProcessAnswers(env: Setting, provider: nat -> Generation, s: Conversation, r: nat, q: nat)
    requires DraftsAnswered(s, q)
    ensures DraftsAnswered(ProcessRun(env, provider, s, r).after, q)
  {
    if r < |s.runs| && (s.runs[r].status.Queued? || s.runs[r].status.Running?) {
      var t := ProcessRun(env, provider, s, r).after;
      ProcessFinishes(env, provider, s, r);
      TotalAppend(SentFor(q), s.drafts, Draft(r, Pending));
      if t.replies != s.replies { TotalAppend(RepliesFor(q), s.replies, t.replies[|s.replies|]); }
    }
  }

  lemma ApproveAnswers(s: Conversation, c: nat, humanReplied: bool, outcome: Outcome, q: nat)
    requires DraftsAnswered(s, q)
    ensures DraftsAnswered(ApproveCall(s, c, humanReplied, outcome).0, q)
  {
    if ApproveCall(s, c, humanReplied, outcome).0 != s {
      ApproveDecides(s, c, humanReplied, outcome);
      TotalAppend(SentFor(q), s.drafts, Draft(s.calls[c].run, Pending));
    }
  }

  lemma SupersedeAnswers(s: Conversation, q: nat)
    requires DraftsAnswered(s, q)
    ensures DraftsAnswered(Supersede(s), q)
  {
    SentAlike(Supersede(s).drafts, s.drafts, q);
  }

  lemma StepAnswers(s: Conversation, x: Event, q: nat)
    requires DraftsAnswered(s, q)
    ensures DraftsAnswered(Step(s, x), q)
  {
    match x
    case ProcessEvent(r, env, provider) => ProcessAnswers(env, provider, s, r, q);
    case DraftEvent(d, action, humanReplied, validBody, sending) => DraftAnswered(s, d, action, humanReplied, validBody, sending, q);
    case ApproveEvent(c, humanReplied, outcome) => ApproveAnswers(s, c, humanReplied, outcome, q);
    case SupersedeEvent(paused) => SupersedeAnswers(if paused then s.(state := PausedByHuman) else s, q);
    case StateEvent(state, _) => SupersedeAnswers(s.(state := state), q);
    case _ =>
  }

  /** In any run of the protocol no run has two drafts, and as many messages as accepted drafts. */
  lemma {:induction false} AlwaysAnswered(log: seq<Event>)
    ensures OneDraftPerRun(After(log))
    ensures forall q: nat :: DraftsAnswered(After(log), q)
  {
    if log != [] {
      var before := After(log[..|log| - 1]);
      AlwaysAnswered(log[..|log| - 1]);
      StepOneDraft(before, log[|log| - 1]);
      forall q: nat ensures DraftsAnswered(After(log), q) {
        assert DraftsAnswered(before, q);
        StepAnswers(before, log[|log| - 1], q);
      }
    }
  }

  /** Where each run has at most one draft, the accepted drafts of a run are its draft, if that was accepted. */
  lemma {:induction false} OnlyOneSent(drafts: seq<Draft>, d: nat)
    requires d < |drafts| && forall i, j :: 0 <= i < j < |drafts| ==> drafts[i].run != drafts[j].run
    ensures Total(SentFor(drafts[d].run), drafts) == SentFor(drafts[d].run)(drafts[d])
  {
    var last := |drafts| - 1;
    if d < last { OnlyOneSent(drafts[..last], d); } else { NothingToCount(SentFor(drafts[d].run), drafts[..last]); }
  }

  /**
    In any run of the protocol a draft that was approved or edited has put exactly one message into the conversation, any
    other draft none, and every message sent from a draft has its draft.
    */
  lemma OneMessagePerAcceptedDraft(log: seq<Event>)
    ensures var s := After(log); forall d :: 0 <= d < |s.drafts| ==>
      Total(RepliesFor(s.drafts[d].run), s.replies) == if s.drafts[d].status.Sent? || s.drafts[d].status.Edited? then 1 else 0
    ensures var s := After(log); forall m :: 0 <= m < |s.replies| && !s.replies[m].auto ==>
      exists d :: 0 <= d < |s.drafts| && s.drafts[d].run == s.replies[m].run
  {
    var s := After(log);
    AlwaysAnswered(log);
    forall d | 0 <= d < |s.drafts|
      ensures Total(RepliesFor(s.drafts[d].run), s.replies) == if s.drafts[d].status.Sent? || s.drafts[d].status.Edited? then 1 else 0
    {
      assert DraftsAnswered(s, s.drafts[d].run);
      OnlyOneSent(s.drafts, d);
    }
    forall m | 0 <= m < |s.replies| && !s.replies[m].auto ensures exists d :: 0 <= d < |s.drafts| && s.drafts[d].run == s.replies[m].run {
      var q := s.replies[m].run;
      assert DraftsAnswered(s, q);
      TotalBoundsEach(RepliesFor(q), s.replies, m);
      if forall d :: 0 <= d < |s.drafts| ==> s.drafts[d].run != q { NothingToCount(SentFor(q), s.drafts); }
    }
  }
}
