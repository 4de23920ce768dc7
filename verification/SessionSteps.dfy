/** The proof that one step of the session is what module SessionEffects says, and what follows over runs. */
module SessionSteps {
  import opened Protocol
  import opened Session
  import opened SessionLog
  import opened SessionEffects
  import Dedupe
  import PRs = SessionPRs

  // ---- history ----

  lemma LogSnoc(l: Log, o: Obs)
    ensures Work(Snoc(l, o)) == Work(l) + (if o.Attempt? || o.Launched? || o.Turn? then [o] else [])
    ensures Replies(Snoc(l, o)) == Replies(l) + (if o.PRReply? then [o.to] else [])
    ensures AdmittedDeliveries(Snoc(l, o)) == AdmittedDeliveries(l) + (if o.Admitted? then [o.delivery] else [])
  {}

  // An entry that says nothing about work, replies or deliveries.
  predicate Silent(o: Obs) {
    o.Stopped? || o.RoundDone? || o.DiscussOpen? || o.Reply? || o.DiscussClose? || o.CheckedPR?
  }

  ghost predicate SameHistory(l: Log, m: Log) {
    Work(m) == Work(l) && Replies(m) == Replies(l) && AdmittedDeliveries(m) == AdmittedDeliveries(l)
  }

  lemma SilentSnoc(l: Log, o: Obs)
    requires Silent(o)
    ensures SameHistory(l, Snoc(l, o))
  {}

  lemma TurnLogIs(l: Log, a: Obs, t: TurnResult)
    requires a.Attempt?
    ensures var m := TurnLog(l, a, t);
      && Work(m) == Work(l) + WorkOf(a, t) && Replies(m) == Replies(l)
      && AdmittedDeliveries(m) == AdmittedDeliveries(l)
  {
    hide Work, Replies, AdmittedDeliveries, Report;
    var l1 := Snoc(l, a);
    LogSnoc(l, a);
    if Plays(a, t) {
      var l2 := if a.how.Cold? then Snoc(l1, Launched(a.how.mode)) else l1;
      if a.how.Cold? { LogSnoc(l1, Launched(a.how.mode)); }
      var o := Turn(a.kind, Report(a, t), t.prCreated);
      LogSnoc(l2, o);
      LogSnoc(Snoc(l2, o), Stopped);
      assert Work(l) + [a] + [o] == Work(l) + ([a] + [o]);
      if a.how.Cold? {
        assert Work(l) + [a] + [Launched(a.how.mode)] + [o] == Work(l) + ([a] + [Launched(a.how.mode)] + [o]);
      }
    }
  }

  // ---- steps that run no turn ----

  lemma DedupeIs(s: State, d: string)
    ensures var (u, dup) := DedupeDelivery(s, d);
      && (dup <==> d == "" || d in s.seen.keys)
      && u == s.(seen := u.seen, log := if dup then s.log else Snoc(s.log, Admitted(d)))
  {}

  // Accepting one instruction.
  lemma PushIs(b: Inbox, i: Instr, id: int)
    ensures var c := Push(b, i, id);
      && c == b.(pending := b.pending + Instrs([(i, id)]), accepted := c.accepted)
      && Entries(c.accepted) == Entries(b.accepted) + [(i, id)]
    ensures b.pending + Instrs([]) == b.pending
  {}

  lemma InstrsOf(i: Instr, id: int)
    ensures Instrs([(i, id)]) == [i] && Instrs([]) == []
  {}

  // A step at the loop head that closes no window and wakes nobody.
  predicate Plain(s: State, sig: Signal, env: Env) {
    s.control == Head && !sig.CoalesceTimer? && !Attaches(s, sig, env)
  }

  // What it does to the session, ...
  ghost predicate PlainFields(p: Policy, s: State, sig: Signal, env: Env, t: State) {
    && t.control == ControlAfter(p, s, sig, env)
    && t.vm == (if t.control.Done? || Parks(s, sig) then VMDestroyed else s.vm)
    && t.cost == s.cost && t.prNumber == s.prNumber && t.reviewRound == s.reviewRound
    && t.ceilingReached == s.ceilingReached
    && HumanAfter(s, sig, env, t)
    && (t.coalesce <==>
          || s.coalesce || (Offered(p, s, sig, env) != [] && !t.attached && !t.awaitingChoice)
          || (Detaches(s, sig) && !sig.edits && s.inbox.pending != []))
    && (t.keepAlive <==>
          if Detaches(s, sig) && !sig.edits then
            t.vm == VMRunning && p.keepAlive > 0 && !t.attached && !t.awaitingChoice
          else s.keepAlive && !sig.KeepAliveTimer?)
  }

  // ... and to its inbox and history.
  ghost predicate PlainInbox(p: Policy, s: State, sig: Signal, env: Env, t: State) {
    var taken := Offered(p, s, sig, env);
    && Entries(t.inbox.accepted) == Entries(s.inbox.accepted) + taken
    && t.inbox.pending == s.inbox.pending + Instrs(taken)
    && (t.inbox.fromPR <==> s.inbox.fromPR || (!sig.UserMessage? && taken != []))
    && t.inbox.replyToID ==
         (if sig.ReviewComment? && sig.inline && sig.commentID != 0 && taken != [] then sig.commentID
          else s.inbox.replyToID)
    && t.inbox.seenComments == SeenAfter(p, s, sig, env)
  }

  ghost predicate PlainLog(s: State, sig: Signal, t: State) {
    && Work(t.log) == Work(s.log) && Replies(t.log) == Replies(s.log)
    && AdmittedDeliveries(t.log) ==
         AdmittedDeliveries(s.log) + (if FreshDelivery(s, sig) then [sig.delivery] else [])
  }

  lemma PlainMeans(p: Policy, s: State, sig: Signal, env: Env)
    requires Plain(s, sig, env)
    ensures Due(p, s, sig, env).None? && !StartsRound(p, s, sig, env) && !Closes(s, sig)
    ensures !HitsCeiling(p, s, sig, env) && !Answers(p, s, sig)
  {
    hide Batch, Instruction;
  }

  lemma PlainFieldsAre(p: Policy, s: State, sig: Signal, env: Env, t: State)
    requires Plain(s, sig, env) && PlainFields(p, s, sig, env, t)
    ensures FieldsAfter(p, s, sig, env, t) && HumanAfter(s, sig, env, t)
  {
    PlainMeans(p, s, sig, env);
    hide Due, StartsRound, Closes, HitsCeiling, Answers;
    hide ControlAfter, Offered, SeenAfter, Instrs, Work, Replies, AdmittedDeliveries, HumanAfter, Entries;
    hide FreshDelivery, Parks, Detaches, Report, VMLeft, Numbered;
  }

  lemma PlainTimersAre(p: Policy, s: State, sig: Signal, env: Env, t: State)
    requires Plain(s, sig, env) && PlainFields(p, s, sig, env, t)
    ensures WindowAfter(p, s, sig, env, t) && ClockAfter(p, s, sig, env, t)
  {
    PlainMeans(p, s, sig, env);
    hide Due, StartsRound, Closes, HitsCeiling, Answers;
    hide ControlAfter, Offered, SeenAfter, Instrs, Work, Replies, AdmittedDeliveries, HumanAfter, Entries;
    hide FreshDelivery, Parks, Detaches, Report, VMLeft, Numbered;
  }

  lemma PlainInboxIs(p: Policy, s: State, sig: Signal, env: Env, t: State)
    requires Plain(s, sig, env) && PlainInbox(p, s, sig, env, t)
    ensures InboxAfter(p, s, sig, env, t)
  {
    PlainMeans(p, s, sig, env);
    hide Due, StartsRound, Closes, HitsCeiling, Answers;
    hide ControlAfter, Offered, SeenAfter, Instrs, Work, Replies, AdmittedDeliveries, HumanAfter, Entries;
    hide FreshDelivery, Parks, Detaches, Report, VMLeft, Numbered;
  }

  lemma PlainLogIs(p: Policy, s: State, sig: Signal, env: Env, t: State)
    requires Plain(s, sig, env) && PlainLog(s, sig, t)
    ensures LogAfter(p, s, sig, env, t)
  {
    PlainMeans(p, s, sig, env);
    hide Due, StartsRound, Closes, HitsCeiling, Answers;
    hide ControlAfter, Offered, SeenAfter, Instrs, Work, Replies, AdmittedDeliveries, HumanAfter, Entries;
    hide FreshDelivery, Parks, Detaches, Report, VMLeft, Numbered;
  }

  lemma PlainIsStep(p: Policy, s: State, sig: Signal, env: Env, t: State)
    requires Plain(s, sig, env)
    requires PlainFields(p, s, sig, env, t) && PlainInbox(p, s, sig, env, t) && PlainLog(s, sig, t)
    ensures StepIs(p, s, sig, env, t)
  {
    PlainFieldsAre(p, s, sig, env, t);
    PlainTimersAre(p, s, sig, env, t);
    PlainInboxIs(p, s, sig, env, t);
    PlainLogIs(p, s, sig, env, t);
    hide Plain, PlainFields, PlainInbox, PlainLog;
    hide FieldsAfter, HumanAfter, InboxAfter, WindowAfter, ClockAfter, LogAfter;
  }

  // ---- GitHub ----

  predicate FromGitHub(sig: Signal) { sig.ReviewComment? || sig.ReviewSubmitted? || sig.CIStatus? || sig.PRClosed? }

  lemma ReviewCommentFields(p: Policy, s: State, sig: Signal, env: Env)
    requires s.control == Head && sig.ReviewComment?
    ensures PlainFields(p, s, sig, env, Step(p, s, sig, env))
  {
    hide OnReviewSubmitted, OnCIStatus, OnPRClosed, RouteUserMessage, EndRelay;
    hide CloseWindow, IdleOut, AttachHuman, Discuss, EndSession;
    DedupeIs(s, sig.delivery);
    hide DedupeDelivery, PushFromPR, MarkSeen;
  }

  lemma ReviewCommentInbox(p: Policy, s: State, sig: Signal, env: Env)
    requires s.control == Head && sig.ReviewComment?
    ensures PlainInbox(p, s, sig, env, Step(p, s, sig, env))
  {
    hide OnReviewSubmitted, OnCIStatus, OnPRClosed, RouteUserMessage, EndRelay;
    hide CloseWindow, IdleOut, AttachHuman, Discuss, EndSession;
    DedupeIs(s, sig.delivery);
    PushIs(s.inbox, GitHub(sig.text), sig.commentID);
    hide DedupeDelivery, Instrs, Push, Entries;
  }

  lemma ReviewSubmittedFields(p: Policy, s: State, sig: Signal, env: Env)
    requires s.control == Head && sig.ReviewSubmitted?
    ensures PlainFields(p, s, sig, env, Step(p, s, sig, env))
  {
    hide OnReviewComment, OnCIStatus, OnPRClosed, RouteUserMessage, EndRelay;
    hide CloseWindow, IdleOut, AttachHuman, Discuss, EndSession;
    DedupeIs(s, sig.delivery);
    hide DedupeDelivery, PushFromPR, MarkSeen;
  }

  lemma ReviewSubmittedTakes(p: Policy, s: State, sig: Signal, env: Env)
    requires s.control == Head && sig.ReviewSubmitted?
    ensures var id := sig.reviewID;
      Step(p, s, sig, env).inbox ==
        if !FreshDelivery(s, sig) || (id != 0 && id in s.inbox.seenComments) then s.inbox
        else if sig.changesRequested then PushFromPR(MarkSeen(s.inbox, id), GitHub(sig.text), id)
        else MarkSeen(s.inbox, id)
  {
    hide OnReviewComment, OnCIStatus, OnPRClosed, RouteUserMessage, EndRelay, CloseWindow, IdleOut, AttachHuman;
    hide Discuss, EndSession;
    DedupeIs(s, sig.delivery);
    hide DedupeDelivery, PushFromPR, MarkSeen;
  }

  lemma ReviewSubmittedInbox(p: Policy, s: State, sig: Signal, env: Env)
    requires s.control == Head && sig.ReviewSubmitted?
    ensures PlainInbox(p, s, sig, env, Step(p, s, sig, env))
  {
    ReviewSubmittedTakes(p, s, sig, env);
    PushIs(MarkSeen(s.inbox, sig.reviewID), GitHub(sig.text), sig.reviewID);
    hide Step, Instrs, Push, Entries, FreshDelivery;
  }

  lemma CIStatusFields(p: Policy, s: State, sig: Signal, env: Env)
    requires s.control == Head && sig.CIStatus?
    ensures PlainFields(p, s, sig, env, Step(p, s, sig, env))
  {
    hide OnReviewComment, OnReviewSubmitted, OnPRClosed, RouteUserMessage, EndRelay;
    hide CloseWindow, IdleOut, AttachHuman, Discuss, EndSession;
    DedupeIs(s, sig.delivery);
    hide DedupeDelivery, PushFromPR, MarkSeen;
  }

  lemma CIStatusInbox(p: Policy, s: State, sig: Signal, env: Env)
    requires s.control == Head && sig.CIStatus?
    ensures PlainInbox(p, s, sig, env, Step(p, s, sig, env))
  {
    hide OnReviewComment, OnReviewSubmitted, OnPRClosed, RouteUserMessage, EndRelay;
    hide CloseWindow, IdleOut, AttachHuman, Discuss, EndSession;
    DedupeIs(s, sig.delivery);
    PushIs(s.inbox, CIFailure(sig.url), 0);
    hide DedupeDelivery, Instrs, Push, Entries;
  }

  lemma PRClosedFields(p: Policy, s: State, sig: Signal, env: Env)
    requires s.control == Head && sig.PRClosed?
    ensures PlainFields(p, s, sig, env, Step(p, s, sig, env))
  {
    hide OnReviewComment, OnReviewSubmitted, OnCIStatus, RouteUserMessage;
    hide EndRelay, CloseWindow, IdleOut, AttachHuman, Discuss;
    DedupeIs(s, sig.delivery);
    hide DedupeDelivery, PushFromPR, MarkSeen;
  }

  lemma PRClosedInbox(p: Policy, s: State, sig: Signal, env: Env)
    requires s.control == Head && sig.PRClosed?
    ensures PlainInbox(p, s, sig, env, Step(p, s, sig, env))
  {
    hide OnReviewComment, OnReviewSubmitted, OnCIStatus, RouteUserMessage;
    hide EndRelay, CloseWindow, IdleOut, AttachHuman, Discuss;
    DedupeIs(s, sig.delivery);
    InstrsOf(GitHub(""), 0);
    hide DedupeDelivery, Instrs;
  }

  lemma ClosedLog(p: Policy, s: State, sig: Signal, env: Env)
    requires s.control == Head && sig.PRClosed?
    ensures PlainLog(s, sig, Step(p, s, sig, env))
  {
    hide OnReviewComment, OnReviewSubmitted, OnCIStatus, RouteUserMessage, EndRelay, CloseWindow, IdleOut, Discuss;
    DedupeIs(s, sig.delivery);
    LogSnoc(s.log, Admitted(sig.delivery));
    SilentSnoc(Snoc(s.log, Admitted(sig.delivery)), Stopped);
    hide DedupeDelivery, Work, Replies, AdmittedDeliveries, AttachHuman;
  }

  lemma AcceptingKeepsLog(p: Policy, s: State, sig: Signal, env: Env)
    requires s.control == Head && FromGitHub(sig) && !sig.PRClosed?
    ensures Step(p, s, sig, env).log == DedupeDelivery(s, sig.delivery).0.log
  {
    hide OnPRClosed, RouteUserMessage, EndRelay, CloseWindow, IdleOut, AttachHuman, Discuss, EndSession;
    hide DedupeDelivery, PushFromPR, MarkSeen;
  }

  lemma AdmittedLog(l: Log, d: string, isNew: bool)
    ensures var m := if isNew then Snoc(l, Admitted(d)) else l;
      && Work(m) == Work(l) && Replies(m) == Replies(l)
      && AdmittedDeliveries(m) == AdmittedDeliveries(l) + (if isNew then [d] else [])
  {
    LogSnoc(l, Admitted(d));
    hide Work, Replies, AdmittedDeliveries;
  }

  lemma GitHubLog(p: Policy, s: State, sig: Signal, env: Env)
    requires s.control == Head && FromGitHub(sig) && !sig.PRClosed?
    ensures PlainLog(s, sig, Step(p, s, sig, env))
  {
    AcceptingKeepsLog(p, s, sig, env);
    DedupeIs(s, sig.delivery);
    AdmittedLog(s.log, sig.delivery, FreshDelivery(s, sig));
    assert Step(p, s, sig, env).log == if FreshDelivery(s, sig) then Snoc(s.log, Admitted(sig.delivery)) else s.log;
    hide Step, DedupeDelivery, Work, Replies, AdmittedDeliveries, FreshDelivery, FromGitHub;
  }

  lemma GitHubStepIs(p: Policy, s: State, sig: Signal, env: Env)
    requires s.control == Head && FromGitHub(sig)
    ensures StepIs(p, s, sig, env, Step(p, s, sig, env))
  {
    if sig.PRClosed? { ClosedLog(p, s, sig, env); } else { GitHubLog(p, s, sig, env); }
    match sig {
      case ReviewComment(_, _, _, _) => ReviewCommentFields(p, s, sig, env); ReviewCommentInbox(p, s, sig, env);
      case ReviewSubmitted(_, _, _, _) => ReviewSubmittedFields(p, s, sig, env); ReviewSubmittedInbox(p, s, sig, env);
      case CIStatus(_, _, _) => CIStatusFields(p, s, sig, env); CIStatusInbox(p, s, sig, env);
      case PRClosed(_, _) => PRClosedFields(p, s, sig, env); PRClosedInbox(p, s, sig, env);
    }
    hide Step, PlainFields, PlainInbox, PlainLog, StepIs;
    PlainIsStep(p, s, sig, env, Step(p, s, sig, env));
  }

  // ---- timers, ends and the tunnel ----

  predicate Other(sig: Signal) {
    sig.Abort? || sig.Detach? || sig.RelayEnded? || sig.HardTTL? || sig.KeepAliveTimer?
  }

  lemma TunnelFields(p: Policy, s: State, sig: Signal, env: Env)
    requires s.control == Head && sig.RelayEnded?
    ensures PlainFields(p, s, sig, env, Step(p, s, sig, env))
  {
    hide OnReviewComment, OnReviewSubmitted, OnCIStatus, OnPRClosed, RouteUserMessage;
    hide CloseWindow, IdleOut, AttachHuman, Discuss, EndSession;
  }

  lemma OtherFields(p: Policy, s: State, sig: Signal, env: Env)
    requires s.control == Head && Other(sig) && !sig.RelayEnded?
    ensures PlainFields(p, s, sig, env, Step(p, s, sig, env))
  {
    hide OnReviewComment, OnReviewSubmitted, OnCIStatus, OnPRClosed;
    hide RouteUserMessage, EndRelay, CloseWindow, AttachHuman, Discuss;
  }

  lemma OtherInbox(p: Policy, s: State, sig: Signal, env: Env)
    requires s.control == Head && Other(sig)
    ensures PlainInbox(p, s, sig, env, Step(p, s, sig, env))
  {
    hide OnReviewComment, OnReviewSubmitted, OnCIStatus, OnPRClosed;
    hide RouteUserMessage, CloseWindow, AttachHuman, Discuss;
    InstrsOf(GitHub(""), 0);
    hide Instrs;
  }

  lemma OtherLog(p: Policy, s: State, sig: Signal, env: Env)
    requires s.control == Head && Other(sig)
    ensures PlainLog(s, sig, Step(p, s, sig, env))
  {
    hide OnReviewComment, OnReviewSubmitted, OnCIStatus, OnPRClosed;
    hide RouteUserMessage, CloseWindow, AttachHuman, Discuss;
    SilentSnoc(s.log, Stopped);
    hide Work, Replies, AdmittedDeliveries;
  }

  lemma OtherStepIs(p: Policy, s: State, sig: Signal, env: Env)
    requires s.control == Head && Other(sig)
    ensures StepIs(p, s, sig, env, Step(p, s, sig, env))
  {
    if sig.RelayEnded? { TunnelFields(p, s, sig, env); } else { OtherFields(p, s, sig, env); }
    OtherInbox(p, s, sig, env);
    OtherLog(p, s, sig, env);
    hide Step, PlainFields, PlainInbox, PlainLog, StepIs;
    PlainIsStep(p, s, sig, env, Step(p, s, sig, env));
  }

  // ---- a human attaches, or writes ----

  lemma AttachIs(s: State, env: Env)
    ensures var a := Attempt(Wake, Cold(Resume), []);
      AttachHuman(s, env) ==
        if s.attached then s
        else
          var u := if s.vm == VMRunning then s else Turned(s, a, env.turn);
          u.(attached := true, relay := true, keepAlive := false)
  {
    hide LaunchWarm, RecordOutcome, TurnLog, VMLeft, Report;
    LaunchIs(s.(attached := true), Wake, Resume, [], env.turn);
  }

  // A second attach changes nothing.
  lemma AttachedAlready(p: Policy, s: State, sig: Signal, env: Env)
    requires Plain(s, sig, env) && sig.Attach?
    ensures Step(p, s, sig, env) == s
  {}

  lemma MessageFields(p: Policy, s: State, sig: Signal, env: Env)
    requires Plain(s, sig, env) && sig.UserMessage?
    ensures PlainFields(p, s, sig, env, Step(p, s, sig, env))
  {
    hide OnReviewComment, OnReviewSubmitted, OnCIStatus, OnPRClosed;
    hide EndRelay, CloseWindow, IdleOut, Discuss, EndSession;
    AttachIs(s, env);
    hide AttachHuman, Instruction, Push;
  }

  lemma MessageTakes(p: Policy, s: State, sig: Signal, env: Env)
    requires Plain(s, sig, env) && sig.UserMessage?
    ensures var i := Instruction(sig.text, sig.attachments);
      Step(p, s, sig, env).inbox ==
        if s.awaitingChoice then Push(s.inbox, EditDecision(i), 0)
        else if !s.attached && i != "" && (sig.text == "" || env.intent == AsMessage) then Push(s.inbox, Said(i), 0)
        else s.inbox
  {
    hide OnReviewComment, OnReviewSubmitted, OnCIStatus, OnPRClosed, EndRelay, CloseWindow, IdleOut, Discuss;
    hide EndSession;
    AttachIs(s, env);
    hide AttachHuman, Instruction, Push;
  }

  lemma MessageInbox(p: Policy, s: State, sig: Signal, env: Env)
    requires Plain(s, sig, env) && sig.UserMessage?
    ensures PlainInbox(p, s, sig, env, Step(p, s, sig, env))
  {
    MessageTakes(p, s, sig, env);
    PushIs(s.inbox, Said(Instruction(sig.text, sig.attachments)), 0);
    PushIs(s.inbox, EditDecision(Instruction(sig.text, sig.attachments)), 0);
    hide Step, Instrs, Instruction, Push, Entries;
  }

  lemma MessageLog(p: Policy, s: State, sig: Signal, env: Env)
    requires Plain(s, sig, env) && sig.UserMessage?
    ensures PlainLog(s, sig, Step(p, s, sig, env))
  {
    hide OnReviewComment, OnReviewSubmitted, OnCIStatus, OnPRClosed;
    hide EndRelay, CloseWindow, IdleOut, Discuss, EndSession;
    AttachIs(s, env);
    hide AttachHuman, Work, Replies, AdmittedDeliveries, Instruction, Push;
  }

  lemma NothingIsStep(p: Policy, s: State, sig: Signal, env: Env)
    requires Plain(s, sig, env) && sig.Attach?
    ensures PlainFields(p, s, sig, env, s) && PlainInbox(p, s, sig, env, s) && PlainLog(s, sig, s)
  {
    InstrsOf(GitHub(""), 0);
    hide Instrs, Work, Replies, AdmittedDeliveries;
  }

  lemma PlainStepIs(p: Policy, s: State, sig: Signal, env: Env)
    requires Plain(s, sig, env)
    ensures StepIs(p, s, sig, env, Step(p, s, sig, env))
  {
    if FromGitHub(sig) {
      GitHubStepIs(p, s, sig, env);
    } else if Other(sig) {
      OtherStepIs(p, s, sig, env);
    } else {
      if sig.UserMessage? {
        MessageFields(p, s, sig, env);
        MessageInbox(p, s, sig, env);
        MessageLog(p, s, sig, env);
      } else {
        AttachedAlready(p, s, sig, env);
        NothingIsStep(p, s, sig, env);
      }
      hide Step, PlainFields, PlainInbox, PlainLog, StepIs;
      PlainIsStep(p, s, sig, env, Step(p, s, sig, env));
    }
    hide Step, StepIs;
  }

  // ---- waking a session ----

  const WAKE: Obs := Attempt(Wake, Cold(Resume), [])

  lemma AttachingMeans(p: Policy, s: State, sig: Signal, env: Env)
    requires Attaches(s, sig, env)
    ensures Due(p, s, sig, env) == if s.vm == VMRunning then None else Some(WAKE)
    ensures !StartsRound(p, s, sig, env) && !Answers(p, s, sig) && !Closes(s, sig) && !FreshDelivery(s, sig)
    ensures !HitsCeiling(p, s, sig, env) && !Detaches(s, sig) && !Parks(s, sig)
    ensures Offered(p, s, sig, env) == [] && ControlAfter(p, s, sig, env) == Head
  {
    hide Batch, Instruction;
  }

  lemma AttachingSteps(p: Policy, s: State, sig: Signal, env: Env)
    requires Attaches(s, sig, env)
    ensures Step(p, s, sig, env) ==
      (if s.vm == VMRunning then s else Turned(s, WAKE, env.turn)).(attached := true, relay := true, keepAlive := false)
  {
    AttachIs(s, env);
    hide OnReviewComment, OnReviewSubmitted, OnCIStatus, OnPRClosed, EndRelay, CloseWindow, IdleOut, Discuss;
    hide EndSession, AttachHuman, Turned, Instruction;
  }

  lemma AttachingFields(p: Policy, s: State, sig: Signal, env: Env)
    requires Attaches(s, sig, env)
    ensures var t := Step(p, s, sig, env); FieldsAfter(p, s, sig, env, t) && HumanAfter(s, sig, env, t)
  {
    AttachingMeans(p, s, sig, env);
    AttachingSteps(p, s, sig, env);
    hide Step, Due, StartsRound, Answers, Closes, FreshDelivery, HitsCeiling, Detaches, Parks, Offered, ControlAfter;
    hide Work, Replies, AdmittedDeliveries, Instrs, TurnLog, WorkOf, Report, VMLeft, Numbered, Entries;
  }

  lemma AttachingInbox(p: Policy, s: State, sig: Signal, env: Env)
    requires Attaches(s, sig, env)
    ensures var t := Step(p, s, sig, env); InboxAfter(p, s, sig, env, t)
  {
    AttachingMeans(p, s, sig, env);
    AttachingSteps(p, s, sig, env);
    InstrsOf(GitHub(""), 0);
    hide Step, Due, StartsRound, Answers, Closes, FreshDelivery, HitsCeiling, Detaches, Parks, Offered, ControlAfter;
    hide Work, Replies, AdmittedDeliveries, Instrs, TurnLog, WorkOf, Report, VMLeft, Numbered, Entries;
  }

  lemma AttachingTimers(p: Policy, s: State, sig: Signal, env: Env)
    requires Attaches(s, sig, env)
    ensures var t := Step(p, s, sig, env); WindowAfter(p, s, sig, env, t) && ClockAfter(p, s, sig, env, t)
  {
    AttachingMeans(p, s, sig, env);
    AttachingSteps(p, s, sig, env);
    hide Step, Due, StartsRound, Answers, Closes, FreshDelivery, HitsCeiling, Detaches, Parks, Offered, ControlAfter;
    hide Work, Replies, AdmittedDeliveries, Instrs, TurnLog, WorkOf, Report, VMLeft, Numbered, Entries;
  }

  lemma AttachingLog(p: Policy, s: State, sig: Signal, env: Env)
    requires Attaches(s, sig, env)
    ensures var t := Step(p, s, sig, env); LogAfter(p, s, sig, env, t)
  {
    AttachingMeans(p, s, sig, env);
    AttachingSteps(p, s, sig, env);
    TurnLogIs(s.log, WAKE, env.turn);
    hide Step, Due, StartsRound, Answers, Closes, FreshDelivery, HitsCeiling, Detaches, Parks, Offered, ControlAfter;
    hide Work, Replies, AdmittedDeliveries, Instrs, TurnLog, WorkOf, Report, VMLeft, Numbered, Entries;
  }

  lemma AttachingIs(p: Policy, s: State, sig: Signal, env: Env)
    requires Attaches(s, sig, env)
    ensures StepIs(p, s, sig, env, Step(p, s, sig, env))
  {
    AttachingFields(p, s, sig, env);
    AttachingInbox(p, s, sig, env);
    AttachingTimers(p, s, sig, env);
    AttachingLog(p, s, sig, env);
    hide Step, FieldsAfter, HumanAfter, InboxAfter, WindowAfter, ClockAfter, LogAfter;
  }

  // ---- closing a window ----

  // What the window closes over.
  ghost predicate Gathered(s: State, env: Env, g: State) {
    && g == s.(coalesce := false, inbox := g.inbox)
    && g.inbox.pending == Batch(s, env) && (g.inbox.fromPR <==> BatchFromPR(s, env))
    && g.inbox.replyToID == BatchTarget(s, env)
    && Entries(g.inbox.accepted) == Entries(s.inbox.accepted) + Fetched(s, env)
    && g.inbox.seenComments ==
         (if s.prNumber > 0 && env.thread.Some? then s.inbox.seenComments + Ids(env.thread.value)
          else s.inbox.seenComments)
  }

  lemma GatherIs(s: State, env: Env)
    ensures Gathered(s, env, Gather(s, env))
  {
    if env.thread.Some? { FoldIs(s.inbox, env.thread.value); }
    assert s.inbox.pending + Instrs([]) == s.inbox.pending;
    assert Entries(s.inbox.accepted) + [] == Entries(s.inbox.accepted);
    hide FoldThread, Picked, PickedTarget, Ids, Instrs, Entries;
  }

  lemma IdleWindowMeans(p: Policy, s: State, sig: Signal, env: Env)
    requires s.control == Head && sig.CoalesceTimer? && !StartsRound(p, s, sig, env)
    ensures Due(p, s, sig, env).None? && ControlAfter(p, s, sig, env) == Head
    ensures !Answers(p, s, sig) && !FreshDelivery(s, sig) && !Detaches(s, sig) && !Parks(s, sig)
    ensures !Attaches(s, sig, env)
    ensures Offered(p, s, sig, env) == if s.coalesce then Fetched(s, env) else []
    ensures HitsCeiling(p, s, sig, env) <==> s.coalesce && Batch(s, env) != [] && !s.attached && !s.awaitingChoice
  {
    hide Batch, Fetched, Instruction;
  }


  lemma IdleWindowSteps(p: Policy, s: State, sig: Signal, env: Env)
    requires s.control == Head && sig.CoalesceTimer? && !StartsRound(p, s, sig, env)
    ensures Gathered(s, env, Gather(s, env))
    ensures Step(p, s, sig, env) ==
      if !s.coalesce then s
      else if HitsCeiling(p, s, sig, env) then
        Gather(s, env).(ceilingReached := true, keepAlive := s.vm == VMRunning && p.keepAlive > 0)
      else Gather(s, env)
  {
    GatherIs(s, env);
    IdleWindowMeans(p, s, sig, env);
    hide Gather, Batch, StartRound, Instruction, HitsCeiling;
    hide OnReviewComment, OnReviewSubmitted, OnCIStatus, OnPRClosed, EndRelay, IdleOut, Discuss, AttachHuman;
  }

  lemma IdleWindowFields(p: Policy, s: State, sig: Signal, env: Env)
    requires s.control == Head && sig.CoalesceTimer? && !StartsRound(p, s, sig, env)
    ensures var t := Step(p, s, sig, env); FieldsAfter(p, s, sig, env, t) && HumanAfter(s, sig, env, t)
  {
    IdleWindowMeans(p, s, sig, env);
    IdleWindowSteps(p, s, sig, env);
    hide Step, Gather, Due, StartsRound, Answers, FreshDelivery, HitsCeiling, Detaches, Parks, Offered, ControlAfter;
    hide Work, Replies, AdmittedDeliveries, Instrs, Entries, Attaches, Fetched, BatchTarget;
  }

  lemma IdleWindowInbox(p: Policy, s: State, sig: Signal, env: Env)
    requires s.control == Head && sig.CoalesceTimer? && !StartsRound(p, s, sig, env)
    ensures var t := Step(p, s, sig, env); InboxAfter(p, s, sig, env, t)
  {
    IdleWindowMeans(p, s, sig, env);
    IdleWindowSteps(p, s, sig, env);
    assert s.inbox.pending + Instrs([]) == s.inbox.pending;
    hide Step, Gather, Due, StartsRound, Answers, FreshDelivery, HitsCeiling, Detaches, Parks, Offered, ControlAfter;
    hide Work, Replies, AdmittedDeliveries, Instrs, Entries, Attaches, Fetched, BatchTarget;
  }

  lemma IdleWindowTimers(p: Policy, s: State, sig: Signal, env: Env)
    requires s.control == Head && sig.CoalesceTimer? && !StartsRound(p, s, sig, env)
    ensures var t := Step(p, s, sig, env); WindowAfter(p, s, sig, env, t) && ClockAfter(p, s, sig, env, t)
  {
    IdleWindowMeans(p, s, sig, env);
    IdleWindowSteps(p, s, sig, env);
    hide Step, Gather, Due, StartsRound, Answers, FreshDelivery, HitsCeiling, Detaches, Parks, Offered, ControlAfter;
    hide Work, Replies, AdmittedDeliveries, Instrs, Entries, Attaches, Fetched, BatchTarget;
  }

  lemma IdleWindowLog(p: Policy, s: State, sig: Signal, env: Env)
    requires s.control == Head && sig.CoalesceTimer? && !StartsRound(p, s, sig, env)
    ensures var t := Step(p, s, sig, env); LogAfter(p, s, sig, env, t)
  {
    IdleWindowMeans(p, s, sig, env);
    IdleWindowSteps(p, s, sig, env);
    hide Step, Gather, Due, StartsRound, Answers, FreshDelivery, HitsCeiling, Detaches, Parks, Offered, ControlAfter;
    hide Work, Replies, AdmittedDeliveries, Instrs, Entries, Attaches, Fetched, BatchTarget;
  }

  lemma IdleWindowIs(p: Policy, s: State, sig: Signal, env: Env)
    requires s.control == Head && sig.CoalesceTimer? && !StartsRound(p, s, sig, env)
    ensures StepIs(p, s, sig, env, Step(p, s, sig, env))
  {
    IdleWindowFields(p, s, sig, env);
    IdleWindowInbox(p, s, sig, env);
    IdleWindowTimers(p, s, sig, env);
    IdleWindowLog(p, s, sig, env);
    hide Step, FieldsAfter, HumanAfter, InboxAfter, WindowAfter, ClockAfter, LogAfter;
  }

  // ---- a round ----

  function RoundAttempt(s: State, env: Env): Obs {
    Attempt(Round, if s.vm == VMRunning then Warm else Cold(Resume), Batch(s, env))
  }

  lemma RoundMeans(p: Policy, s: State, sig: Signal, env: Env)
    requires StartsRound(p, s, sig, env)
    ensures s.control == Head && Closes(s, sig) && !s.attached && !s.awaitingChoice
    ensures Due(p, s, sig, env) == Some(RoundAttempt(s, env))
    ensures !Answers(p, s, sig) && !FreshDelivery(s, sig) && !Detaches(s, sig) && !Parks(s, sig)
    ensures !Attaches(s, sig, env)
    ensures !HitsCeiling(p, s, sig, env) && Offered(p, s, sig, env) == Fetched(s, env)
    ensures ControlAfter(p, s, sig, env) ==
      if Report(RoundAttempt(s, env), env.turn).outcome == NeedsInput
      then Discussing(FromRound(Batch(s, env), BatchFromPR(s, env), BatchTarget(s, env)), Resume) else Head
    ensures forall o :: Ends(p, s, sig, env, o) <==> Report(RoundAttempt(s, env), env.turn).outcome == o
  {
    hide Batch, Fetched, BatchFromPR, BatchTarget, Instruction, Report;
  }

  // The end of a round, spelled out.
  function Finished(p: Policy, u: State, r: PhaseResult, batch: seq<Instr>, fromPR: bool, replyToID: int): State {
    var failed := r.outcome == AgentFailed;
    var armed := u.vm == VMRunning && p.keepAlive > 0 && !u.attached && !u.awaitingChoice;
    if failed then
      u.(coalesce := true, keepAlive := armed, log := Snoc(u.log, RoundDone(true)),
         inbox := u.inbox.(pending := batch + u.inbox.pending, fromPR := u.inbox.fromPR || fromPR))
    else
      u.(keepAlive := armed, log := Snoc(if fromPR then Snoc(u.log, PRReply(replyToID)) else u.log, RoundDone(false)))
  }

  lemma ArmIs(p: Policy, u: State)
    ensures ArmKeepAlive(p, u) ==
      u.(keepAlive := u.vm == VMRunning && p.keepAlive > 0 && !u.attached && !u.awaitingChoice)
  {}

  lemma FinishIs(p: Policy, u: State, r: PhaseResult, batch: seq<Instr>, fromPR: bool, replyToID: int)
    ensures FinishRound(p, u, r, batch, fromPR, replyToID) == Finished(p, u, r, batch, fromPR, replyToID)
  {
    hide ArmKeepAlive;
    if r.outcome == AgentFailed {
      var inbox := u.inbox.(pending := batch + u.inbox.pending, fromPR := u.inbox.fromPR || fromPR);
      ArmIs(p, u.(coalesce := true, log := Snoc(u.log, RoundDone(true)), inbox := inbox));
    } else {
      var l := Snoc(if fromPR then Snoc(u.log, PRReply(replyToID)) else u.log, RoundDone(false));
      ArmIs(p, u.(log := l));
    }
  }

  lemma FinishLog(p: Policy, u: State, r: PhaseResult, batch: seq<Instr>, fromPR: bool, replyToID: int)
    ensures var l := Finished(p, u, r, batch, fromPR, replyToID).log;
      && Work(l) == Work(u.log) && AdmittedDeliveries(l) == AdmittedDeliveries(u.log)
      && Replies(l) == Replies(u.log) + if r.outcome != AgentFailed && fromPR then [replyToID] else []
  {
    SilentSnoc(u.log, RoundDone(true));
    SilentSnoc(u.log, RoundDone(false));
    LogSnoc(u.log, PRReply(replyToID));
    SilentSnoc(Snoc(u.log, PRReply(replyToID)), RoundDone(false));
    hide Work, Replies, AdmittedDeliveries;
  }

  // The state with the round's turn run.
  function Played(s: State, env: Env): State {
    var g := Gather(s, env);
    Turned(g.(inbox := g.inbox.(pending := [], fromPR := false, replyToID := 0), reviewRound := g.reviewRound + 1),
           RoundAttempt(s, env), env.turn)
  }

  lemma RoundSteps(p: Policy, s: State, sig: Signal, env: Env)
    requires StartsRound(p, s, sig, env)
    ensures var r := Report(RoundAttempt(s, env), env.turn);
      var batch, fromPR, target := Batch(s, env), BatchFromPR(s, env), BatchTarget(s, env);
      Step(p, s, sig, env) ==
        if r.outcome == NeedsInput then EnterDiscussion(Played(s, env), FromRound(batch, fromPR, target), Resume)
        else Finished(p, Played(s, env), r, batch, fromPR, target)
  {
    var g, batch := Gather(s, env), Batch(s, env);
    GatherIs(s, env);
    LaunchIs(TakeBatch(g), Round, Resume, batch, env.turn);
    WarmIs(TakeBatch(g), Round, batch, env.turn);
    hide Gather, Batch, BatchFromPR, BatchTarget, LaunchWarm, WarmTurn, RecordOutcome, Turned, FinishRound, Finished;
    hide EnterDiscussion, Report, Entries, Fetched, Ids;
    var r := Report(RoundAttempt(s, env), env.turn);
    FinishIs(p, Played(s, env), r, batch, BatchFromPR(s, env), BatchTarget(s, env));
    hide OnReviewComment, OnReviewSubmitted, OnCIStatus, OnPRClosed, EndRelay, IdleOut, Discuss, AttachHuman;
    hide RouteUserMessage, EndSession;
  }

  lemma PlayedIs(s: State, env: Env)
    ensures var u, a := Played(s, env), RoundAttempt(s, env);
      var r := Report(a, env.turn);
      && u == s.(coalesce := false, inbox := u.inbox, reviewRound := s.reviewRound + 1, vm := VMLeft(s.vm, a, env.turn),
                 cost := s.cost + r.cost, prNumber := Numbered(s.prNumber, r), log := TurnLog(s.log, a, env.turn))
      && u.inbox.pending == [] && !u.inbox.fromPR && u.inbox.replyToID == 0
      && Entries(u.inbox.accepted) == Entries(s.inbox.accepted) + Fetched(s, env)
      && u.inbox.seenComments ==
           (if s.prNumber > 0 && env.thread.Some? then s.inbox.seenComments + Ids(env.thread.value)
            else s.inbox.seenComments)
  {
    GatherIs(s, env);
    hide Gather, RoundAttempt, Report, TurnLog, VMLeft, Numbered, Entries, Fetched, Ids;
    hide BatchFromPR, BatchTarget, Batch;
  }

  lemma RoundFields(p: Policy, s: State, sig: Signal, env: Env)
    requires StartsRound(p, s, sig, env)
    ensures var t := Step(p, s, sig, env); FieldsAfter(p, s, sig, env, t) && HumanAfter(s, sig, env, t)
  {
    RoundMeans(p, s, sig, env);
    RoundSteps(p, s, sig, env);
    PlayedIs(s, env);
    hide Step, Played, Due, StartsRound, Answers, FreshDelivery, HitsCeiling, Detaches, Parks, Offered, ControlAfter;
    hide Work, Replies, AdmittedDeliveries, Instrs, Entries, Attaches, Fetched, Ids, Batch, BatchFromPR, BatchTarget;
    hide TurnLog, WorkOf, Report, VMLeft, Numbered, Ends, RoundAttempt;
  }

  lemma RoundInbox(p: Policy, s: State, sig: Signal, env: Env)
    requires StartsRound(p, s, sig, env)
    ensures var t := Step(p, s, sig, env); InboxAfter(p, s, sig, env, t)
  {
    RoundMeans(p, s, sig, env);
    RoundSteps(p, s, sig, env);
    PlayedIs(s, env);
    assert Batch(s, env) + [] == Batch(s, env);
    hide Step, Played, Due, StartsRound, Answers, FreshDelivery, HitsCeiling, Detaches, Parks, Offered, ControlAfter;
    hide Work, Replies, AdmittedDeliveries, Instrs, Entries, Attaches, Fetched, Ids, Batch, BatchFromPR, BatchTarget;
    hide TurnLog, WorkOf, Report, VMLeft, Numbered, Ends, RoundAttempt;
  }

  lemma RoundTimers(p: Policy, s: State, sig: Signal, env: Env)
    requires StartsRound(p, s, sig, env)
    ensures var t := Step(p, s, sig, env); WindowAfter(p, s, sig, env, t) && ClockAfter(p, s, sig, env, t)
  {
    RoundMeans(p, s, sig, env);
    RoundSteps(p, s, sig, env);
    PlayedIs(s, env);
    hide Step, Played, Due, StartsRound, Answers, FreshDelivery, HitsCeiling, Detaches, Parks, Offered, ControlAfter;
    hide Work, Replies, AdmittedDeliveries, Instrs, Entries, Attaches, Fetched, Ids, Batch, BatchFromPR, BatchTarget;
    hide TurnLog, WorkOf, Report, VMLeft, Numbered, Ends, RoundAttempt;
  }

  lemma RoundLog(p: Policy, s: State, sig: Signal, env: Env)
    requires StartsRound(p, s, sig, env)
    ensures var t := Step(p, s, sig, env); LogAfter(p, s, sig, env, t)
  {
    RoundMeans(p, s, sig, env);
    RoundSteps(p, s, sig, env);
    PlayedIs(s, env);
    TurnLogIs(s.log, RoundAttempt(s, env), env.turn);
    var r := Report(RoundAttempt(s, env), env.turn);
    FinishLog(p, Played(s, env), r, Batch(s, env), BatchFromPR(s, env), BatchTarget(s, env));
    SilentSnoc(Played(s, env).log, DiscussOpen(Resume));
    hide Finished;
    hide Step, Played, Due, StartsRound, Answers, FreshDelivery, HitsCeiling, Detaches, Parks, Offered, ControlAfter;
    hide Work, Replies, AdmittedDeliveries, Instrs, Entries, Attaches, Fetched, Ids, Batch, BatchFromPR, BatchTarget;
    hide TurnLog, WorkOf, Report, VMLeft, Numbered, Ends, RoundAttempt;
  }

  lemma RoundIs(p: Policy, s: State, sig: Signal, env: Env)
    requires StartsRound(p, s, sig, env)
    ensures StepIs(p, s, sig, env, Step(p, s, sig, env))
  {
    RoundFields(p, s, sig, env);
    RoundInbox(p, s, sig, env);
    RoundTimers(p, s, sig, env);
    RoundLog(p, s, sig, env);
    hide Step, FieldsAfter, HumanAfter, InboxAfter, WindowAfter, ClockAfter, LogAfter;
  }

  // ---- a reply in a discussion ----

  function ReplyAttempt(s: State, sig: Signal, env: Env): Obs
    requires s.control.Discussing? && sig.UserMessage?
  {
    var m := if !env.proceed then s.control.mode else if s.prNumber > 0 then Resume else Execute;
    Attempt(Talk(s.control.caller.FromRound?), Cold(m), [Said(Instruction(sig.text, sig.attachments))])
  }

  lemma AnswerMeans(p: Policy, s: State, sig: Signal, env: Env)
    requires Answers(p, s, sig)
    ensures !StartsRound(p, s, sig, env) && !Closes(s, sig) && !FreshDelivery(s, sig) && !Attaches(s, sig, env)
    ensures !HitsCeiling(p, s, sig, env) && !Detaches(s, sig) && !Parks(s, sig) && Offered(p, s, sig, env) == []
    ensures Due(p, s, sig, env) == Some(ReplyAttempt(s, sig, env))
    ensures forall o :: Ends(p, s, sig, env, o) <==> Report(ReplyAttempt(s, sig, env), env.turn).outcome == o
    ensures ControlAfter(p, s, sig, env) ==
      if Report(ReplyAttempt(s, sig, env), env.turn).outcome == NeedsInput
      then (if env.proceed then Discussing(s.control.caller, Resume) else s.control) else Head
  {
    hide Instruction, Report, Batch;
  }

  // The state with the reply's turn run.
  function Replied(s: State, sig: Signal, env: Env): State
    requires s.control.Discussing? && sig.UserMessage?
  {
    Turned(Note(s, Reply(env.proceed)), ReplyAttempt(s, sig, env), env.turn)
  }

  lemma AnswerSteps(p: Policy, s: State, sig: Signal, env: Env)
    requires Answers(p, s, sig)
    ensures var u, r := Replied(s, sig, env), Report(ReplyAttempt(s, sig, env), env.turn);
      Step(p, s, sig, env) ==
        if env.proceed || r.outcome != NeedsInput then LeaveDiscussion(p, u, s.control.caller, r, env) else u
  {
    var a := ReplyAttempt(s, sig, env);
    LaunchIs(Note(s, Reply(env.proceed)), a.kind, a.how.mode, a.texts, env.turn);
    hide Instruction, LaunchWarm, RecordOutcome, Turned, LeaveDiscussion, Report, HeadStep, Note;
  }

  // Entering the review loop, spelled out.
  function Entered(p: Policy, u: State, env: Env): State {
    var n := if u.prNumber != 0 then u.prNumber else env.foundPR;
    u.(prNumber := n, control := Head,
       keepAlive := u.vm == VMRunning && p.keepAlive > 0 && !u.attached && !u.awaitingChoice,
       log := if u.prNumber != 0 then u.log else Snoc(u.log, CheckedPR(env.foundPR)))
  }

  function Left(p: Policy, u: State, caller: Caller, r: PhaseResult, env: Env): State {
    var v := u.(control := Head, log := Snoc(u.log, DiscussClose));
    if r.outcome == NeedsInput then v.(control := Discussing(caller, Resume), log := Snoc(v.log, DiscussOpen(Resume)))
    else if caller.FromStart? then Entered(p, v, env)
    else Finished(p, v, r, caller.batch, caller.fromPR, caller.replyToID)
  }

  lemma LeaveIs(p: Policy, u: State, caller: Caller, r: PhaseResult, env: Env)
    ensures LeaveDiscussion(p, u, caller, r, env) == Left(p, u, caller, r, env)
  {
    var v := u.(control := Head, log := Snoc(u.log, DiscussClose));
    if caller.FromRound? { FinishIs(p, v, r, caller.batch, caller.fromPR, caller.replyToID); }
    hide FinishRound, Finished;
  }

  lemma LeftLog(p: Policy, u: State, caller: Caller, r: PhaseResult, env: Env)
    ensures var l := Left(p, u, caller, r, env).log;
      && Work(l) == Work(u.log) && AdmittedDeliveries(l) == AdmittedDeliveries(u.log)
      && Replies(l) == Replies(u.log) +
           if caller.FromRound? && r.outcome != NeedsInput && r.outcome != AgentFailed && caller.fromPR
           then [caller.replyToID] else []
  {
    hide Work, Replies, AdmittedDeliveries;
    var v := u.(control := Head, log := Snoc(u.log, DiscussClose));
    SilentSnoc(u.log, DiscussClose);
    SilentSnoc(v.log, DiscussOpen(Resume));
    SilentSnoc(v.log, CheckedPR(env.foundPR));
    if caller.FromRound? { FinishLog(p, v, r, caller.batch, caller.fromPR, caller.replyToID); }
    hide Finished;
  }

  lemma LeftFields(p: Policy, u: State, caller: Caller, r: PhaseResult, env: Env)
    ensures var t := Left(p, u, caller, r, env);
      && t.control == (if r.outcome == NeedsInput then Discussing(caller, Resume) else Head)
      && t.vm == u.vm && t.cost == u.cost && t.reviewRound == u.reviewRound && t.ceilingReached == u.ceilingReached
      && t.attached == u.attached && t.relay == u.relay && t.awaitingChoice == u.awaitingChoice
      && t.prNumber ==
           (if caller.FromStart? && r.outcome != NeedsInput && u.prNumber == 0 then env.foundPR else u.prNumber)
  {}

  lemma LeftInbox(p: Policy, u: State, caller: Caller, r: PhaseResult, env: Env)
    ensures var t, fails := Left(p, u, caller, r, env), caller.FromRound? && r.outcome == AgentFailed;
      t.inbox ==
        if fails then u.inbox.(pending := caller.batch + u.inbox.pending, fromPR := u.inbox.fromPR || caller.fromPR)
        else u.inbox
  {}

  // All of it: what a reply leaves.
  lemma AnswerLeaves(p: Policy, s: State, sig: Signal, env: Env)
    requires Answers(p, s, sig)
    ensures var u, r := Replied(s, sig, env), Report(ReplyAttempt(s, sig, env), env.turn);
      Step(p, s, sig, env) ==
        if env.proceed || r.outcome != NeedsInput then Left(p, u, s.control.caller, r, env) else u
  {
    AnswerSteps(p, s, sig, env);
    LeaveIs(p, Replied(s, sig, env), s.control.caller, Report(ReplyAttempt(s, sig, env), env.turn), env);
    hide Step, LeaveDiscussion, Left, Replied, Report;
  }

  lemma RepliedIs(s: State, sig: Signal, env: Env)
    requires s.control.Discussing? && sig.UserMessage?
    ensures var u, a := Replied(s, sig, env), ReplyAttempt(s, sig, env);
      var r := Report(a, env.turn);
      u == s.(vm := VMLeft(s.vm, a, env.turn), cost := s.cost + r.cost, prNumber := Numbered(s.prNumber, r),
              log := TurnLog(Snoc(s.log, Reply(env.proceed)), a, env.turn))
  {
    hide ReplyAttempt, Report, TurnLog, VMLeft, Numbered;
  }

  lemma AnswerFields(p: Policy, s: State, sig: Signal, env: Env)
    requires Answers(p, s, sig)
    ensures var t := Step(p, s, sig, env); FieldsAfter(p, s, sig, env, t) && HumanAfter(s, sig, env, t)
  {
    AnswerMeans(p, s, sig, env);
    AnswerLeaves(p, s, sig, env);
    RepliedIs(s, sig, env);
    LeftFields(p, Replied(s, sig, env), s.control.caller, Report(ReplyAttempt(s, sig, env), env.turn), env);
    hide Left;
    hide Step, Replied, Due, StartsRound, Closes, FreshDelivery, HitsCeiling, Detaches, Parks, Offered, ControlAfter;
    hide Work, Replies, AdmittedDeliveries, Instrs, Entries, Attaches, TurnLog, WorkOf, Report, VMLeft, Numbered, Ends;
    hide ReplyAttempt, Instruction, Below;
  }

  lemma AnswerInbox(p: Policy, s: State, sig: Signal, env: Env)
    requires Answers(p, s, sig)
    ensures var t := Step(p, s, sig, env); InboxAfter(p, s, sig, env, t)
  {
    AnswerMeans(p, s, sig, env);
    AnswerLeaves(p, s, sig, env);
    RepliedIs(s, sig, env);
    LeftInbox(p, Replied(s, sig, env), s.control.caller, Report(ReplyAttempt(s, sig, env), env.turn), env);
    hide Left;
    InstrsOf(GitHub(""), 0);
    hide Step, Replied, Due, StartsRound, Closes, FreshDelivery, HitsCeiling, Detaches, Parks, Offered, ControlAfter;
    hide Work, Replies, AdmittedDeliveries, Instrs, Entries, Attaches, TurnLog, WorkOf, Report, VMLeft, Numbered, Ends;
    hide ReplyAttempt, Instruction, Below;
  }

  lemma AnswerTimers(p: Policy, s: State, sig: Signal, env: Env)
    requires Answers(p, s, sig)
    ensures var t := Step(p, s, sig, env); WindowAfter(p, s, sig, env, t) && ClockAfter(p, s, sig, env, t)
  {
    AnswerMeans(p, s, sig, env);
    AnswerLeaves(p, s, sig, env);
    RepliedIs(s, sig, env);
    hide Step, Replied, Due, StartsRound, Closes, FreshDelivery, HitsCeiling, Detaches, Parks, Offered, ControlAfter;
    hide Work, Replies, AdmittedDeliveries, Instrs, Entries, Attaches, TurnLog, WorkOf, Report, VMLeft, Numbered, Ends;
    hide ReplyAttempt, Instruction, Below;
  }

  lemma AnswerLog(p: Policy, s: State, sig: Signal, env: Env)
    requires Answers(p, s, sig)
    ensures var t := Step(p, s, sig, env); LogAfter(p, s, sig, env, t)
  {
    AnswerMeans(p, s, sig, env);
    AnswerLeaves(p, s, sig, env);
    RepliedIs(s, sig, env);
    var a := ReplyAttempt(s, sig, env);
    SilentSnoc(s.log, Reply(env.proceed));
    TurnLogIs(Snoc(s.log, Reply(env.proceed)), a, env.turn);
    LeftLog(p, Replied(s, sig, env), s.control.caller, Report(a, env.turn), env);
    hide Left;
    hide Step, Replied, Due, StartsRound, Closes, FreshDelivery, HitsCeiling, Detaches, Parks, Offered, ControlAfter;
    hide Work, Replies, AdmittedDeliveries, Instrs, Entries, Attaches, TurnLog, WorkOf, Report, VMLeft, Numbered, Ends;
    hide ReplyAttempt, Instruction, Below;
  }

  lemma AnswerIs(p: Policy, s: State, sig: Signal, env: Env)
    requires Answers(p, s, sig)
    ensures StepIs(p, s, sig, env, Step(p, s, sig, env))
  {
    AnswerFields(p, s, sig, env);
    AnswerInbox(p, s, sig, env);
    AnswerTimers(p, s, sig, env);
    AnswerLog(p, s, sig, env);
    hide Step, FieldsAfter, HumanAfter, InboxAfter, WindowAfter, ClockAfter, LogAfter;
  }

  // Anything else in a discussion ends the session, is turned down at the ceiling, or waits.
  lemma IdleTalkMeans(p: Policy, s: State, sig: Signal, env: Env)
    requires s.control.Discussing? && !Answers(p, s, sig)
    ensures Due(p, s, sig, env).None? && !StartsRound(p, s, sig, env) && !Closes(s, sig) && !FreshDelivery(s, sig)
    ensures !Attaches(s, sig, env) && !Detaches(s, sig) && !Parks(s, sig) && Offered(p, s, sig, env) == []
    ensures HitsCeiling(p, s, sig, env) ==> sig.UserMessage?
    ensures ControlAfter(p, s, sig, env) ==
      if sig.Abort? then Done(Aborted(if sig.reason == "" then "aborted" else sig.reason))
      else if sig.HardTTL? then Done(Aborted("hard_ttl")) else s.control
  {
    hide Instruction, Batch;
  }

  lemma IdleTalkSteps(p: Policy, s: State, sig: Signal, env: Env)
    requires s.control.Discussing? && !Answers(p, s, sig)
    ensures Step(p, s, sig, env) ==
      if sig.Abort? || sig.HardTTL? then
        var reason := if sig.HardTTL? then "hard_ttl" else if sig.reason == "" then "aborted" else sig.reason;
        s.(control := Done(Aborted(reason)), vm := VMDestroyed, log := Snoc(s.log, Stopped))
      else if HitsCeiling(p, s, sig, env) then s.(ceilingReached := true) else s
  {
    hide Instruction, Answer, HeadStep, Batch;
  }

  lemma IdleTalkHuman(p: Policy, s: State, sig: Signal, env: Env)
    requires s.control.Discussing? && !Answers(p, s, sig)
    ensures HumanAfter(s, sig, env, Step(p, s, sig, env))
  {
    IdleTalkMeans(p, s, sig, env);
    IdleTalkSteps(p, s, sig, env);
    hide Step, Due, StartsRound, Closes, FreshDelivery, HitsCeiling, Detaches, Parks, Offered, Attaches, Answers;
    hide ControlAfter, Report, VMLeft, Numbered, Below, Instruction, Batch, Ends;
  }

  lemma IdleTalkFields(p: Policy, s: State, sig: Signal, env: Env)
    requires s.control.Discussing? && !Answers(p, s, sig)
    ensures FieldsAfter(p, s, sig, env, Step(p, s, sig, env))
  {
    IdleTalkMeans(p, s, sig, env);
    IdleTalkSteps(p, s, sig, env);
    hide Step, Due, StartsRound, Closes, FreshDelivery, HitsCeiling, Detaches, Parks, Offered, Attaches, Answers;
    hide ControlAfter, Report, VMLeft, Numbered, Below, Instruction, Batch, Ends;
    var t := Step(p, s, sig, env);
    assert t.control == ControlAfter(p, s, sig, env);
    if sig.Abort? || sig.HardTTL? {
      assert t.control.Done? && t.vm == VMDestroyed;
    } else {
      assert t.control == s.control && t.vm == s.vm;
    }
  }

  // An inbox that a step leaves alone.
  lemma NothingTaken(p: Policy, s: State, sig: Signal, env: Env, t: State)
    requires t.inbox == s.inbox && Offered(p, s, sig, env) == []
    requires !StartsRound(p, s, sig, env) && !Answers(p, s, sig) && !Closes(s, sig) && !FreshDelivery(s, sig)
    ensures InboxAfter(p, s, sig, env, t)
  {
    InstrsOf(GitHub(""), 0);
    hide Offered, StartsRound, Answers, Closes, FreshDelivery, Entries, Instrs, Ends, Batch, BatchFromPR, BatchTarget;
  }

  lemma IdleTalkInbox(p: Policy, s: State, sig: Signal, env: Env)
    requires s.control.Discussing? && !Answers(p, s, sig)
    ensures InboxAfter(p, s, sig, env, Step(p, s, sig, env))
  {
    IdleTalkMeans(p, s, sig, env);
    IdleTalkSteps(p, s, sig, env);
    hide Step, Offered, StartsRound, Answers, Closes, FreshDelivery, InboxAfter, HitsCeiling, Due;
    NothingTaken(p, s, sig, env, Step(p, s, sig, env));
  }

  lemma IdleTalkTimers(p: Policy, s: State, sig: Signal, env: Env)
    requires s.control.Discussing? && !Answers(p, s, sig)
    ensures var t := Step(p, s, sig, env); WindowAfter(p, s, sig, env, t) && ClockAfter(p, s, sig, env, t)
  {
    IdleTalkMeans(p, s, sig, env);
    IdleTalkSteps(p, s, sig, env);
    hide Step, Due, StartsRound, Closes, FreshDelivery, HitsCeiling, Detaches, Parks, Offered, Attaches, Answers;
    hide ControlAfter;
    hide Work, Replies, AdmittedDeliveries, Instrs, Entries;
  }

  lemma IdleTalkLog(p: Policy, s: State, sig: Signal, env: Env)
    requires s.control.Discussing? && !Answers(p, s, sig)
    ensures var t := Step(p, s, sig, env); LogAfter(p, s, sig, env, t)
  {
    IdleTalkMeans(p, s, sig, env);
    IdleTalkSteps(p, s, sig, env);
    SilentSnoc(s.log, Stopped);
    hide Step, Due, StartsRound, Closes, FreshDelivery, HitsCeiling, Detaches, Parks, Offered, Attaches, Answers;
    hide Work, Replies, AdmittedDeliveries, Instrs, Entries;
  }

  lemma IdleTalkIs(p: Policy, s: State, sig: Signal, env: Env)
    requires s.control.Discussing? && !Answers(p, s, sig)
    ensures StepIs(p, s, sig, env, Step(p, s, sig, env))
  {
    IdleTalkFields(p, s, sig, env);
    IdleTalkHuman(p, s, sig, env);
    IdleTalkInbox(p, s, sig, env);
    IdleTalkTimers(p, s, sig, env);
    IdleTalkLog(p, s, sig, env);
    hide Step, FieldsAfter, HumanAfter, InboxAfter, WindowAfter, ClockAfter, LogAfter;
  }

  lemma DoneMeans(p: Policy, s: State, sig: Signal, env: Env)
    requires s.control.Done?
    ensures Step(p, s, sig, env) == s && ControlAfter(p, s, sig, env) == s.control
    ensures Due(p, s, sig, env).None? && !StartsRound(p, s, sig, env) && !Closes(s, sig) && !FreshDelivery(s, sig)
    ensures !Attaches(s, sig, env) && !Detaches(s, sig) && !Parks(s, sig) && Offered(p, s, sig, env) == []
    ensures !HitsCeiling(p, s, sig, env) && !Answers(p, s, sig)
  {
    hide HeadStep, Discuss, Batch, Instruction;
  }

  lemma DoneFields(p: Policy, s: State, sig: Signal, env: Env)
    requires s.control.Done?
    ensures var t := Step(p, s, sig, env); FieldsAfter(p, s, sig, env, t) && HumanAfter(s, sig, env, t)
  {
    DoneMeans(p, s, sig, env);
    hide Step, Due, StartsRound, Closes, FreshDelivery, HitsCeiling, Detaches, Parks, Offered, Attaches, Answers;
    hide ControlAfter, Work, Replies, AdmittedDeliveries, Instrs, Entries;
  }

  lemma DoneInbox(p: Policy, s: State, sig: Signal, env: Env)
    requires s.control.Done?
    ensures InboxAfter(p, s, sig, env, Step(p, s, sig, env))
  {
    DoneMeans(p, s, sig, env);
    hide Step, Offered, StartsRound, Answers, Closes, FreshDelivery, InboxAfter, HitsCeiling, Due, ControlAfter;
    NothingTaken(p, s, sig, env, s);
  }

  lemma DoneTimers(p: Policy, s: State, sig: Signal, env: Env)
    requires s.control.Done?
    ensures var t := Step(p, s, sig, env);
      WindowAfter(p, s, sig, env, t) && ClockAfter(p, s, sig, env, t) && LogAfter(p, s, sig, env, t)
  {
    DoneMeans(p, s, sig, env);
    hide Step, Due, StartsRound, Closes, FreshDelivery, HitsCeiling, Detaches, Parks, Offered, Attaches, Answers;
    hide ControlAfter, Work, Replies, AdmittedDeliveries, Instrs, Entries;
  }

  lemma DoneIs(p: Policy, s: State, sig: Signal, env: Env)
    requires s.control.Done?
    ensures StepIs(p, s, sig, env, Step(p, s, sig, env))
  {
    DoneFields(p, s, sig, env);
    DoneInbox(p, s, sig, env);
    DoneTimers(p, s, sig, env);
    hide Step, FieldsAfter, HumanAfter, InboxAfter, WindowAfter, ClockAfter, LogAfter;
  }

  // One step of the session, from any state, on any signal, whatever its activities return.
  lemma StepDoes(p: Policy, s: State, sig: Signal, env: Env)
    ensures StepIs(p, s, sig, env, Step(p, s, sig, env))
  {
    if s.control.Done? {
      DoneIs(p, s, sig, env);
    } else if s.control.Discussing? {
      if Answers(p, s, sig) { AnswerIs(p, s, sig, env); } else { IdleTalkIs(p, s, sig, env); }
    } else if sig.CoalesceTimer? {
      if StartsRound(p, s, sig, env) { RoundIs(p, s, sig, env); } else { IdleWindowIs(p, s, sig, env); }
    } else if Attaches(s, sig, env) {
      AttachingIs(p, s, sig, env);
    } else {
      PlainStepIs(p, s, sig, env);
    }
    hide Step, StepIs, Answers, StartsRound, Attaches;
  }
}
