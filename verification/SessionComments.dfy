/** What every run of the session step machine keeps, part three: each GitHub comment is acted on at
    most once, none is lost once fetched, and deliveries are deduped over a bounded window. */
module SessionComments {
  import opened Protocol
  import opened Session
  import opened SessionLog
  import Dedupe

  // A GitHub id contributes at most one instruction, and only once it is marked seen.
  ghost predicate AtMostOnce(b: Inbox, id: int) {
    Contributions(b.accepted, id) <= if id in b.seenComments then 1 else 0
  }

  // `actionable` says of each GitHub id whether its entry asks for a change. An input is honest when
  // what it carries agrees, by webhook and by fetch alike.
  ghost predicate Honest(actionable: int -> bool, sig: Signal, env: Env) {
    && (sig.ReviewComment? ==> actionable(sig.commentID))
    && (sig.ReviewSubmitted? ==> actionable(sig.reviewID) == sig.changesRequested)
    && (env.thread.Some? ==> forall c :: c in env.thread.value ==> actionable(c.id) == ActionableEntry(c))
  }

  // A seen id contributed exactly one instruction if it asks for a change and none otherwise.
  ghost predicate ExactlyOnce(actionable: int -> bool, b: Inbox, id: int) {
    Contributions(b.accepted, id) == if id in b.seenComments && actionable(id) then 1 else 0
  }

  ghost predicate Deliveries(s: State) {
    Dedupe.Windows(s.seen, 500, AdmittedDeliveries(s.log))
  }

  // The reply target is an id whose comment was accepted.
  ghost predicate ReplyTarget(b: Inbox) {
    b.replyToID != 0 ==> b.replyToID in b.seenComments && Contributions(b.accepted, b.replyToID) >= 1
  }

  // ---- steps that take in nothing ----

  ghost predicate TakesNothing(s: State, t: State) {
    && t.inbox.accepted == s.inbox.accepted && t.inbox.seenComments == s.inbox.seenComments
    && (t.inbox.replyToID == s.inbox.replyToID || t.inbox.replyToID == 0)
    && t.seen == s.seen && AdmittedDeliveries(t.log) == AdmittedDeliveries(s.log)
  }

  lemma NoDelivery(l: Log, o: Obs)
    requires !o.Admitted?
    ensures AdmittedDeliveries(Snoc(l, o)) == AdmittedDeliveries(l)
  {}

  lemma SettleTakesNothing(s: State, kind: TurnKind, t: TurnResult)
    ensures var (u, r) := AwaitAndSettle(s, kind, t); TakesNothing(s, RecordOutcome(u, r))
  {
    hide AdmittedDeliveries;
    var heard := Turn(kind, Heard(t), t.prCreated);
    NoDelivery(s.log, heard);
    NoDelivery(Snoc(s.log, heard), Stopped);
  }

  lemma TurnTakesNothing(s: State, kind: TurnKind, mode: Mode, texts: seq<Instr>, t: TurnResult)
    ensures var (u, r) := LaunchWarm(s, kind, mode, texts, t); TakesNothing(s, RecordOutcome(u, r))
    ensures var (u, r) := WarmTurn(s, kind, texts, t); TakesNothing(s, RecordOutcome(u, r))
  {
    hide AwaitAndSettle, AdmittedDeliveries;
    NoDelivery(s.log, Attempt(kind, Warm, texts));
    SettleTakesNothing(Note(s, Attempt(kind, Warm, texts)), kind, t);
    var s1 := Note(s, Attempt(kind, Cold(mode), texts));
    NoDelivery(s.log, Attempt(kind, Cold(mode), texts));
    NoDelivery(s1.log, Launched(mode));
    SettleTakesNothing(s1.(vm := VMRunning, log := Snoc(s1.log, Launched(mode))), kind, t);
  }

  lemma FinishTakesNothing(p: Policy, s: State, r: PhaseResult, batch: seq<Instr>, fromPR: bool, replyToID: int)
    ensures TakesNothing(s, FinishRound(p, s, r, batch, fromPR, replyToID))
  {
    hide AdmittedDeliveries;
    NoDelivery(s.log, RoundDone(true));
    NoDelivery(s.log, RoundDone(false));
    NoDelivery(s.log, PRReply(replyToID));
    NoDelivery(Snoc(s.log, PRReply(replyToID)), RoundDone(false));
  }

  lemma EnterTakesNothing(p: Policy, s: State, caller: Caller, mode: Mode, env: Env)
    ensures TakesNothing(s, EnterLoop(p, s, env)) && TakesNothing(s, EnterDiscussion(s, caller, mode))
  {
    hide AdmittedDeliveries;
    NoDelivery(s.log, DiscussOpen(mode));
    NoDelivery(s.log, CheckedPR(env.foundPR));
  }

  lemma LeaveTakesNothing(p: Policy, s: State, caller: Caller, r: PhaseResult, env: Env)
    ensures TakesNothing(s, LeaveDiscussion(p, s, caller, r, env))
  {
    hide AdmittedDeliveries, FinishRound, EnterLoop, EnterDiscussion;
    var s1 := s.(control := Head, log := Snoc(s.log, DiscussClose));
    NoDelivery(s.log, DiscussClose);
    EnterTakesNothing(p, s1, caller, Resume, env);
    if caller.FromRound? { FinishTakesNothing(p, s1, r, caller.batch, caller.fromPR, caller.replyToID); }
  }

  lemma Chain(s: State, t: State, u: State)
    requires TakesNothing(s, t) && TakesNothing(t, u)
    ensures TakesNothing(s, u)
  {}

  lemma AnswerTakesNothing(p: Policy, s: State, caller: Caller, mode: Mode, i: string, env: Env)
    ensures TakesNothing(s, Answer(p, s, caller, mode, i, env))
  {
    hide LaunchWarm, LeaveDiscussion, RecordOutcome;
    var s1 := Note(s, Reply(env.proceed));
    assert TakesNothing(s, s1) by {
      hide AdmittedDeliveries;
      NoDelivery(s.log, Reply(env.proceed));
    }
    hide TakesNothing;
    var m := if !env.proceed then mode else if s.prNumber > 0 then Resume else Execute;
    TurnTakesNothing(s1, Talk(caller.FromRound?), m, [Said(i)], env.turn);
    var (s2, r) := LaunchWarm(s1, Talk(caller.FromRound?), m, [Said(i)], env.turn);
    LeaveTakesNothing(p, RecordOutcome(s2, r), caller, r, env);
    Chain(s, s1, RecordOutcome(s2, r));
    Chain(s, RecordOutcome(s2, r), LeaveDiscussion(p, RecordOutcome(s2, r), caller, r, env));
  }

  lemma DiscussTakesNothing(p: Policy, s: State, caller: Caller, mode: Mode, sig: Signal, env: Env)
    ensures TakesNothing(s, Discuss(p, s, caller, mode, sig, env))
  {
    hide Answer, AdmittedDeliveries, CeilingHit, Instruction;
    NoDelivery(s.log, Stopped);
    if sig.UserMessage? {
      AnswerTakesNothing(p, s, caller, mode, Instruction(sig.text, sig.attachments), env);
    }
  }

  lemma RoundTurnTakesNothing(s: State, batch: seq<Instr>, t: TurnResult)
    ensures var (u, r) := RoundTurn(TakeBatch(s), batch, t); TakesNothing(s, RecordOutcome(u, r))
  {
    assert TakesNothing(s, TakeBatch(s));
    TurnTakesNothing(TakeBatch(s), Round, Resume, batch, t);
    hide TakesNothing, TakeBatch, LaunchWarm, WarmTurn, RecordOutcome;
    var (u, r) := RoundTurn(TakeBatch(s), batch, t);
    Chain(s, TakeBatch(s), RecordOutcome(u, r));
  }

  lemma RoundTakesNothing(p: Policy, s: State, env: Env)
    ensures TakesNothing(s, StartRound(p, s, env))
  {
    hide TakesNothing, RoundTurn, TakeBatch, RecordOutcome, FinishRound, EnterDiscussion;
    var batch, fromPR, replyToID := s.inbox.pending, s.inbox.fromPR, s.inbox.replyToID;
    RoundTurnTakesNothing(s, batch, env.turn);
    var (u, r) := RoundTurn(TakeBatch(s), batch, env.turn);
    var t := RecordOutcome(u, r);
    EnterTakesNothing(p, t, FromRound(batch, fromPR, replyToID), Resume, env);
    FinishTakesNothing(p, t, r, batch, fromPR, replyToID);
    Chain(s, t, StartRound(p, s, env));
  }

  lemma WindowFolds(p: Policy, s: State, env: Env)
    ensures TakesNothing(if s.prNumber > 0 && env.thread.Some?
                         then s.(inbox := FoldThread(s.inbox, env.thread.value)) else s,
                         CloseWindow(p, s, env))
  {
    hide AdmittedDeliveries, StartRound, FoldThread;
    RoundTakesNothing(p, Gather(s, env), env);
  }

  lemma AttachTakesNothing(s: State, env: Env)
    ensures TakesNothing(s, AttachHuman(s, env))
  {
    hide AdmittedDeliveries, LaunchWarm, RecordOutcome;
    TurnTakesNothing(s.(attached := true), Wake, Resume, [], env.turn);
  }

  // ---- steps that take in feedback ----

  lemma {:induction false} FoldAtMostOnce(b: Inbox, thread: seq<ThreadComment>, id: int)
    requires id != 0 && AtMostOnce(b, id)
    ensures AtMostOnce(FoldThread(b, thread), id)
    decreases thread
  {
    if thread != [] { FoldAtMostOnce(FoldEntry(b, thread[0]), thread[1..], id); }
  }

  lemma {:induction false} FoldExactlyOnce(actionable: int -> bool, b: Inbox, thread: seq<ThreadComment>, id: int)
    requires id != 0 && ExactlyOnce(actionable, b, id)
    requires forall c :: c in thread ==> actionable(c.id) == ActionableEntry(c)
    ensures ExactlyOnce(actionable, FoldThread(b, thread), id)
    ensures id in b.seenComments || (exists c :: c in thread && c.id == id) ==> id in FoldThread(b, thread).seenComments
    decreases thread
  {
    if thread != [] { FoldExactlyOnce(actionable, FoldEntry(b, thread[0]), thread[1..], id); }
  }

  lemma {:induction false} FoldReplyTarget(b: Inbox, thread: seq<ThreadComment>)
    requires ReplyTarget(b)
    ensures ReplyTarget(FoldThread(b, thread))
    decreases thread
  {
    if thread != [] { FoldReplyTarget(FoldEntry(b, thread[0]), thread[1..]); }
  }

  lemma DedupeKeepsWindow(s: State, delivery: string)
    requires Deliveries(s)
    ensures Deliveries(DedupeDelivery(s, delivery).0)
    ensures DedupeDelivery(s, delivery).0.inbox == s.inbox
    ensures DedupeDelivery(s, delivery).1 <==>
      delivery == "" || delivery in Dedupe.LastN(AdmittedDeliveries(s.log), MAX_SEEN_DELIVERIES)
  {
    hide Dedupe.Windows, Dedupe.See, Dedupe.LastN;
    Dedupe.SeeKeepsWindow(s.seen, MAX_SEEN_DELIVERIES, AdmittedDeliveries(s.log), delivery);
  }

  // One comment or review webhook, or one message of the operator, as an inbox update.
  ghost function TakenIn(p: Policy, s: State, sig: Signal, env: Env): Inbox
    requires s.control == Head
  {
    var b := s.inbox;
    match sig
    case ReviewComment(d, id, inline, text) =>
      if DedupeDelivery(s, d).1 || (id != 0 && id in b.seenComments) then b
      else
        var c := MarkSeen(PushFromPR(b, GitHub(text), id), id);
        if id != 0 && inline then c.(replyToID := id) else c
    case ReviewSubmitted(d, id, asks, text) =>
      if DedupeDelivery(s, d).1 || (id != 0 && id in b.seenComments) then b
      else if asks then PushFromPR(MarkSeen(b, id), GitHub(text), id) else MarkSeen(b, id)
    case CIStatus(d, failure, url) =>
      if DedupeDelivery(s, d).1 || !failure || !p.autoFixCI then b else PushFromPR(b, CIFailure(url), 0)
    case UserMessage(text, attachments) =>
      var i := Instruction(text, attachments);
      if s.awaitingChoice then Push(b, EditDecision(i), 0)
      else if (text == "" || env.intent == AsMessage) && !s.attached && i != "" then Push(b, Said(i), 0)
      else b
    case CoalesceTimer =>
      if s.coalesce && s.prNumber > 0 && env.thread.Some? then FoldThread(b, env.thread.value) else b
    case _ => b
  }

  ghost predicate InboxIs(b: Inbox, t: State) {
    && t.inbox.accepted == b.accepted && t.inbox.seenComments == b.seenComments
    && (t.inbox.replyToID == b.replyToID || t.inbox.replyToID == 0)
  }

  lemma GitHubTakesIn(p: Policy, s: State, sig: Signal, env: Env)
    requires s.control == Head && Deliveries(s)
    requires sig.ReviewComment? || sig.ReviewSubmitted? || sig.CIStatus? || sig.PRClosed?
    ensures var t := HeadStep(p, s, sig, env); InboxIs(TakenIn(p, s, sig, env), t) && Deliveries(t)
  {
    hide DedupeDelivery, Dedupe.Windows, AdmittedDeliveries, PushFromPR, MarkSeen;
    DedupeKeepsWindow(s, sig.delivery);
    NoDelivery(DedupeDelivery(s, sig.delivery).0.log, Stopped);
  }

  lemma HumanTakesIn(p: Policy, s: State, sig: Signal, env: Env)
    requires s.control == Head && Deliveries(s) && (sig.UserMessage? || sig.Attach?)
    ensures var t := HeadStep(p, s, sig, env); InboxIs(TakenIn(p, s, sig, env), t) && Deliveries(t)
  {
    hide AttachHuman, Dedupe.Windows, AdmittedDeliveries, Push, Instruction;
    AttachTakesNothing(s, env);
  }

  lemma WindowTakesIn(p: Policy, s: State, env: Env)
    requires s.control == Head && Deliveries(s)
    ensures var t := HeadStep(p, s, CoalesceTimer, env);
      InboxIs(TakenIn(p, s, CoalesceTimer, env), t) && Deliveries(t)
  {
    hide CloseWindow, Dedupe.Windows, FoldThread, AdmittedDeliveries;
    WindowFolds(p, s, env);
  }

  lemma HeadTakesIn(p: Policy, s: State, sig: Signal, env: Env)
    requires s.control == Head && Deliveries(s)
    ensures var t := HeadStep(p, s, sig, env); InboxIs(TakenIn(p, s, sig, env), t) && Deliveries(t)
  {
    if sig.ReviewComment? || sig.ReviewSubmitted? || sig.CIStatus? || sig.PRClosed? {
      GitHubTakesIn(p, s, sig, env);
      hide HeadStep, TakenIn, InboxIs, Deliveries;
    } else if sig.UserMessage? || sig.Attach? {
      HumanTakesIn(p, s, sig, env);
      hide HeadStep, TakenIn, InboxIs, Deliveries;
    } else if sig.CoalesceTimer? {
      WindowTakesIn(p, s, env);
      hide HeadStep, TakenIn, InboxIs, Deliveries;
    } else {
      hide Dedupe.Windows, AdmittedDeliveries;
      NoDelivery(s.log, Stopped);
    }
  }

  // ---- one step ----

  lemma CommentsStep(p: Policy, s: State, sig: Signal, env: Env, id: int)
    requires id != 0 && AtMostOnce(s.inbox, id) && Deliveries(s) && ReplyTarget(s.inbox)
    ensures var t := Step(p, s, sig, env);
      AtMostOnce(t.inbox, id) && Deliveries(t) && ReplyTarget(t.inbox)
  {
    hide HeadStep, Discuss, Dedupe.Windows, FoldThread;
    match s.control
    case Discussing(caller, mode) =>
      DiscussTakesNothing(p, s, caller, mode, sig, env);
    case Head =>
      HeadTakesIn(p, s, sig, env);
      if sig.CoalesceTimer? && env.thread.Some? {
        FoldAtMostOnce(s.inbox, env.thread.value, id);
        FoldReplyTarget(s.inbox, env.thread.value);
      }
    case Done(_) =>
  }

  lemma ExactStep(actionable: int -> bool, p: Policy, s: State, sig: Signal, env: Env, id: int)
    requires id != 0 && ExactlyOnce(actionable, s.inbox, id) && Deliveries(s) && Honest(actionable, sig, env)
    ensures ExactlyOnce(actionable, Step(p, s, sig, env).inbox, id)
  {
    hide HeadStep, Discuss, Deliveries, FoldThread;
    match s.control
    case Discussing(caller, mode) => DiscussTakesNothing(p, s, caller, mode, sig, env);
    case Head =>
      HeadTakesIn(p, s, sig, env);
      if sig.CoalesceTimer? && env.thread.Some? {
        FoldExactlyOnce(actionable, s.inbox, env.thread.value, id);
      }
    case Done(_) =>
  }
}
