/** What every run of the session step machine keeps, part one: timers, the human freeze, and the
    feedback that flows through the pending batch. */
module SessionLaws {
  import opened Protocol
  import opened Session
  import opened SessionLog
  import Dedupe

  ghost predicate TimersInv(p: Policy, s: State) {
    match s.control
    case Done(_) => true
    case Discussing(caller, _) =>
      && s.vm != VMRunning && !Frozen(s) && !s.relay && s.inbox.pending == [] && !s.coalesce
      && (caller.FromRound? ==> caller.batch != [])
    case Head =>
      && (s.inbox.pending != [] ==> s.coalesce || Frozen(s) || s.ceilingReached)
      && (s.coalesce ==> s.inbox.pending != [])
      && (s.attached <==> s.relay)
      && (s.keepAlive ==> s.vm == VMRunning && p.keepAlive > 0 && !Frozen(s))
      && (s.vm == VMRunning && p.keepAlive > 0 && !Frozen(s) && s.inbox.pending == [] ==> s.keepAlive)
  }

  // The batch a paused round holds while its discussion is open.
  function InFlight(c: Control): seq<Instr> {
    if c.Discussing? && c.caller.FromRound? then c.caller.batch else []
  }

  ghost predicate FeedbackInv(s: State) {
    && (s.control.Discussing? && s.control.caller.FromRound? ==> InFlight(s.control) == LastBatch(s.log))
    && (!s.control.Done? ==>
          DeliveredFeedback(s.log) + InFlight(s.control) + s.inbox.pending == AcceptedFeedback(s.inbox.accepted))
  }

  ghost predicate LoopInv(p: Policy, s: State) {
    TimersInv(p, s) && FeedbackInv(s)
  }

  // ---- one agent turn ----

  // A turn touches only the VM and the history; it leaves the VM warm exactly when it pushed or
  // opened a PR, and it closes no round.
  ghost predicate TurnShape(s: State, u: State, r: PhaseResult) {
    && u == s.(vm := u.vm, log := u.log)
    && (Settled(r) <==> u.vm == VMRunning)
    && DeliveredFeedback(u.log) == DeliveredFeedback(s.log)
  }

  lemma SettleShape(s: State, kind: TurnKind, t: TurnResult)
    ensures var (u, r) := AwaitAndSettle(s, kind, t);
      TurnShape(s, u, r) && LastBatch(u.log) == LastBatch(s.log)
  {}

  lemma ColdTurnShape(s: State, kind: TurnKind, mode: Mode, texts: seq<Instr>, t: TurnResult)
    requires s.vm != VMRunning
    ensures var (u, r) := LaunchWarm(s, kind, mode, texts, t);
      TurnShape(s, u, r) && LastBatch(u.log) == if kind == Round then texts else LastBatch(s.log)
  {
    hide AwaitAndSettle;
    var s1 := Note(s, Attempt(kind, Cold(mode), texts));
    assert LastBatch(s1.log) == if kind == Round then texts else LastBatch(s.log);
    assert DeliveredFeedback(s1.log) == DeliveredFeedback(s.log);
    SettleShape(s1.(vm := VMRunning, log := Snoc(s1.log, Launched(mode))), kind, t);
  }

  lemma WarmTurnShape(s: State, kind: TurnKind, texts: seq<Instr>, t: TurnResult)
    ensures var (u, r) := WarmTurn(s, kind, texts, t);
      TurnShape(s, u, r) && LastBatch(u.log) == if kind == Round then texts else LastBatch(s.log)
  {
    hide AwaitAndSettle;
    SettleShape(Note(s, Attempt(kind, Warm, texts)), kind, t);
  }

  // ---- transitions ----

  lemma LoopStart(p: Policy, env: Env)
    ensures LoopInv(p, Start(p, env))
  {
    hide LaunchWarm;
    ColdTurnShape(FRESH, First, if p.planFirst then Plan else Initial, [], env.turn);
  }

  // Between a round's turn and its end: the batch is out of the inbox and nothing else is pending.
  ghost predicate MidRound(s: State, batch: seq<Instr>) {
    && !Frozen(s) && !s.relay && s.inbox.pending == [] && !s.coalesce && batch != []
    && LastBatch(s.log) == batch
    && DeliveredFeedback(s.log) + batch == AcceptedFeedback(s.inbox.accepted)
  }

  lemma LoopFinish(p: Policy, s: State, r: PhaseResult, batch: seq<Instr>, fromPR: bool, replyToID: int)
    requires s.control == Head && MidRound(s, batch)
    ensures LoopInv(p, FinishRound(p, s, r, batch, fromPR, replyToID))
  {
    assert batch + s.inbox.pending == batch;
  }

  lemma LoopLeave(p: Policy, s: State, caller: Caller, r: PhaseResult, env: Env)
    requires !Frozen(s) && !s.relay && s.inbox.pending == [] && !s.coalesce
    requires caller.FromRound? ==> MidRound(s, caller.batch)
    requires caller.FromStart? ==> DeliveredFeedback(s.log) == AcceptedFeedback(s.inbox.accepted)
    requires !Settled(r) ==> s.vm != VMRunning
    ensures LoopInv(p, LeaveDiscussion(p, s, caller, r, env))
  {
    hide FinishRound;
    var d := DeliveredFeedback(s.log);
    var s1 := s.(control := Head, log := Snoc(s.log, DiscussClose));
    assert DeliveredFeedback(s1.log) == d && LastBatch(s1.log) == LastBatch(s.log);
    assert d + [] + [] == d;
    if caller.FromRound? { assert d + caller.batch + [] == d + caller.batch; }
    if r.outcome != NeedsInput && caller.FromRound? {
      LoopFinish(p, s1, r, caller.batch, caller.fromPR, caller.replyToID);
    }
  }

  lemma LoopAnswer(p: Policy, s: State, i: string, env: Env)
    requires LoopInv(p, s) && s.control.Discussing?
    ensures LoopInv(p, Answer(p, s, s.control.caller, s.control.mode, i, env))
  {
    hide LaunchWarm, LeaveDiscussion;
    var caller := s.control.caller;
    var s1 := Note(s, Reply(env.proceed));
    var mode := if !env.proceed then s.control.mode else if s.prNumber > 0 then Resume else Execute;
    ColdTurnShape(s1, Talk(caller.FromRound?), mode, [Said(i)], env.turn);
    var (s2, r) := LaunchWarm(s1, Talk(caller.FromRound?), mode, [Said(i)], env.turn);
    assert InFlight(s.control) + s.inbox.pending == InFlight(s.control);
    LoopLeave(p, RecordOutcome(s2, r), caller, r, env);
  }

  lemma LoopDiscuss(p: Policy, s: State, sig: Signal, env: Env)
    requires LoopInv(p, s) && s.control.Discussing?
    ensures LoopInv(p, Discuss(p, s, s.control.caller, s.control.mode, sig, env))
  {
    hide Answer;
    if sig.UserMessage? { LoopAnswer(p, s, Instruction(sig.text, sig.attachments), env); }
  }

  // A round that pauses for direction opens a discussion holding its batch.
  lemma LoopPause(p: Policy, s: State, caller: Caller)
    requires s.control == Head && s.vm != VMRunning && caller.FromRound? && MidRound(s, caller.batch)
    ensures LoopInv(p, EnterDiscussion(s, caller, Resume))
  {
    var d := DeliveredFeedback(s.log);
    assert d + caller.batch + [] == d + caller.batch;
  }

  // A round's turn leaves the loop mid-round: its batch is the last one handed out.
  lemma LoopMidRound(s: State, env: Env)
    requires s.control == Head && s.inbox.pending != [] && !Frozen(s) && !s.relay && !s.coalesce && FeedbackInv(s)
    ensures var batch := s.inbox.pending;
      var s1 := TakeBatch(s);
      var (s2, r) := RoundTurn(s1, batch, env.turn);
      && RecordOutcome(s2, r).control == Head && MidRound(RecordOutcome(s2, r), batch)
      && (RecordOutcome(s2, r).vm == VMRunning <==> Settled(r))
  {
    hide LaunchWarm, WarmTurn;
    var batch := s.inbox.pending;
    var s1 := TakeBatch(s);
    if s.vm == VMRunning {
      WarmTurnShape(s1, Round, batch, env.turn);
    } else {
      ColdTurnShape(s1, Round, Resume, batch, env.turn);
    }
  }

  lemma LoopAfterRound(p: Policy, t: State, r: PhaseResult, batch: seq<Instr>, fromPR: bool, replyToID: int)
    requires t.control == Head && MidRound(t, batch) && (t.vm == VMRunning <==> Settled(r))
    ensures LoopInv(p, if r.outcome == NeedsInput then EnterDiscussion(t, FromRound(batch, fromPR, replyToID), Resume)
                       else FinishRound(p, t, r, batch, fromPR, replyToID))
  {
    hide MidRound, LoopInv, FinishRound, EnterDiscussion;
    if r.outcome == NeedsInput {
      LoopPause(p, t, FromRound(batch, fromPR, replyToID));
    } else {
      LoopFinish(p, t, r, batch, fromPR, replyToID);
    }
  }

  lemma LoopRound(p: Policy, s: State, env: Env)
    requires s.control == Head && s.inbox.pending != [] && !Frozen(s) && !s.relay && !s.coalesce && FeedbackInv(s)
    ensures LoopInv(p, StartRound(p, s, env))
  {
    var batch, fromPR, replyToID := s.inbox.pending, s.inbox.fromPR, s.inbox.replyToID;
    LoopMidRound(s, env);
    hide RoundTurn, TakeBatch, FinishRound, RecordOutcome, EnterDiscussion, MidRound, LoopInv, FeedbackInv, Settled;
    var s1 := TakeBatch(s);
    var (s2, r) := RoundTurn(s1, batch, env.turn);
    LoopAfterRound(p, RecordOutcome(s2, r), r, batch, fromPR, replyToID);
  }

  lemma {:induction false} FoldThreadKeepsFeedback(b: Inbox, thread: seq<ThreadComment>, d: seq<Instr>)
    requires d + b.pending == AcceptedFeedback(b.accepted)
    ensures var c := FoldThread(b, thread);
      d + c.pending == AcceptedFeedback(c.accepted) && (b.pending != [] ==> c.pending != [])
    decreases thread
  {
    if thread != [] {
      var i := GitHub(thread[0].text);
      assert d + (b.pending + [i]) == (d + b.pending) + [i];
      FoldThreadKeepsFeedback(FoldEntry(b, thread[0]), thread[1..], d);
    }
  }

  lemma LoopWindow(p: Policy, s: State, env: Env)
    requires LoopInv(p, s) && s.control == Head && s.coalesce
    ensures LoopInv(p, CloseWindow(p, s, env))
  {
    hide StartRound;
    var d := DeliveredFeedback(s.log);
    assert d + [] == d;
    if env.thread.Some? { FoldThreadKeepsFeedback(s.inbox, env.thread.value, d); }
    var s1 := Gather(s, env);
    if s1.inbox.pending != [] && !Frozen(s1) && !CeilingHit(p, s1) { LoopRound(p, s1, env); }
  }

  lemma LoopAttach(p: Policy, s: State, env: Env)
    requires LoopInv(p, s) && s.control == Head
    ensures LoopInv(p, AttachHuman(s, env))
  {
    hide LaunchWarm;
    if !s.attached && s.vm != VMRunning {
      ColdTurnShape(s.(attached := true), Wake, Resume, [], env.turn);
    }
  }

  // Accepting one instruction keeps the books and opens the coalescing window.
  lemma LoopAccept(p: Policy, s: State, b: Inbox, i: Instr, id: int)
    requires LoopInv(p, s) && s.control == Head
    requires b.pending == s.inbox.pending + [i] && b.accepted == Then(s.inbox.accepted, i, id)
    ensures LoopInv(p, ArmCoalesce(s.(inbox := b)))
    ensures LoopInv(p, ArmCoalesce(s.(inbox := b, awaitingChoice := false)))
  {
    var d := DeliveredFeedback(s.log) + InFlight(s.control);
    assert d + (s.inbox.pending + [i]) == (d + s.inbox.pending) + [i];
  }

  lemma LoopMessage(p: Policy, s: State, text: string, attachments: string, env: Env)
    requires LoopInv(p, s) && s.control == Head
    ensures LoopInv(p, RouteUserMessage(s, text, attachments, env))
  {
    hide AttachHuman, LoopInv;
    LoopAttach(p, s, env);
    var i := Instruction(text, attachments);
    LoopAccept(p, s, Push(s.inbox, EditDecision(i), 0), EditDecision(i), 0);
    LoopAccept(p, s, Push(s.inbox, Said(i), 0), Said(i), 0);
  }

  lemma LoopDedupe(p: Policy, s: State, delivery: string)
    requires LoopInv(p, s) && s.control == Head
    ensures var t := DedupeDelivery(s, delivery).0;
      LoopInv(p, t) && t.control == Head && t.inbox == s.inbox
  {}

  lemma LoopFromGitHub(p: Policy, s: State, sig: Signal, env: Env)
    requires LoopInv(p, s) && s.control == Head
    requires sig.ReviewComment? || sig.ReviewSubmitted? || sig.CIStatus? || sig.PRClosed?
    ensures LoopInv(p, Step(p, s, sig, env))
  {
    hide DedupeDelivery, ArmCoalesce;
    LoopDedupe(p, s, sig.delivery);
    var t := DedupeDelivery(s, sig.delivery).0;
    match sig
    case ReviewComment(_, id, inline, text) =>
      var b := MarkSeen(PushFromPR(t.inbox, GitHub(text), id), id);
      LoopAccept(p, t, if id != 0 && inline then b.(replyToID := id) else b, GitHub(text), id);
    case ReviewSubmitted(_, id, _, text) =>
      LoopAccept(p, t, PushFromPR(MarkSeen(t.inbox, id), GitHub(text), id), GitHub(text), id);
    case CIStatus(_, _, url) =>
      LoopAccept(p, t, PushFromPR(t.inbox, CIFailure(url), 0), CIFailure(url), 0);
    case _ =>
  }

  lemma LoopStep(p: Policy, s: State, sig: Signal, env: Env)
    requires LoopInv(p, s)
    ensures LoopInv(p, Step(p, s, sig, env))
  {
    if s.control.Discussing? {
      LoopDiscuss(p, s, sig, env);
    } else if s.control == Head {
      match sig
      case UserMessage(text, attachments) => LoopMessage(p, s, text, attachments, env);
      case CoalesceTimer => if s.coalesce { LoopWindow(p, s, env); }
      case Attach => LoopAttach(p, s, env);
      case ReviewComment(_, _, _, _) => LoopFromGitHub(p, s, sig, env);
      case ReviewSubmitted(_, _, _, _) => LoopFromGitHub(p, s, sig, env);
      case CIStatus(_, _, _) => LoopFromGitHub(p, s, sig, env);
      case PRClosed(_, _) => LoopFromGitHub(p, s, sig, env);
      case _ => hide CloseWindow, AttachHuman, RouteUserMessage, Discuss;
    }
  }

  // ---- no work while held ----

  ghost predicate Held(p: Policy, s: State) {
    Frozen(s) || CeilingHit(p, s)
  }

  lemma NotWork(l: Log, o: Obs)
    requires !IsWork(o)
    ensures WorkCount(Snoc(l, o)) == WorkCount(l)
  {}

  lemma WakeIsNotWork(s: State, t: TurnResult)
    ensures WorkCount(LaunchWarm(s, Wake, Resume, [], t).0.log) == WorkCount(s.log)
  {
    hide WorkCount;
    var l1 := Snoc(s.log, Attempt(Wake, Cold(Resume), []));
    var l2 := Snoc(l1, Launched(Resume));
    var l3 := Snoc(l2, Turn(Wake, Heard(t), t.prCreated));
    NotWork(s.log, Attempt(Wake, Cold(Resume), []));
    NotWork(l1, Launched(Resume));
    NotWork(l2, Turn(Wake, Heard(t), t.prCreated));
    NotWork(l3, Stopped);
  }

  lemma AttachIsNotWork(s: State, env: Env)
    ensures WorkCount(AttachHuman(s, env).log) == WorkCount(s.log)
  {
    hide LaunchWarm, WorkCount;
    WakeIsNotWork(s.(attached := true), env.turn);
  }

  lemma DedupeIsNotWork(s: State, d: string)
    ensures WorkCount(DedupeDelivery(s, d).0.log) == WorkCount(s.log)
    ensures DedupeDelivery(s, d).0.cost == s.cost && DedupeDelivery(s, d).0.ceilingReached == s.ceilingReached
  {
    hide Dedupe.See;
  }

  // A held window closes without a turn: nothing is logged and nothing is spent.
  lemma HeldWindow(p: Policy, s: State, env: Env)
    requires Held(p, s)
    ensures var t := CloseWindow(p, s, env);
      t.log == s.log && t.cost == s.cost && (s.ceilingReached ==> t.ceilingReached)
  {
    hide StartRound, FoldThread;
  }

  lemma HeldHead(p: Policy, s: State, sig: Signal, env: Env)
    requires Held(p, s)
    ensures WorkCount(HeadStep(p, s, sig, env).log) == WorkCount(s.log)
  {
    hide CloseWindow, WorkCount, DedupeDelivery, AttachHuman, PushFromPR, MarkSeen, Push;
    NotWork(s.log, Stopped);
    match sig
    case ReviewComment(d, _, _, _) => DedupeIsNotWork(s, d);
    case ReviewSubmitted(d, _, _, _) => DedupeIsNotWork(s, d);
    case CIStatus(d, _, _) => DedupeIsNotWork(s, d);
    case PRClosed(d, _) => DedupeIsNotWork(s, d); NotWork(DedupeDelivery(s, d).0.log, Stopped);
    case UserMessage(_, _) => AttachIsNotWork(s, env);
    case Attach => AttachIsNotWork(s, env);
    case CoalesceTimer => HeldWindow(p, s, env);
    case _ =>
  }

  lemma HeldStep(p: Policy, s: State, sig: Signal, env: Env)
    requires LoopInv(p, s) && Held(p, s)
    ensures WorkCount(Step(p, s, sig, env).log) == WorkCount(s.log)
  {
    hide LaunchWarm, HeadStep, LeaveDiscussion, FeedbackInv, WorkCount;
    HeldHead(p, s, sig, env);
    NotWork(s.log, Stopped);
  }

  lemma CostGrows(s: State, kind: TurnKind, t: TurnResult)
    ensures var (u, r) := AwaitAndSettle(s, kind, t);
      RecordOutcome(u, r).cost >= s.cost && u.ceilingReached == s.ceilingReached
  {}

  lemma AttachCostGrows(s: State, env: Env)
    ensures AttachHuman(s, env).cost >= s.cost && AttachHuman(s, env).ceilingReached == s.ceilingReached
  {
    hide AwaitAndSettle;
    var s1 := Note(s.(attached := true), Attempt(Wake, Cold(Resume), []));
    CostGrows(s1.(vm := VMRunning, log := Snoc(s1.log, Launched(Resume))), Wake, env.turn);
  }

  lemma CeilingHead(p: Policy, s: State, sig: Signal, env: Env)
    requires CeilingHit(p, s)
    ensures var t := HeadStep(p, s, sig, env); t.cost >= s.cost && (s.ceilingReached ==> t.ceilingReached)
  {
    hide CloseWindow, DedupeDelivery, AttachHuman, PushFromPR, MarkSeen, Push;
    match sig
    case ReviewComment(d, _, _, _) => DedupeIsNotWork(s, d);
    case ReviewSubmitted(d, _, _, _) => DedupeIsNotWork(s, d);
    case CIStatus(d, _, _) => DedupeIsNotWork(s, d);
    case PRClosed(d, _) => DedupeIsNotWork(s, d);
    case UserMessage(_, _) => AttachCostGrows(s, env);
    case Attach => AttachCostGrows(s, env);
    case CoalesceTimer => HeldWindow(p, s, env);
    case _ =>
  }

  // Reaching the ceiling is permanent.
  lemma CeilingStep(p: Policy, s: State, sig: Signal, env: Env)
    requires LoopInv(p, s) && CeilingHit(p, s)
    ensures CeilingHit(p, Step(p, s, sig, env))
    ensures s.ceilingReached ==> Step(p, s, sig, env).ceilingReached
  {
    hide HeadStep, LaunchWarm, LeaveDiscussion, LoopInv;
    CeilingHead(p, s, sig, env);
  }
}
