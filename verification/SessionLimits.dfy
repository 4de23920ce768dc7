/** Where the session protocol's obvious guarantees stop, with the runs that show it. */
module SessionLimits {
  import opened Protocol
  import opened Session
  import opened SessionLog
  import Comments = SessionComments
  import Dedupe
  import PRs = SessionPRs
  import SessionTheorems
  import Text

  // Guests behave (they create a PR only when they should), but their reports may get lost anywhere.
  predicate GuestsObey(log: Log) {
    match log
    case Nil => true
    case Snoc(prev, o) =>
      GuestsObey(prev) &&
      (o.Turn? && o.prCreated ==> GuestOf(prev).Live? && ShouldOpenPR(GuestOf(prev).mode, GuestOf(prev).prOpened))
  }

  function Answering(outcome: Option<Outcome>, created: bool, proceed: bool): Env {
    var run := if outcome.Some? then Some(PhaseResult(outcome.value, if created then 7 else 0, 0.0)) else None;
    Env(AsMessage, proceed, None, TurnResult(true, true, run, created), 0)
  }

  const NO_LIMITS: Policy := Policy(0.0, 0, false, false)

  const QUIET_START: Env := Answering(Some(PushDone), false, false)

  const GO: Signal := UserMessage("go", "")

  // A session whose first turn changed nothing is asked for something, the round pauses for direction
  // and the go-ahead's build creates the PR, but its report is lost. The retry pauses again, and the
  // second go-ahead builds in execute mode once more.
  const ASKED := [Input(GO, QUIET_START)]
  const PAUSED := ASKED + [Input(CoalesceTimer, Answering(Some(NeedsInput), false, false))]
  const BUILT := PAUSED + [Input(GO, Answering(None, true, true))]
  const RETRIED := BUILT + [Input(CoalesceTimer, Answering(Some(NeedsInput), false, false))]
  const BUILT_AGAIN := RETRIED + [Input(GO, Answering(Some(PROpened), true, true))]

  lemma RunSnoc(inputs: seq<Input>, i: Input)
    ensures Run(NO_LIMITS, QUIET_START, inputs + [i])
         == Step(NO_LIMITS, Run(NO_LIMITS, QUIET_START, inputs), i.sig, i.env)
  {
    hide Step;
    assert (inputs + [i])[..|inputs|] == inputs;
  }

  lemma TrimGo()
    ensures Instruction("go", "") == "go"
  {
    assert Text.TrimLeft("go") == "go";
    assert Text.TrimRight("go") == "go";
  }

  lemma AskedState()
    ensures var s := Run(NO_LIMITS, QUIET_START, ASKED);
      && s.control == Head && s.coalesce && !Frozen(s) && s.inbox.pending == [Said("go")] && s.prNumber == 0
      && s.vm == VMRunning && PRsCreated(s.log) == 0 && GuestsObey(s.log)
  {
    var s0 := Run(NO_LIMITS, QUIET_START, []);
    assert s0.control == Head && s0.vm == VMRunning && PRsCreated(s0.log) == 0 && GuestsObey(s0.log);
    TrimGo();
    hide Start, Instruction;
    RunSnoc([], Input(GO, QUIET_START));
    assert [] + [Input(GO, QUIET_START)] == ASKED;
  }

  // The log after such a round's turn, and after a go-ahead's build turn.
  function PausedLog(l: Log, warm: bool): Log {
    var l1 := Snoc(l, Attempt(Round, if warm then Warm else Cold(Resume), [Said("go")]));
    var l2 := if warm then l1 else Snoc(l1, Launched(Resume));
    Snoc(Snoc(Snoc(l2, Turn(Round, PhaseResult(NeedsInput, 0, 0.0), false)), Stopped), DiscussOpen(Resume))
  }

  function BuildLog(l: Log, run: Option<Outcome>): Log {
    var l1 := Snoc(Snoc(l, Reply(true)), Attempt(Talk(true), Cold(Execute), [Said("go")]));
    var l2 := Snoc(Snoc(l1, Launched(Execute)), Turn(Talk(true), Heard(Answering(run, true, true).turn), true));
    if run == None then Snoc(l2, Stopped) else l2
  }

  function BuiltLog(l: Log, run: Option<Outcome>, caller: Caller): Log
    requires caller.FromRound?
  {
    var l3 := Snoc(BuildLog(l, run), DiscussClose);
    Snoc(if run != None && caller.fromPR then Snoc(l3, PRReply(caller.replyToID)) else l3, RoundDone(run == None))
  }

  lemma PausedLogFacts(l: Log, warm: bool)
    requires GuestsObey(l)
    ensures PRsCreated(PausedLog(l, warm)) == PRsCreated(l) && GuestsObey(PausedLog(l, warm))
  {
    var o := PausedLog(l, warm).prev.prev;
    assert PRsCreated(o.prev) == PRsCreated(l) && GuestsObey(o.prev);
    assert PRsCreated(o) == PRsCreated(l) && GuestsObey(o);
  }

  lemma BuiltLogFacts(l: Log, run: Option<Outcome>, caller: Caller)
    requires GuestsObey(l) && caller.FromRound?
    ensures PRsCreated(BuiltLog(l, run, caller)) == PRsCreated(l) + 1 && GuestsObey(BuiltLog(l, run, caller))
  {
    var l1 := Snoc(l, Reply(true));
    assert PRsCreated(l1) == PRsCreated(l) && GuestsObey(l1);
    var l2 := Snoc(l1, Attempt(Talk(true), Cold(Execute), [Said("go")]));
    assert PRsCreated(l2) == PRsCreated(l) && GuestsObey(l2);
    var l3 := Snoc(l2, Launched(Execute));
    assert PRsCreated(l3) == PRsCreated(l) && GuestsObey(l3) && GuestOf(l3) == Live(Execute, false);
    var l4 := Snoc(l3, Turn(Talk(true), Heard(Answering(run, true, true).turn), true));
    assert PRsCreated(l4) == PRsCreated(l) + 1 && GuestsObey(l4);
    var l5 := if run == None then Snoc(l4, Stopped) else l4;
    assert PRsCreated(l5) == PRsCreated(l) + 1 && GuestsObey(l5);
    var l6 := Snoc(l5, DiscussClose);
    assert PRsCreated(l6) == PRsCreated(l) + 1 && GuestsObey(l6);
    assert BuiltLog(l, run, caller).prev ==
      if run != None && caller.fromPR then Snoc(l6, PRReply(caller.replyToID)) else l6;
  }

  // A round over ["go"] that pauses for direction, warm or cold.
  lemma PausingRound(s: State)
    requires s.control == Head && s.coalesce && !Frozen(s) && s.inbox.pending == [Said("go")] && s.prNumber == 0
    ensures var t := Step(NO_LIMITS, s, CoalesceTimer, Answering(Some(NeedsInput), false, false));
      && t.control == Discussing(FromRound([Said("go")], s.inbox.fromPR, s.inbox.replyToID), Resume)
      && t.inbox.pending == [] && t.prNumber == 0 && !Frozen(t) && !t.coalesce
      && t.log == PausedLog(s.log, s.vm == VMRunning)
  {
    hide Discuss, AttachHuman, RouteUserMessage, FinishRound;
    hide OnReviewComment, OnReviewSubmitted, OnCIStatus, OnPRClosed;
  }

  lemma BuildTurn(s: State, caller: Caller, mode: Mode, run: Option<Outcome>)
    requires s.prNumber == 0 && caller.FromRound? && (run == None || run == Some(PROpened))
    ensures var (t, r) := TalkTurn(s, caller, mode, "go", Answering(run, true, true));
      && r.outcome == (if run == None then AgentFailed else PROpened)
      && t.log == BuildLog(s.log, run) && t.inbox == s.inbox && Frozen(t) == Frozen(s)
      && (run == None ==> t.prNumber == 0)
  {}

  // A go-ahead in such a discussion builds in execute mode, and the fresh guest creates a PR. If its
  // report is lost the round is retried; if it is heard the round is closed.
  lemma GoAhead(s: State, run: Option<Outcome>)
    requires s.control.Discussing? && s.prNumber == 0
    requires s.control.caller.FromRound? && s.control.caller.batch == [Said("go")]
    requires s.inbox.pending == [] && !Frozen(s)
    requires run == None || run == Some(PROpened)
    ensures var t := Step(NO_LIMITS, s, GO, Answering(run, true, true));
      && t.log == BuiltLog(s.log, run, s.control.caller)
      && (run == None ==>
            && t.control == Head && t.coalesce && !Frozen(t)
            && t.inbox.pending == [Said("go")] && t.prNumber == 0)
  {
    TrimGo();
    BuildTurn(s, s.control.caller, s.control.mode, run);
    hide Instruction, HeadStep, EnterLoop, EnterDiscussion, TalkTurn, BuildLog;
  }

  // Without faithful reports from review rounds, a session can create a second PR.
  lemma LostBuildReportCreatesTwo()
    ensures var s := Run(NO_LIMITS, QUIET_START, BUILT_AGAIN);
      GuestsObey(s.log) && PRsCreated(s.log) == 2 && !Faithful(s.log)
  {
    hide Run, Step, GuestsObey, Faithful, PRsCreated, PausedLog, BuiltLog;
    AskedState();
    var s := Run(NO_LIMITS, QUIET_START, ASKED);
    PausingRound(s);
    PausedLogFacts(s.log, true);
    RunSnoc(ASKED, Input(CoalesceTimer, Answering(Some(NeedsInput), false, false)));
    var t := Run(NO_LIMITS, QUIET_START, PAUSED);
    GoAhead(t, None);
    BuiltLogFacts(t.log, None, t.control.caller);
    RunSnoc(PAUSED, Input(GO, Answering(None, true, true)));
    var u := Run(NO_LIMITS, QUIET_START, BUILT);
    PausingRound(u);
    PausedLogFacts(u.log, u.vm == VMRunning);
    RunSnoc(BUILT, Input(CoalesceTimer, Answering(Some(NeedsInput), false, false)));
    var v := Run(NO_LIMITS, QUIET_START, RETRIED);
    GoAhead(v, Some(PROpened));
    BuiltLogFacts(v.log, Some(PROpened), v.control.caller);
    RunSnoc(RETRIED, Input(GO, Answering(Some(PROpened), true, true)));
    if Faithful(Run(NO_LIMITS, QUIET_START, BUILT_AGAIN).log) {
      SessionTheorems.AtMostOnePR(NO_LIMITS, QUIET_START, BUILT_AGAIN);
    }
  }

  // A round that fails, at whatever stage, puts the batch and its origin back, but not the comment to
  // reply under: the retry replies where the first attempt would have exactly when there was no inline
  // target.
  lemma FailedRoundForgetsReplyTarget(p: Policy, s: State, env: Env)
    requires RoundTurn(TakeBatch(s), s.inbox.pending, env.turn).1.outcome == AgentFailed
    ensures var b, c := s.inbox, StartRound(p, s, env).inbox;
      && c.pending == b.pending && c.fromPR == b.fromPR
      && (c.replyToID == b.replyToID <==> b.replyToID == 0)
  {
    var s1 := TakeBatch(s);
    TurnKeepsInbox(s1, s.inbox.pending, env.turn);
    hide RoundTurn, RecordOutcome;
    assert s.inbox.pending + [] == s.inbox.pending;
  }

  lemma SettleKeepsInbox(s: State, kind: TurnKind, t: TurnResult)
    ensures var (u, r) := AwaitAndSettle(s, kind, t);
      r == Heard(t) && RecordOutcome(u, r).inbox == s.inbox && RecordOutcome(u, r).control == s.control
  {}

  lemma TurnKeepsInbox(s: State, batch: seq<Instr>, t: TurnResult)
    ensures var (u, r) := RoundTurn(s, batch, t);
      RecordOutcome(u, r).inbox == s.inbox && RecordOutcome(u, r).control == s.control
    ensures t.run.None? ==> RoundTurn(s, batch, t).1.outcome == AgentFailed
  {
    SettleKeepsInbox(Note(s, Attempt(Round, Warm, batch)), Round, t);
    LaunchKeepsInbox(s, batch, t);
    hide AwaitAndSettle, LaunchWarm, RecordOutcome;
  }

  lemma LaunchKeepsInbox(s: State, batch: seq<Instr>, t: TurnResult)
    ensures var (u, r) := LaunchWarm(s, Round, Resume, batch, t);
      RecordOutcome(u, r).inbox == s.inbox && RecordOutcome(u, r).control == s.control
    ensures t.run.None? ==> LaunchWarm(s, Round, Resume, batch, t).1.outcome == AgentFailed
  {
    var l := Snoc(s.log, Attempt(Round, Cold(Resume), batch));
    SettleKeepsInbox(s.(vm := VMRunning, log := Snoc(l, Launched(Resume))), Round, t);
    hide AwaitAndSettle;
  }

  const COMMENTED: Input := Input(ReviewComment("delivery", 5, true, "rename this"), QUIET_START)
  const LOST: Input := Input(CoalesceTimer, Answering(None, false, false))

  // It happens: an inline comment arrives, and the round's report is lost.
  lemma ReplyTargetIsForgotten()
    ensures var s, t := Run(NO_LIMITS, QUIET_START, [COMMENTED]), Run(NO_LIMITS, QUIET_START, [COMMENTED, LOST]);
      && s.control == Head && s.inbox.pending == [GitHub("rename this")] && s.inbox.replyToID == 5
      && t.control == Head && t.inbox.pending == [GitHub("rename this")] && t.inbox.replyToID == 0
  {
    RunSnoc([], COMMENTED);
    RunSnoc([COMMENTED], LOST);
    assert [] + [COMMENTED] == [COMMENTED] && [COMMENTED] + [LOST] == [COMMENTED, LOST];
    CommentArrives();
    hide Step, Run, COMMENTED, LOST;
    LostRound(Run(NO_LIMITS, QUIET_START, [COMMENTED]));
  }

  lemma CommentArrives()
    ensures var s := Step(NO_LIMITS, Start(NO_LIMITS, QUIET_START), COMMENTED.sig, COMMENTED.env);
      && s.control == Head && s.inbox.pending == [GitHub("rename this")] && s.inbox.replyToID == 5
      && s.coalesce && !Frozen(s) && s.prNumber == 0
  {
    var s0 := Start(NO_LIMITS, QUIET_START);
    assert s0.control == Head && s0.inbox == FRESH.inbox && s0.seen == Dedupe.EMPTY && !s0.coalesce && !Frozen(s0);
    assert s0.prNumber == 0;
    assert !Dedupe.See(s0.seen, MAX_SEEN_DELIVERIES, "delivery").1;
    hide Start, Dedupe.See;
  }

  lemma LostRound(s: State)
    requires s.control == Head && s.coalesce && !Frozen(s) && s.prNumber == 0 && s.inbox.pending != []
    ensures var t := Step(NO_LIMITS, s, LOST.sig, LOST.env);
      t.control == Head && t.inbox.pending == s.inbox.pending && t.inbox.replyToID == 0
  {
    var s1 := s.(coalesce := false);
    TurnKeepsInbox(TakeBatch(s1), s.inbox.pending, LOST.env.turn);
    FailedRoundForgetsReplyTarget(NO_LIMITS, s1, LOST.env);
    RoundTakesTarget(NO_LIMITS, s1, LOST.env);
    hide StartRound, RoundTurn;
  }

  lemma BatchTaken(s: State)
    ensures TakeBatch(s).inbox.replyToID == 0 && TakeBatch(s).control == s.control
  {}

  lemma FinishKeepsTarget(p: Policy, s: State, r: PhaseResult, batch: seq<Instr>, fromPR: bool, replyToID: int)
    ensures var t := FinishRound(p, s, r, batch, fromPR, replyToID);
      t.control == s.control && t.inbox.replyToID == s.inbox.replyToID
  {}

  // A round takes the reply target along, into whatever it ends in.
  lemma RoundTakesTarget(p: Policy, s: State, env: Env)
    requires s.control == Head
    ensures var t := StartRound(p, s, env);
      t.inbox.replyToID == 0 && (env.turn.run.None? ==> t.control == Head)
  {
    BatchTaken(s);
    TurnKeepsInbox(TakeBatch(s), s.inbox.pending, env.turn);
    hide TakeBatch, RoundTurn, RecordOutcome, FinishRound;
    var (u, r) := RoundTurn(TakeBatch(s), s.inbox.pending, env.turn);
    FinishKeepsTarget(p, RecordOutcome(u, r), r, s.inbox.pending, s.inbox.fromPR, s.inbox.replyToID);
  }

  // No discussion of any session starts with a reply target queued: a round takes it along.
  lemma {:induction false} DiscussingHasNoTarget(p: Policy, start: Env, inputs: seq<Input>)
    ensures var s := Run(p, start, inputs); s.control.Discussing? ==> s.inbox.replyToID == 0
  {
    hide Step, Start;
    if inputs == [] {
      SessionTheorems.StartTakesNothing(p, start);
    } else {
      var before, i := inputs[..|inputs| - 1], inputs[|inputs| - 1];
      DiscussingHasNoTarget(p, start, before);
      StepTargets(p, Run(p, start, before), i.sig, i.env);
    }
  }

  lemma StepTargets(p: Policy, s: State, sig: Signal, env: Env)
    requires s.control.Discussing? ==> s.inbox.replyToID == 0
    ensures var t := Step(p, s, sig, env); t.control.Discussing? ==> t.inbox.replyToID == 0
  {
    if s.control == Head {
      HeadTargets(p, s, sig, env);
      hide HeadStep;
    } else if s.control.Discussing? {
      Comments.DiscussTakesNothing(p, s, s.control.caller, s.control.mode, sig, env);
      hide Discuss;
    }
  }

  lemma HeadTargets(p: Policy, s: State, sig: Signal, env: Env)
    requires s.control == Head
    ensures var t := HeadStep(p, s, sig, env); t.control.Discussing? ==> t.inbox.replyToID == 0
  {
    if sig.CoalesceTimer? {
      RoundTakesTarget(p, Gather(s, env), env);
      hide StartRound, FoldThread;
    } else if sig.ReviewComment? || sig.ReviewSubmitted? || sig.CIStatus? || sig.PRClosed? {
      PRs.DedupeQuiet(s, sig.delivery);
      hide DedupeDelivery, PushFromPR, MarkSeen, PRs.LookAt;
    } else {
      HumanStays(p, s, sig, env);
      hide HeadStep;
    }
  }

  lemma HumanStays(p: Policy, s: State, sig: Signal, env: Env)
    requires s.control == Head && !sig.CoalesceTimer?
    requires !(sig.ReviewComment? || sig.ReviewSubmitted? || sig.CIStatus? || sig.PRClosed?)
    ensures !HeadStep(p, s, sig, env).control.Discussing?
  {
    AttachStays(s, env);
    TimersStay(p, s, sig);
    if sig.UserMessage? { MessageStays(s, sig.text, sig.attachments, env); }
    hide AttachHuman, RouteUserMessage, OnReviewComment, OnReviewSubmitted, OnCIStatus, OnPRClosed, CloseWindow;
    hide IdleOut, EndRelay;
  }

  lemma TimersStay(p: Policy, s: State, sig: Signal)
    requires s.control == Head
    ensures !IdleOut(s).control.Discussing?
    ensures sig.RelayEnded? ==> EndRelay(p, s, sig.edits).control == s.control
  {}

  lemma MessageStays(s: State, text: string, attachments: string, env: Env)
    ensures RouteUserMessage(s, text, attachments, env).control == s.control
  {
    AttachStays(s, env);
    hide AttachHuman, Instruction, Push;
  }

  lemma AttachStays(s: State, env: Env)
    ensures AttachHuman(s, env).control == s.control
  {
    PRs.LaunchRan(s.(attached := true), Wake, Resume, [], env.turn);
    hide LaunchWarm, RecordOutcome, PRs.LookAt, PRs.Ran;
  }

  // The same after a discussion: if the build it ends with fails, the batch is back and its inline target
  // is not, in every reachable state.
  lemma FailedBuildForgetsReplyTarget(
      p: Policy, start: Env, inputs: seq<Input>, text: string, attachments: string, env: Env)
    requires var s := Run(p, start, inputs); s.control.Discussing? && s.control.caller.FromRound? && !CeilingHit(p, s)
    requires Instruction(text, attachments) != ""
    requires var s := Run(p, start, inputs);
      TalkTurn(s, s.control.caller, s.control.mode, Instruction(text, attachments), env).1.outcome == AgentFailed
    ensures var caller := Run(p, start, inputs).control.caller;
      var c := Step(p, Run(p, start, inputs), UserMessage(text, attachments), env).inbox;
      && c.pending == caller.batch && (c.fromPR <==> caller.fromPR || Run(p, start, inputs).inbox.fromPR)
      && (c.replyToID == caller.replyToID <==> caller.replyToID == 0)
  {
    var s := Run(p, start, inputs);
    DiscussingHasNoTarget(p, start, inputs);
    SessionTheorems.FeedbackIsConserved(p, start, inputs);
    TalkKeepsInbox(s, s.control.caller, s.control.mode, Instruction(text, attachments), env);
    hide Run, TalkTurn, Instruction, HeadStep;
    assert s.control.caller.batch + [] == s.control.caller.batch;
  }

  lemma TalkKeepsInbox(s: State, caller: Caller, mode: Mode, i: string, env: Env)
    ensures TalkTurn(s, caller, mode, i, env).0.inbox == s.inbox
  {}
}
