/** What still happens at the cost ceiling: the turns that wake a parked session, and the warm VM whose
    idle timer is gone. */
module SessionCeiling {
  import opened Protocol
  import opened Session
  import opened SessionLog
  import Dedupe
  import Laws = SessionLaws
  import Limits = SessionLimits
  import PRs = SessionPRs
  import Rebuild = SessionRebuild
  import SessionTheorems

  // ---- turns at the ceiling ----

  function TurnCount(log: Log): nat {
    match log
    case Nil => 0
    case Snoc(prev, o) => TurnCount(prev) + if o.Turn? then 1 else 0
  }

  // An attach, or a message classified as one, finds the session parked and gets its guest booted.
  predicate Wakes(s: State, sig: Signal, env: Env) {
    && s.control == Head && !s.attached && s.vm != VMRunning && env.turn.mintOk && env.turn.launchOk
    && (sig.Attach? || (sig.UserMessage? && sig.text != "" && env.intent == AsAttach && !s.awaitingChoice))
  }

  // So many turns, and so much spend, came with a step.
  ghost predicate Turned(s: State, t: State, turns: nat, spend: Usd) {
    TurnCount(t.log) == TurnCount(s.log) + turns && t.cost == s.cost + spend
  }

  lemma SettleTurns(s: State, kind: TurnKind, t: TurnResult)
    ensures var (u, r) := AwaitAndSettle(s, kind, t); r == Heard(t) && Turned(s, u, 1, 0.0)
  {
    hide TurnCount;
    Logs(s.log, Turn(kind, Heard(t), t.prCreated));
    Logs(Snoc(s.log, Turn(kind, Heard(t), t.prCreated)), Stopped);
  }

  lemma Logs(l: Log, o: Obs)
    ensures TurnCount(Snoc(l, o)) == TurnCount(l) + if o.Turn? then 1 else 0
  {}

  lemma AttachTurns(s: State, env: Env)
    ensures var wakes := Wakes(s.(control := Head), Attach, env);
      Turned(s, AttachHuman(s, env), if wakes then 1 else 0, if wakes then Heard(env.turn).cost else 0.0)
  {
    hide AwaitAndSettle, TurnCount;
    var s1 := Note(s.(attached := true), Attempt(Wake, Cold(Resume), []));
    Logs(s.log, Attempt(Wake, Cold(Resume), []));
    Logs(s1.log, Launched(Resume));
    SettleTurns(s1.(vm := VMRunning, log := Snoc(s1.log, Launched(Resume))), Wake, env.turn);
  }

  lemma DedupeTurns(s: State, d: string)
    ensures Turned(s, DedupeDelivery(s, d).0, 0, 0.0)
  {}

  lemma GitHubTurns(p: Policy, s: State, sig: Signal, env: Env)
    requires sig.ReviewComment? || sig.ReviewSubmitted? || sig.CIStatus? || sig.PRClosed?
    ensures Turned(s, HeadStep(p, s, sig, env), 0, 0.0)
  {
    DedupeTurns(s, sig.delivery);
    hide TurnCount, DedupeDelivery, PushFromPR, MarkSeen;
    Logs(DedupeDelivery(s, sig.delivery).0.log, Stopped);
  }

  lemma CeilingHeadTurns(p: Policy, s: State, sig: Signal, env: Env)
    requires CeilingHit(p, s) && s.control == Head
    ensures var wakes := Wakes(s, sig, env);
      Turned(s, HeadStep(p, s, sig, env), if wakes then 1 else 0, if wakes then Heard(env.turn).cost else 0.0)
  {
    hide CloseWindow, TurnCount, AttachHuman, Push, Instruction;
    hide OnReviewComment, OnReviewSubmitted, OnCIStatus, OnPRClosed;
    Logs(s.log, Stopped);
    if sig.ReviewComment? || sig.ReviewSubmitted? || sig.CIStatus? || sig.PRClosed? {
      GitHubTurns(p, s, sig, env);
      hide HeadStep;
    }
    match sig
    case UserMessage(_, _) => AttachTurns(s, env);
    case Attach => AttachTurns(s, env);
    case CoalesceTimer => Laws.HeldWindow(p, s, env);
    case _ =>
  }

  // At the ceiling, in any state, a step runs a turn if and only if it wakes a parked session for an
  // attach; and it then spends exactly what that turn costs.
  lemma CeilingTurnsExactly(p: Policy, s: State, sig: Signal, env: Env)
    requires CeilingHit(p, s)
    ensures var t, wakes := Step(p, s, sig, env), Wakes(s, sig, env);
      && TurnCount(t.log) == TurnCount(s.log) + (if wakes then 1 else 0)
      && t.cost == s.cost + (if wakes then Heard(env.turn).cost else 0.0)
  {
    hide HeadStep, TurnCount, Answer, Instruction;
    Logs(s.log, Stopped);
    if s.control == Head { CeilingHeadTurns(p, s, sig, env); }
  }

  // The inputs that wake the session.
  function Wakings(p: Policy, s: State, inputs: seq<Input>): nat
    decreases |inputs|
  {
    if inputs == [] then 0
    else
      var i := inputs[0];
      (if Wakes(s, i.sig, i.env) then 1 else 0) + Wakings(p, Step(p, s, i.sig, i.env), inputs[1..])
  }

  // So all turns of the rest of a run at the ceiling are such wake-ups.
  lemma {:induction false} CeilingTurnsOverRuns(p: Policy, s: State, inputs: seq<Input>)
    requires CeilingHit(p, s)
    ensures var t := Rebuild.From(p, s, inputs);
      CeilingHit(p, t) && TurnCount(t.log) == TurnCount(s.log) + Wakings(p, s, inputs)
    decreases |inputs|
  {
    hide Step, Wakes, TurnCount;
    if inputs != [] {
      var i := inputs[0];
      CeilingTurnsExactly(p, s, i.sig, i.env);
      CeilingTurnsOverRuns(p, Step(p, s, i.sig, i.env), inputs[1..]);
    }
  }

  // ---- a run that gets there ----

  const TIGHT: Policy := Policy(1.0, 60, false, false)

  function Costing(outcome: Outcome, prNumber: int, cost: Usd, created: bool): Env {
    Env(AsMessage, false, None, TurnResult(true, true, Some(PhaseResult(outcome, prNumber, cost)), created), 0)
  }

  const OPENS: Env := Costing(PROpened, 7, 1.0, true)
  const PARK: Input := Input(KeepAliveTimer, OPENS)
  const ATTACH: Input := Input(Attach, Costing(PushDone, 0, 3.0, false))
  const ASK: Input := Input(Limits.GO, OPENS)
  const CLOSE: Input := Input(CoalesceTimer, OPENS)

  // The start opens PR 7 and uses up the ceiling.
  lemma SpentStart()
    ensures var s := Run(TIGHT, OPENS, []);
      && s.control == Head && s.vm == VMRunning && s.prNumber == 7 && s.cost == 1.0 && CeilingHit(TIGHT, s)
      && s.keepAlive && !s.coalesce && !Frozen(s) && s.inbox.pending == []
  {}

  // The idle timer parks the VM, and an attach then takes the spend from the ceiling to four times that.
  lemma WakeTurnIsNotGated()
    ensures var s, t := Run(TIGHT, OPENS, [PARK]), Run(TIGHT, OPENS, [PARK, ATTACH]);
      && CeilingHit(TIGHT, s) && s.cost == 1.0
      && t.attached && t.cost == 4.0 && TurnCount(t.log) == TurnCount(s.log) + 1
  {
    SpentStart();
    PRs.Extend(TIGHT, OPENS, [], PARK);
    PRs.Extend(TIGHT, OPENS, [PARK], ATTACH);
    assert [] + [PARK] == [PARK] && [PARK] + [ATTACH] == [PARK, ATTACH];
    var s := Run(TIGHT, OPENS, [PARK]);
    assert s.control == Head && s.vm == VMDestroyed && s.cost == 1.0 && !s.attached by { hide Run; }
    CeilingTurnsExactly(TIGHT, s, ATTACH.sig, ATTACH.env);
    hide Run, TurnCount, AwaitAndSettle;
  }

  // ---- no clock ----

  // A warm VM nobody is attached to, with neither timer running.
  predicate OffTheClock(p: Policy, s: State) {
    s.control == Head && s.vm == VMRunning && p.keepAlive > 0 && !Frozen(s) && !s.keepAlive && !s.coalesce
  }

  // That only happens with feedback held at the ceiling.
  lemma OffTheClockOnlyAtCeiling(p: Policy, start: Env, inputs: seq<Input>)
    ensures var s := Run(p, start, inputs);
      OffTheClock(p, s) ==> s.ceilingReached && CeilingHit(p, s) && s.inbox.pending != []
  {
    SessionTheorems.TimersAndFreeze(p, start, inputs);
    SessionTheorems.SpendLedger(p, start, inputs);
    hide Run;
  }

  lemma ArmedIsOnTheClock(p: Policy, s: State, c: Control)
    ensures !OffTheClock(p, ArmKeepAlive(p, s)) && !OffTheClock(p, ArmKeepAlive(p, s).(control := c))
  {}

  lemma FinishIsOnTheClock(p: Policy, s: State, r: PhaseResult, batch: seq<Instr>, fromPR: bool, replyToID: int)
    ensures !OffTheClock(p, FinishRound(p, s, r, batch, fromPR, replyToID))
  {
    hide OffTheClock, ArmKeepAlive;
    if r.outcome == AgentFailed {
      var inbox := s.inbox.(pending := batch + s.inbox.pending, fromPR := s.inbox.fromPR || fromPR);
      ArmedIsOnTheClock(p, s.(coalesce := true, log := Snoc(s.log, RoundDone(true)), inbox := inbox), Head);
    } else {
      var log := Snoc(if fromPR then Snoc(s.log, PRReply(replyToID)) else s.log, RoundDone(false));
      ArmedIsOnTheClock(p, s.(log := log), Head);
    }
  }

  lemma EnterIsOnTheClock(p: Policy, s: State, env: Env)
    ensures !OffTheClock(p, EnterLoop(p, s, env))
  {
    hide OffTheClock, ArmKeepAlive;
    ArmedIsOnTheClock(p, if s.prNumber != 0 then s
      else s.(prNumber := env.foundPR, log := Snoc(s.log, CheckedPR(env.foundPR))), Head);
  }

  lemma RoundIsOnTheClock(p: Policy, s: State, env: Env)
    ensures !OffTheClock(p, StartRound(p, s, env))
  {
    hide TakeBatch, RoundTurn, RecordOutcome, FinishRound;
    var (u, r) := RoundTurn(TakeBatch(s), s.inbox.pending, env.turn);
    FinishIsOnTheClock(p, RecordOutcome(u, r), r, s.inbox.pending, s.inbox.fromPR, s.inbox.replyToID);
  }

  lemma LeaveIsOnTheClock(p: Policy, s: State, caller: Caller, r: PhaseResult, env: Env)
    ensures !OffTheClock(p, LeaveDiscussion(p, s, caller, r, env))
  {
    hide FinishRound, EnterLoop;
    var s1 := s.(control := Head, log := Snoc(s.log, DiscussClose));
    EnterIsOnTheClock(p, s1, env);
    if caller.FromRound? { FinishIsOnTheClock(p, s1, r, caller.batch, caller.fromPR, caller.replyToID); }
  }

  lemma DiscussIsOnTheClock(p: Policy, s: State, caller: Caller, mode: Mode, sig: Signal, env: Env)
    requires s.control.Discussing?
    ensures !OffTheClock(p, Discuss(p, s, caller, mode, sig, env))
  {
    hide TalkTurn, LeaveDiscussion, Instruction;
    if sig.UserMessage? {
      var i := Instruction(sig.text, sig.attachments);
      var (v, r) := TalkTurn(s, caller, mode, i, env);
      assert v.control == s.control by { TalkStays(s, caller, mode, i, env); }
      LeaveIsOnTheClock(p, v, caller, r, env);
    }
  }

  lemma TalkStays(s: State, caller: Caller, mode: Mode, i: string, env: Env)
    ensures TalkTurn(s, caller, mode, i, env).0.control == s.control
  {}

  lemma AttachFreezes(s: State, env: Env)
    ensures AttachHuman(s, env).attached
  {
    hide AwaitAndSettle;
    var s1 := Note(s.(attached := true), Attempt(Wake, Cold(Resume), []));
    SettleFrame(s1.(vm := VMRunning, log := Snoc(s1.log, Launched(Resume))), Wake, env.turn);
  }

  lemma SettleFrame(s: State, kind: TurnKind, t: TurnResult)
    ensures AwaitAndSettle(s, kind, t).0.attached == s.attached
  {}

  lemma WindowIsOnTheClock(p: Policy, s: State, env: Env)
    requires Laws.LoopInv(p, s) && s.control == Head && s.coalesce
    ensures !OffTheClock(p, CloseWindow(p, s, env))
  {
    var d := DeliveredFeedback(s.log);
    assert d + [] == d;
    if env.thread.Some? { Laws.FoldThreadKeepsFeedback(s.inbox, env.thread.value, d); }
    var s1 := Gather(s, env);
    assert s1.inbox.pending != [] && s1.control == Head;
    RoundIsOnTheClock(p, s1, env);
    ArmedIsOnTheClock(p, s1.(ceilingReached := true), Head);
    hide StartRound, ArmKeepAlive, Gather;
  }

  // Accepted feedback opens a window, or waits for a human.
  lemma AcceptedIsOnTheClock(p: Policy, s: State, b: Inbox)
    ensures !OffTheClock(p, ArmCoalesce(s.(inbox := b)))
    ensures !OffTheClock(p, ArmCoalesce(s.(inbox := b, awaitingChoice := false)))
  {}

  lemma GitHubStaysOnTheClock(p: Policy, s: State, sig: Signal, env: Env)
    requires s.control == Head && !OffTheClock(p, s)
    requires sig.ReviewComment? || sig.ReviewSubmitted? || sig.CIStatus? || sig.PRClosed?
    ensures !OffTheClock(p, HeadStep(p, s, sig, env))
  {
    DedupeFrame(p, s, sig.delivery);
    var t := DedupeDelivery(s, sig.delivery).0;
    hide DedupeDelivery, ArmCoalesce, PushFromPR, MarkSeen;
    match sig
    case ReviewComment(_, id, inline, text) =>
      var b := MarkSeen(PushFromPR(t.inbox, GitHub(text), id), id);
      AcceptedIsOnTheClock(p, t, if id != 0 && inline then b.(replyToID := id) else b);
    case ReviewSubmitted(_, id, _, text) =>
      AcceptedIsOnTheClock(p, t, PushFromPR(MarkSeen(t.inbox, id), GitHub(text), id));
    case CIStatus(_, _, url) => AcceptedIsOnTheClock(p, t, PushFromPR(t.inbox, CIFailure(url), 0));
    case _ =>
  }

  lemma DedupeFrame(p: Policy, s: State, d: string)
    ensures var t := DedupeDelivery(s, d).0; OffTheClock(p, t) <==> OffTheClock(p, s)
  {
    hide Dedupe.See;
  }

  lemma MessageStaysOnTheClock(p: Policy, s: State, text: string, attachments: string, env: Env)
    requires s.control == Head && !OffTheClock(p, s)
    ensures !OffTheClock(p, RouteUserMessage(s, text, attachments, env))
  {
    AttachFreezes(s, env);
    var i := Instruction(text, attachments);
    AcceptedIsOnTheClock(p, s, Push(s.inbox, EditDecision(i), 0));
    AcceptedIsOnTheClock(p, s, Push(s.inbox, Said(i), 0));
    hide AttachHuman, Instruction, Push, ArmCoalesce;
  }

  // The callbacks of the loop that are no feedback.
  lemma OtherStopsTheClock(p: Policy, s: State, sig: Signal, env: Env)
    requires Laws.TimersInv(p, s) && s.control == Head && !OffTheClock(p, s)
    requires sig.Abort? || sig.Attach? || sig.Detach? || sig.RelayEnded? || sig.HardTTL? || sig.KeepAliveTimer?
    ensures OffTheClock(p, HeadStep(p, s, sig, env)) <==>
      sig == KeepAliveTimer && s.keepAlive && !s.coalesce && s.inbox.pending != []
  {
    AttachFreezes(s, env);
    hide AttachHuman;
  }

  lemma StopsTheClock(p: Policy, s: State, sig: Signal, env: Env)
    requires Laws.LoopInv(p, s) && !OffTheClock(p, s)
    ensures OffTheClock(p, Step(p, s, sig, env)) <==>
      s.control == Head && sig == KeepAliveTimer && s.keepAlive && !s.coalesce && s.inbox.pending != []
  {
    if s.control.Discussing? {
      DiscussIsOnTheClock(p, s, s.control.caller, s.control.mode, sig, env);
      hide Discuss;
    } else if s.control == Head {
      if sig.ReviewComment? || sig.ReviewSubmitted? || sig.CIStatus? || sig.PRClosed? {
        GitHubStaysOnTheClock(p, s, sig, env);
        hide HeadStep;
      } else if sig.UserMessage? {
        MessageStaysOnTheClock(p, s, sig.text, sig.attachments, env);
        hide RouteUserMessage;
      } else if sig.CoalesceTimer? {
        if s.coalesce { WindowIsOnTheClock(p, s, env); }
        hide CloseWindow;
      } else {
        OtherStopsTheClock(p, s, sig, env);
        hide HeadStep;
      }
    }
  }

  // In every reachable state that is not there: the next step gets there if and only if the idle timer
  // fires over feedback that no window is open for. The timer is then gone, and the VM stays up.
  lemma StopsTheClockExactly(p: Policy, start: Env, inputs: seq<Input>, sig: Signal, env: Env)
    requires !OffTheClock(p, Run(p, start, inputs))
    ensures var s := Run(p, start, inputs);
      OffTheClock(p, Step(p, s, sig, env)) <==>
        s.control == Head && sig == KeepAliveTimer && s.keepAlive && !s.coalesce && s.inbox.pending != []
  {
    SessionTheorems.RunKeeps(p, start, inputs);
    hide Run, Laws.LoopInv, Step, OffTheClock;
    StopsTheClock(p, Run(p, start, inputs), sig, env);
  }

  lemma AskIsQueued(s: State)
    requires s.control == Head && s.vm == VMRunning && CeilingHit(TIGHT, s) && !Frozen(s)
    ensures var t := Step(TIGHT, s, ASK.sig, ASK.env);
      && t.control == Head && t.vm == VMRunning && CeilingHit(TIGHT, t) && !Frozen(t)
      && t.coalesce && t.inbox.pending != []
  {
    Limits.TrimGo();
    hide Instruction;
  }

  lemma HeldIsArmed(s: State)
    requires s.control == Head && s.vm == VMRunning && CeilingHit(TIGHT, s) && !Frozen(s)
    requires s.coalesce && s.inbox.pending != []
    ensures var t := Step(TIGHT, s, CLOSE.sig, CLOSE.env);
      t.control == Head && t.vm == VMRunning && !Frozen(t) && t.keepAlive && !t.coalesce && t.inbox.pending != []
  {
    hide StartRound;
  }

  lemma IdleOverHeld(s: State)
    requires s.control == Head && s.vm == VMRunning && !Frozen(s) && s.keepAlive && !s.coalesce && s.inbox.pending != []
    ensures OffTheClock(TIGHT, Step(TIGHT, s, PARK.sig, PARK.env))
  {}

  // It happens: the PR is opened at the ceiling, a message is queued, the window closes over it and holds
  // it, and the idle timer fires.
  lemma HeldFeedbackStopsTheClock()
    ensures OffTheClock(TIGHT, Run(TIGHT, OPENS, [ASK, CLOSE, PARK]))
  {
    SpentStart();
    PRs.Extend(TIGHT, OPENS, [], ASK);
    PRs.Extend(TIGHT, OPENS, [ASK], CLOSE);
    PRs.Extend(TIGHT, OPENS, [ASK, CLOSE], PARK);
    assert [] + [ASK] == [ASK] && [ASK] + [CLOSE] == [ASK, CLOSE] && [ASK, CLOSE] + [PARK] == [ASK, CLOSE, PARK];
    hide Run, Instruction;
    var s := Run(TIGHT, OPENS, []);
    AskIsQueued(s);
    var t := Step(TIGHT, s, ASK.sig, ASK.env);
    HeldIsArmed(t);
    hide Step, ASK, CLOSE;
    IdleOverHeld(Step(TIGHT, t, CLOSE.sig, CLOSE.env));
  }
}
