/** What every run of the session step machine keeps, part two: the spend ledger and its gate, the
    shape of discussions, and the number of pull requests a session ever creates. */
module SessionHistory {
  import opened Protocol
  import opened Session
  import opened SessionLog
  import Dedupe

  // What the invariants read off a log, as one record that grows entry by entry.
  datatype View = View(spend: real, gated: bool, knownPR: int, talk: Talking, onlyPlans: bool,
                       plansFirst: bool, guest: Guest, prs: nat, faithful: bool)

  ghost function ViewOf(ceiling: real, l: Log): View {
    View(Spend(l), Gated(ceiling, l), KnownPR(l), TalkState(l), OnlyPlans(l),
         PlansComeFirst(l), GuestOf(l), PRsCreated(l), Faithful(l))
  }

  ghost function Next(ceiling: real, v: View, o: Obs): View {
    View(v.spend + (if o.Turn? then o.res.cost else 0.0),
         v.gated && (IsWork(o) && ceiling > 0.0 ==> v.spend < ceiling),
         if o.CheckedPR? then o.number
         else if o.Turn? && o.res.outcome == PROpened && o.res.prNumber != 0 then o.res.prNumber
         else v.knownPR,
         TalkAfter(v.talk, v.knownPR, o),
         v.onlyPlans && (o.Attempt? ==> o.how == Cold(Plan)),
         v.plansFirst && (o.Attempt? && o.how == Cold(Plan) ==> v.onlyPlans),
         GuestAfter(v.guest, o),
         v.prs + (if o.Turn? && o.prCreated then 1 else 0),
         v.faithful && (o.Turn? ==> FaithfulTurn(v.guest, o.kind, o.res, o.prCreated))
           && (o.CheckedPR? ==> o.number >= 0 && (v.prs > 0 ==> o.number > 0)))
  }

  lemma Grow(ceiling: real, l: Log, o: Obs)
    ensures ViewOf(ceiling, Snoc(l, o)) == Next(ceiling, ViewOf(ceiling, l), o)
  {}

  // ---- the invariants, on views ----

  ghost predicate Ledger(p: Policy, v: View, cost: real) {
    cost == v.spend && cost >= 0.0 && v.gated
  }

  // With faithful reports at most one PR was created, the workflow knows its number, and no live
  // guest would open another. `lost` allows the number to be unknown for the rest of the step.
  ghost predicate OnePR(v: View, pr: int, warm: bool, lost: bool) {
    v.faithful ==>
      && v.prs <= 1
      && pr >= 0
      && (v.prs == 1 ==> pr > 0 || lost)
      && (warm <==> v.guest.Live?)
      && (v.prs == 1 && v.guest.Live? ==> !ShouldOpenPR(v.guest.mode, v.guest.prOpened))
  }

  ghost predicate Parked(v: View, c: Control) {
    && v.talk != Broken
    && (c == Head ==> v.talk == Quiet)
    && (c.Discussing? ==>
          && v.talk == Waiting(c.mode)
          && (c.mode == Resume || (c.mode == Plan && v.onlyPlans)))
  }

  ghost predicate Books(p: Policy, s: State, lost: bool) {
    var v := ViewOf(p.costCeiling, s.log);
    && Ledger(p, v, s.cost)
    && (s.ceilingReached ==> CeilingHit(p, s))
    && v.knownPR == s.prNumber && v.plansFirst
    && OnePR(v, s.prNumber, s.vm == VMRunning, lost)
  }

  ghost predicate HistoryInv(p: Policy, s: State) {
    Books(p, s, false) && Parked(ViewOf(p.costCeiling, s.log), s.control)
  }

  // ---- one agent turn ----

  predicate Affordable(p: Policy, s: State, kind: TurnKind) {
    kind != Wake && p.costCeiling > 0.0 ==> s.cost < p.costCeiling
  }

  ghost predicate TurnMoves(p: Policy, s: State, kind: TurnKind, how: How, u: State, r: PhaseResult) {
    var v, w := ViewOf(p.costCeiling, s.log), ViewOf(p.costCeiling, u.log);
    && Books(p, RecordOutcome(u, r), MayBeLost(kind, r))
    && w.talk == TalkAfter(v.talk, v.knownPR, Attempt(kind, how, []))
    && w.onlyPlans == (v.onlyPlans && how == Cold(Plan))
    && u.control == s.control && u.ceilingReached == s.ceilingReached
  }

  // The guest's report, seen by the one-PR invariant: a warm guest either stays warm or is stopped.
  lemma OnePRTurn(c: real, v: View, pr: int, kind: TurnKind, r: PhaseResult, created: bool)
    requires OnePR(v, pr, true, false)
    ensures var w := Next(c, v, Turn(kind, r, created));
      var pr' := if r.outcome == PROpened && r.prNumber != 0 then r.prNumber else pr;
      OnePR(w, pr', true, MayBeLost(kind, r)) && OnePR(Next(c, w, Stopped), pr', false, MayBeLost(kind, r))
  {}

  lemma TurnView(c: real, v: View, kind: TurnKind, r: PhaseResult, created: bool)
    ensures var w := Next(c, v, Turn(kind, r, created)); var x := Next(c, w, Stopped);
      && w.spend == x.spend == v.spend + r.cost
      && w.gated == x.gated == (v.gated && (kind != Wake && c > 0.0 ==> v.spend < c))
      && w.knownPR == x.knownPR == (if r.outcome == PROpened && r.prNumber != 0 then r.prNumber else v.knownPR)
      && w.talk == x.talk == v.talk && w.onlyPlans == x.onlyPlans == v.onlyPlans
      && w.plansFirst == x.plansFirst == v.plansFirst
  {}

  lemma HeardBooks(p: Policy, s: State, kind: TurnKind, r: PhaseResult, created: bool, stop: bool)
    requires Books(p, s, false) && Affordable(p, s, kind) && s.vm == VMRunning
    ensures var heard := Snoc(s.log, Turn(kind, r, created));
      var u := s.(vm := if stop then VMDestroyed else VMRunning, log := if stop then Snoc(heard, Stopped) else heard);
      var v, w := ViewOf(p.costCeiling, s.log), ViewOf(p.costCeiling, u.log);
      && Books(p, RecordOutcome(u, r), MayBeLost(kind, r))
      && w.talk == v.talk && w.onlyPlans == v.onlyPlans
  {
    hide ViewOf, OnePR, Next;
    var c := p.costCeiling;
    TurnView(c, ViewOf(c, s.log), kind, r, created);
    OnePRTurn(c, ViewOf(c, s.log), s.prNumber, kind, r, created);
    Grow(c, s.log, Turn(kind, r, created));
    if stop { Grow(c, Snoc(s.log, Turn(kind, r, created)), Stopped); }
  }

  lemma TurnBooks(p: Policy, s: State, kind: TurnKind, t: TurnResult)
    requires Books(p, s, false) && Affordable(p, s, kind) && s.vm == VMRunning
    ensures var (u, r) := AwaitAndSettle(s, kind, t);
      var v, w := ViewOf(p.costCeiling, s.log), ViewOf(p.costCeiling, u.log);
      && Books(p, RecordOutcome(u, r), MayBeLost(kind, r))
      && w.talk == v.talk && w.onlyPlans == v.onlyPlans
      && u.control == s.control && u.ceilingReached == s.ceilingReached
  {
    hide ViewOf, Books, RecordOutcome, Heard;
    HeardBooks(p, s, kind, Heard(t), t.prCreated, !Settled(Heard(t)));
  }

  lemma ColdTurn(p: Policy, s: State, kind: TurnKind, mode: Mode, texts: seq<Instr>, t: TurnResult)
    requires Books(p, s, false) && Affordable(p, s, kind) && s.vm != VMRunning
    requires mode == Plan ==> ViewOf(p.costCeiling, s.log).onlyPlans
    requires s.prNumber > 0 ==> !ShouldOpenPR(mode, false)
    ensures var (u, r) := LaunchWarm(s, kind, mode, texts, t); TurnMoves(p, s, kind, Cold(mode), u, r)
  {
    var c := p.costCeiling;
    hide ViewOf, AwaitAndSettle;
    var s1 := Note(s, Attempt(kind, Cold(mode), texts));
    var s2 := s1.(vm := VMRunning, log := Snoc(s1.log, Launched(mode)));
    Grow(c, s.log, Attempt(kind, Cold(mode), texts));
    Grow(c, s1.log, Launched(mode));
    if t.mintOk && t.launchOk {
      TurnBooks(p, s2, kind, t);
    }
  }

  lemma WarmRoundTurn(p: Policy, s: State, texts: seq<Instr>, t: TurnResult)
    requires Books(p, s, false) && Affordable(p, s, Round) && s.vm == VMRunning
    ensures var (u, r) := WarmTurn(s, Round, texts, t); TurnMoves(p, s, Round, Warm, u, r)
  {
    hide ViewOf, AwaitAndSettle;
    Grow(p.costCeiling, s.log, Attempt(Round, Warm, texts));
    TurnBooks(p, Note(s, Attempt(Round, Warm, texts)), Round, t);
  }

  // ---- transitions ----

  lemma HistoryEnterLoop(p: Policy, s: State, env: Env, lost: bool)
    requires Books(p, s, lost) && ViewOf(p.costCeiling, s.log).talk == Quiet
    ensures HistoryInv(p, EnterLoop(p, s, env))
  {
    hide ViewOf;
    Grow(p.costCeiling, s.log, CheckedPR(env.foundPR));
  }

  lemma HistoryEnterDiscussion(p: Policy, s: State, caller: Caller, mode: Mode)
    requires Books(p, s, false) && ViewOf(p.costCeiling, s.log).talk == Quiet
    requires mode == Resume || (mode == Plan && ViewOf(p.costCeiling, s.log).onlyPlans)
    ensures HistoryInv(p, EnterDiscussion(s, caller, mode))
  {
    hide ViewOf;
    Grow(p.costCeiling, s.log, DiscussOpen(mode));
  }

  // Entries these invariants do not read.
  lemma Neutral(c: real, l: Log, o: Obs)
    requires o.Admitted? || o.RoundDone? || o.PRReply?
    ensures ViewOf(c, Snoc(l, o)) == ViewOf(c, l)
  {
    hide ViewOf;
    Grow(c, l, o);
  }

  // Inbox, timer and dedupe updates are outside these invariants.
  lemma HistoryFrame(p: Policy, s: State, t: State)
    requires HistoryInv(p, s)
    requires t.control == s.control && t.vm == s.vm && t.prNumber == s.prNumber && t.cost == s.cost
    requires t.ceilingReached == s.ceilingReached
    requires ViewOf(p.costCeiling, t.log) == ViewOf(p.costCeiling, s.log)
    ensures HistoryInv(p, t)
  {
    hide ViewOf;
  }

  lemma FinishShape(p: Policy, s: State, r: PhaseResult, batch: seq<Instr>, fromPR: bool, replyToID: int)
    ensures var t := FinishRound(p, s, r, batch, fromPR, replyToID);
      && t.control == s.control && t.vm == s.vm && t.prNumber == s.prNumber && t.cost == s.cost
      && t.ceilingReached == s.ceilingReached
      && t.log == if r.outcome == AgentFailed then Snoc(s.log, RoundDone(true))
                  else Snoc(if fromPR then Snoc(s.log, PRReply(replyToID)) else s.log, RoundDone(false))
  {
    hide ArmKeepAlive;
    if r.outcome == AgentFailed {
      var inbox := s.inbox.(pending := batch + s.inbox.pending, fromPR := s.inbox.fromPR || fromPR);
      ArmsOnly(p, s.(coalesce := true, log := Snoc(s.log, RoundDone(true)), inbox := inbox));
    } else {
      ArmsOnly(p, s.(log := Snoc(if fromPR then Snoc(s.log, PRReply(replyToID)) else s.log, RoundDone(false))));
    }
  }

  lemma ArmsOnly(p: Policy, s: State)
    ensures ArmKeepAlive(p, s) == s.(keepAlive := ArmKeepAlive(p, s).keepAlive)
  {}

  lemma HistoryFinish(p: Policy, s: State, r: PhaseResult, batch: seq<Instr>, fromPR: bool, replyToID: int)
    requires Books(p, s, false) && ViewOf(p.costCeiling, s.log).talk == Quiet && s.control == Head
    ensures HistoryInv(p, FinishRound(p, s, r, batch, fromPR, replyToID))
  {
    var c := p.costCeiling;
    assert HistoryInv(p, s) by { hide ViewOf; }
    FinishShape(p, s, r, batch, fromPR, replyToID);
    hide ViewOf, HistoryInv, FinishRound;
    Neutral(c, s.log, RoundDone(true));
    Neutral(c, s.log, RoundDone(false));
    Neutral(c, s.log, PRReply(replyToID));
    Neutral(c, Snoc(s.log, PRReply(replyToID)), RoundDone(false));
    HistoryFrame(p, s, FinishRound(p, s, r, batch, fromPR, replyToID));
  }

  lemma HistoryStart(p: Policy, env: Env)
    ensures HistoryInv(p, Start(p, env))
  {
    hide LaunchWarm, EnterLoop, EnterDiscussion;
    var mode := if p.planFirst then Plan else Initial;
    ColdTurn(p, FRESH, First, mode, [], env.turn);
    var (s1, r) := LaunchWarm(FRESH, First, mode, [], env.turn);
    var s2 := RecordOutcome(s1, r);
    if r.outcome == NeedsInput {
      HistoryEnterDiscussion(p, s2, FromStart, if p.planFirst then Plan else Resume);
    } else {
      HistoryEnterLoop(p, s2, env, MayBeLost(First, r));
    }
  }

  lemma HistoryLeave(p: Policy, s: State, caller: Caller, r: PhaseResult, env: Env)
    requires Books(p, s, MayBeLost(Talk(caller.FromRound?), r))
    requires ViewOf(p.costCeiling, s.log).talk == Built || ViewOf(p.costCeiling, s.log).talk.Waiting?
    ensures HistoryInv(p, LeaveDiscussion(p, s, caller, r, env))
  {
    hide EnterLoop, EnterDiscussion, FinishRound, ViewOf;
    var s1 := s.(control := Head, log := Snoc(s.log, DiscussClose));
    Grow(p.costCeiling, s.log, DiscussClose);
    if r.outcome == NeedsInput {
      HistoryEnterDiscussion(p, s1, caller, Resume);
    } else if caller.FromStart? {
      HistoryEnterLoop(p, s1, env, MayBeLost(Talk(false), r));
    } else {
      HistoryFinish(p, s1, r, caller.batch, caller.fromPR, caller.replyToID);
    }
  }

  lemma HistoryReply(p: Policy, s: State, proceed: bool)
    requires HistoryInv(p, s) && s.control.Discussing?
    ensures var t := Note(s, Reply(proceed)); var v := ViewOf(p.costCeiling, t.log);
      && Books(p, t, false)
      && v.talk == Answered(s.control.mode, proceed)
      && (s.control.mode == Resume || (s.control.mode == Plan && v.onlyPlans))
  {
    hide ViewOf;
    Grow(p.costCeiling, s.log, Reply(proceed));
  }

  lemma HistoryAnswer(p: Policy, s: State, i: string, env: Env)
    requires HistoryInv(p, s) && s.control.Discussing? && s.vm != VMRunning && !CeilingHit(p, s)
    ensures HistoryInv(p, Answer(p, s, s.control.caller, s.control.mode, i, env))
  {
    hide LaunchWarm, LeaveDiscussion, ViewOf, OnePR, Ledger;
    HistoryReply(p, s, env.proceed);
    var caller := s.control.caller;
    var s1 := Note(s, Reply(env.proceed));
    var mode := if !env.proceed then s.control.mode else if s.prNumber > 0 then Resume else Execute;
    ColdTurn(p, s1, Talk(caller.FromRound?), mode, [Said(i)], env.turn);
    var (s2, r) := LaunchWarm(s1, Talk(caller.FromRound?), mode, [Said(i)], env.turn);
    if env.proceed || r.outcome != NeedsInput {
      HistoryLeave(p, RecordOutcome(s2, r), caller, r, env);
    }
  }

  lemma HistoryDiscuss(p: Policy, s: State, sig: Signal, env: Env)
    requires HistoryInv(p, s) && s.control.Discussing? && s.vm != VMRunning
    ensures HistoryInv(p, Discuss(p, s, s.control.caller, s.control.mode, sig, env))
  {
    hide Answer, ViewOf, OnePR, Ledger;
    match sig
    case UserMessage(text, attachments) =>
      var i := Instruction(text, attachments);
      if i != "" && !CeilingHit(p, s) { HistoryAnswer(p, s, i, env); }
    case Abort(reason) => HistoryEnd(p, s, Aborted(if reason == "" then "aborted" else reason));
    case HardTTL => HistoryEnd(p, s, Aborted("hard_ttl"));
    case _ =>
  }

  lemma HistoryRound(p: Policy, s: State, env: Env)
    requires HistoryInv(p, s) && s.control == Head && !CeilingHit(p, s)
    ensures HistoryInv(p, StartRound(p, s, env))
  {
    hide LaunchWarm, WarmTurn, FinishRound, EnterDiscussion, ViewOf;
    var batch, fromPR, replyToID := s.inbox.pending, s.inbox.fromPR, s.inbox.replyToID;
    var s1 := TakeBatch(s);
    if s.vm == VMRunning {
      WarmRoundTurn(p, s1, batch, env.turn);
    } else {
      ColdTurn(p, s1, Round, Resume, batch, env.turn);
    }
    var (s2, r) := RoundTurn(s1, batch, env.turn);
    var s3 := RecordOutcome(s2, r);
    if r.outcome == NeedsInput {
      HistoryEnterDiscussion(p, s3, FromRound(batch, fromPR, replyToID), Resume);
    } else {
      HistoryFinish(p, s3, r, batch, fromPR, replyToID);
    }
  }

  lemma HistoryWindow(p: Policy, s: State, env: Env)
    requires HistoryInv(p, s) && s.control == Head
    ensures HistoryInv(p, CloseWindow(p, s, env))
  {
    hide StartRound, ViewOf;
    var s1 := Gather(s, env);
    if s1.inbox.pending != [] && !Frozen(s1) && !CeilingHit(p, s1) { HistoryRound(p, s1, env); }
  }

  lemma HistoryAttach(p: Policy, s: State, env: Env)
    requires HistoryInv(p, s) && s.control == Head
    ensures HistoryInv(p, AttachHuman(s, env))
  {
    hide LaunchWarm, ViewOf;
    if !s.attached && s.vm != VMRunning {
      ColdTurn(p, s.(attached := true), Wake, Resume, [], env.turn);
    }
  }

  lemma HistoryEnd(p: Policy, s: State, reason: EndReason)
    requires HistoryInv(p, s)
    ensures HistoryInv(p, EndSession(s, reason)) && HistoryInv(p, TeardownVM(s))
  {
    hide ViewOf;
    Grow(p.costCeiling, s.log, Stopped);
  }

  lemma HistoryInbox(p: Policy, s: State, b: Inbox)
    requires HistoryInv(p, s)
    ensures HistoryInv(p, s.(inbox := b)) && HistoryInv(p, ArmCoalesce(s.(inbox := b)))
  {
    hide HistoryInv;
    HistoryFrame(p, s, s.(inbox := b));
    HistoryFrame(p, s, ArmCoalesce(s.(inbox := b)));
  }

  lemma HistoryFromGitHub(p: Policy, s: State, sig: Signal, env: Env)
    requires HistoryInv(p, s) && s.control == Head
    requires sig.ReviewComment? || sig.ReviewSubmitted? || sig.CIStatus? || sig.PRClosed?
    ensures HistoryInv(p, HeadStep(p, s, sig, env))
  {
    hide HistoryInv, Dedupe.See;
    var s1 := DedupeDelivery(s, sig.delivery).0;
    Neutral(p.costCeiling, s.log, Admitted(sig.delivery));
    HistoryFrame(p, s, s1);
    hide DedupeDelivery, ArmCoalesce, EndSession;
    match sig
    case PRClosed(_, merged) => HistoryEnd(p, s1, if merged then Merged else Closed);
    case ReviewComment(_, id, inline, text) =>
      var b := MarkSeen(PushFromPR(s1.inbox, GitHub(text), id), id);
      HistoryInbox(p, s1, if id != 0 && inline then b.(replyToID := id) else b);
    case ReviewSubmitted(_, id, _, text) =>
      HistoryInbox(p, s1, MarkSeen(s1.inbox, id));
      HistoryInbox(p, s1, PushFromPR(MarkSeen(s1.inbox, id), GitHub(text), id));
    case CIStatus(_, _, url) => HistoryInbox(p, s1, PushFromPR(s1.inbox, CIFailure(url), 0));
    case _ =>
  }

  lemma HistoryFromHuman(p: Policy, s: State, sig: Signal, env: Env)
    requires HistoryInv(p, s) && s.control == Head
    requires sig.UserMessage? || sig.Attach? || sig.Detach? || sig.RelayEnded?
    ensures HistoryInv(p, HeadStep(p, s, sig, env))
  {
    hide HistoryInv, AttachHuman;
    HistoryAttach(p, s, env);
    var t := HeadStep(p, s, sig, env);
    if t != AttachHuman(s, env) { HistoryFrame(p, s, t); }
  }

  lemma HistoryFromTimer(p: Policy, s: State, sig: Signal, env: Env)
    requires HistoryInv(p, s) && s.control == Head
    requires sig.Abort? || sig.HardTTL? || sig.CoalesceTimer? || sig.KeepAliveTimer?
    ensures HistoryInv(p, HeadStep(p, s, sig, env))
  {
    hide HistoryInv, CloseWindow;
    match sig
    case Abort(reason) => HistoryEnd(p, s, Aborted(reason));
    case HardTTL => HistoryEnd(p, s, Aborted("hard_ttl"));
    case CoalesceTimer => HistoryWindow(p, s, env);
    case KeepAliveTimer =>
      HistoryFrame(p, s, s.(keepAlive := false));
      HistoryEnd(p, s.(keepAlive := false), EndedNoInput);
  }

  lemma HistoryStep(p: Policy, s: State, sig: Signal, env: Env)
    requires HistoryInv(p, s) && (s.control.Discussing? ==> s.vm != VMRunning)
    ensures HistoryInv(p, Step(p, s, sig, env))
  {
    hide HistoryInv, HeadStep, Discuss;
    if s.control.Discussing? {
      HistoryDiscuss(p, s, sig, env);
    } else if s.control == Head {
      match sig
      case ReviewComment(_, _, _, _) => HistoryFromGitHub(p, s, sig, env);
      case ReviewSubmitted(_, _, _, _) => HistoryFromGitHub(p, s, sig, env);
      case CIStatus(_, _, _) => HistoryFromGitHub(p, s, sig, env);
      case PRClosed(_, _) => HistoryFromGitHub(p, s, sig, env);
      case UserMessage(_, _) => HistoryFromHuman(p, s, sig, env);
      case Attach => HistoryFromHuman(p, s, sig, env);
      case Detach => HistoryFromHuman(p, s, sig, env);
      case RelayEnded(_) => HistoryFromHuman(p, s, sig, env);
      case _ => HistoryFromTimer(p, s, sig, env);
    }
  }
}
