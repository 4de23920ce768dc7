/** When a session can create another pull request: truthful guests, any report lost anywhere. */
module SessionPRs {
  import opened Protocol
  import opened Session
  import opened SessionLog
  import Dedupe
  import Laws = SessionLaws
  import SessionTheorems

  predicate CanOpen(g: Guest) {
    g.Live? && ShouldOpenPR(g.mode, g.prOpened)
  }

  // A guest creates a PR only when it should, and what is heard of its turn is the truth or a failure.
  predicate TruthfulTurn(g: Guest, r: PhaseResult, created: bool) {
    && (created ==> CanOpen(g))
    && (r.outcome != AgentFailed ==> (r.outcome == PROpened <==> created))
    && (r.outcome == PROpened ==> r.prNumber >= 0)
  }

  // Every turn is truthful, and the check that ends the initial phase finds only a PR that exists.
  // Unlike Faithful, nothing says that a report arrives, or that the check finds what is there.
  predicate Truthful(log: Log) {
    match log
    case Nil => true
    case Snoc(prev, o) =>
      && Truthful(prev)
      && (o.Turn? ==> TruthfulTurn(GuestOf(prev), o.res, o.prCreated))
      && (o.CheckedPR? ==> o.number >= 0 && (o.number > 0 ==> PRsCreated(prev) > 0))
  }

  // ---- the log, as far as pull requests are concerned ----

  datatype Facts = Facts(guest: Guest, prs: nat, truthful: bool)

  function FactsOf(log: Log): Facts {
    Facts(GuestOf(log), PRsCreated(log), Truthful(log))
  }

  function Next(f: Facts, o: Obs): Facts {
    Facts(GuestAfter(f.guest, o), f.prs + (if o.Turn? && o.prCreated then 1 else 0),
          f.truthful && (o.Turn? ==> TruthfulTurn(f.guest, o.res, o.prCreated))
          && (o.CheckedPR? ==> o.number >= 0 && (o.number > 0 ==> f.prs > 0)))
  }

  lemma Grow(l: Log, o: Obs)
    ensures FactsOf(Snoc(l, o)) == Next(FactsOf(l), o)
  {}

  // Entries that say nothing about guests or PRs.
  lemma Neutral(l: Log, o: Obs)
    requires !o.Launched? && !o.Turn? && !o.Stopped? && !o.CheckedPR?
    ensures FactsOf(Snoc(l, o)) == FactsOf(l)
  {
    Grow(l, o);
  }

  // What of a state matters here: the log's facts, the known number, and whether the VM is warm.
  datatype Look = Look(f: Facts, number: int, warm: bool)

  function LookAt(s: State): Look {
    Look(FactsOf(s.log), s.prNumber, s.vm == VMRunning)
  }

  // A live guest is warm, and once a number is known no guest can open a PR.
  predicate Good(v: Look) {
    v.f.truthful ==> v.number >= 0 && (v.number > 0 ==> !CanOpen(v.f.guest)) && (v.f.guest.Live? ==> v.warm)
  }

  // From v to w truth is kept backwards, and a known number stays known and lets no PR be created.
  predicate Secures(v: Look, w: Look) {
    w.f.truthful ==> v.f.truthful && (v.number > 0 ==> w.number > 0 && w.f.prs == v.f.prs)
  }

  // A PR, if there is one, is the last guest's.
  predicate LastGuests(v: Look) {
    v.f.truthful && v.f.prs > 0 ==> !CanOpen(v.f.guest)
  }

  predicate NoneYet(v: Look) { v.f.truthful ==> v.f.prs == 0 }

  // ---- one agent turn ----

  // What a turn of guest g leaves behind.
  predicate Ran(v: Look, g: Guest, w: Look, o: Outcome, created: bool) {
    w.f.truthful ==>
      && v.f.truthful
      && (created ==> CanOpen(g) && (o == PROpened || o == AgentFailed))
      && w.f.prs == v.f.prs + (if created then 1 else 0)
      && (w.number == v.number || (created && w.number > 0))
      && (w.f.guest == Gone || (if created then w.f.guest.Live? && w.f.guest.prOpened else w.f.guest == g))
      && (w.f.guest.Live? ==> w.warm)
  }

  // A guest that cannot open a PR behind a known number keeps what is good; and out of an initial phase
  // without a PR, one exists only if this guest made it, and then the phase is over.
  lemma RanKeeps(v: Look, g: Guest, w: Look, o: Outcome, created: bool)
    requires Good(v) && Ran(v, g, w, o, created) && (v.f.truthful && v.number > 0 ==> !CanOpen(g))
    ensures Good(w) && Secures(v, w)
    ensures NoneYet(v) ==> LastGuests(w) && (o == NeedsInput ==> NoneYet(w))
  {}

  lemma SettleRan(s: State, kind: TurnKind, t: TurnResult)
    ensures var (u, r) := AwaitAndSettle(s, kind, t);
      Ran(LookAt(s), FactsOf(s.log).guest, LookAt(RecordOutcome(u, r)), r.outcome, t.prCreated)
  {
    hide GuestOf, PRsCreated, Truthful, CanOpen;
    var o := Turn(kind, Heard(t), t.prCreated);
    Grow(s.log, o);
    Grow(Snoc(s.log, o), Stopped);
  }

  // A turn leaves everything else of the state alone.
  predicate Frame(s: State, v: State) {
    v == s.(vm := v.vm, log := v.log, cost := v.cost, prNumber := v.prNumber)
  }

  // A cold launch runs a fresh guest, or fails and boots nothing.
  lemma LaunchRan(s: State, kind: TurnKind, mode: Mode, texts: seq<Instr>, t: TurnResult)
    ensures var (u, r) := LaunchWarm(s, kind, mode, texts, t);
      var v := RecordOutcome(u, r);
      && Frame(s, v)
      && if t.mintOk && t.launchOk then Ran(LookAt(s), Live(mode, false), LookAt(v), r.outcome, t.prCreated)
         else LookAt(v) == LookAt(s) && r.outcome == AgentFailed
  {
    hide GuestOf, PRsCreated, Truthful, CanOpen, AwaitAndSettle;
    var l1 := Snoc(s.log, Attempt(kind, Cold(mode), texts));
    Neutral(s.log, Attempt(kind, Cold(mode), texts));
    Grow(l1, Launched(mode));
    var s1 := s.(vm := VMRunning, log := Snoc(l1, Launched(mode)));
    SettleFrame(s1, kind, t);
    SettleRan(s1, kind, t);
  }

  lemma SettleFrame(s: State, kind: TurnKind, t: TurnResult)
    ensures var (u, r) := AwaitAndSettle(s, kind, t); Frame(s, RecordOutcome(u, r))
  {}

  lemma WarmRan(s: State, texts: seq<Instr>, t: TurnResult)
    ensures var (u, r) := WarmTurn(s, Round, texts, t);
      var v := RecordOutcome(u, r);
      Frame(s, v) && Ran(LookAt(s), FactsOf(s.log).guest, LookAt(v), r.outcome, t.prCreated)
  {
    hide GuestOf, PRsCreated, Truthful, CanOpen, AwaitAndSettle;
    Neutral(s.log, Attempt(Round, Warm, texts));
    SettleFrame(Note(s, Attempt(Round, Warm, texts)), Round, t);
    SettleRan(Note(s, Attempt(Round, Warm, texts)), Round, t);
  }

  // A launch whose guest cannot open a PR behind a known number.
  lemma LaunchKeeps(s: State, kind: TurnKind, mode: Mode, texts: seq<Instr>, t: TurnResult)
    requires Good(LookAt(s)) && (s.prNumber > 0 ==> mode == Resume || mode == Plan)
    ensures var (u, r) := LaunchWarm(s, kind, mode, texts, t);
      var v := RecordOutcome(u, r);
      && v.control == s.control && Good(LookAt(v)) && Secures(LookAt(s), LookAt(v))
      && (NoneYet(LookAt(s)) ==> LastGuests(LookAt(v)) && (r.outcome == NeedsInput ==> NoneYet(LookAt(v))))
  {
    LaunchRan(s, kind, mode, texts, t);
    hide LaunchWarm, RecordOutcome, LookAt;
    var (u, r) := LaunchWarm(s, kind, mode, texts, t);
    var v := RecordOutcome(u, r);
    assert LookAt(s).number == s.prNumber by { LookNumber(s); }
    if t.mintOk && t.launchOk {
      hide Ran, Good, Secures, NoneYet, LastGuests;
      RanKeeps(LookAt(s), Live(mode, false), LookAt(v), r.outcome, t.prCreated);
    }
  }

  lemma LookNumber(s: State)
    ensures LookAt(s).number == s.prNumber
  {}

  // ---- transitions ----

  predicate InStart(c: Control) { c.Discussing? && c.caller.FromStart? }

  // An initial phase that still discusses has created no PR.
  ghost predicate PRInv(s: State) {
    Good(LookAt(s)) && (InStart(s.control) ==> NoneYet(LookAt(s)))
  }

  ghost predicate Kept(s: State, t: State) {
    PRInv(t) && Secures(LookAt(s), LookAt(t))
  }

  lemma KeptTrans(v: Look, w: Look, x: Look)
    requires Secures(v, w) && Secures(w, x)
    ensures Secures(v, x)
  {}

  lemma Reflexive(v: Look)
    ensures Secures(v, v)
  {}

  lemma StoppedKeeps(v: Look, warm: bool)
    requires Good(v)
    ensures var w := v.(f := Next(v.f, Stopped), warm := warm); Good(w) && Secures(v, w)
  {}

  lemma CheckKeeps(v: Look, n: int)
    requires Good(v) && LastGuests(v)
    ensures var w := v.(f := Next(v.f, CheckedPR(n)), number := n); v.number == 0 ==> Good(w) && Secures(v, w)
  {}

  lemma EnterLoopKept(p: Policy, s: State, env: Env)
    requires Good(LookAt(s)) && LastGuests(LookAt(s))
    ensures Kept(s, EnterLoop(p, s, env))
  {
    hide FactsOf, Good, Secures, LastGuests;
    Grow(s.log, CheckedPR(env.foundPR));
    Reflexive(LookAt(s));
    CheckKeeps(LookAt(s), env.foundPR);
  }

  lemma StartKept(p: Policy, env: Env)
    ensures PRInv(Start(p, env))
  {
    var mode := if p.planFirst then Plan else Initial;
    FreshLook();
    hide LaunchWarm, RecordOutcome, FactsOf, Good, Secures, NoneYet, LastGuests, EnterLoop;
    LaunchKeeps(FRESH, First, mode, [], env.turn);
    var (u, r) := LaunchWarm(FRESH, First, mode, [], env.turn);
    var v := RecordOutcome(u, r);
    EnterLoopKept(p, v, env);
    Neutral(v.log, DiscussOpen(if p.planFirst then Plan else Resume));
  }

  lemma FreshLook()
    ensures Good(LookAt(FRESH)) && NoneYet(LookAt(FRESH)) && FRESH.prNumber == 0
  {}

  lemma FinishLook(p: Policy, s: State, r: PhaseResult, batch: seq<Instr>, fromPR: bool, replyToID: int)
    ensures var t := FinishRound(p, s, r, batch, fromPR, replyToID); LookAt(t) == LookAt(s) && t.control == s.control
  {
    hide FactsOf;
    Neutral(s.log, RoundDone(true));
    Neutral(s.log, RoundDone(false));
    Neutral(s.log, PRReply(replyToID));
    Neutral(Snoc(s.log, PRReply(replyToID)), RoundDone(false));
  }

  // A round's guest is the warm one, or a resume guest.
  lemma RoundKeeps(s: State, batch: seq<Instr>, t: TurnResult)
    requires Good(LookAt(s))
    ensures var (u, r) := RoundTurn(s, batch, t);
      var v := RecordOutcome(u, r);
      v.control == s.control && Good(LookAt(v)) && Secures(LookAt(s), LookAt(v))
  {
    if s.vm == VMRunning {
      WarmRan(s, batch, t);
      WarmGuest(s);
      hide WarmTurn, LaunchWarm, RecordOutcome, LookAt, Ran, Good, Secures, FactsOf;
      var (u, r) := WarmTurn(s, Round, batch, t);
      RanKeeps(LookAt(s), FactsOf(s.log).guest, LookAt(RecordOutcome(u, r)), r.outcome, t.prCreated);
    } else {
      LaunchKeeps(s, Round, Resume, batch, t);
      hide WarmTurn, LaunchWarm, RecordOutcome, LookAt, Good, Secures;
    }
  }

  lemma WarmGuest(s: State)
    requires Good(LookAt(s))
    ensures LookAt(s).f.truthful && LookAt(s).number > 0 ==> !CanOpen(FactsOf(s.log).guest)
  {}

  lemma RoundKept(p: Policy, s: State, env: Env)
    requires PRInv(s) && s.control == Head
    ensures Kept(s, StartRound(p, s, env))
  {
    var batch, fromPR, replyToID := s.inbox.pending, s.inbox.fromPR, s.inbox.replyToID;
    assert LookAt(TakeBatch(s)) == LookAt(s) && TakeBatch(s).control == Head;
    RoundKeeps(TakeBatch(s), batch, env.turn);
    hide TakeBatch, RoundTurn, RecordOutcome, FactsOf, Good, Secures, NoneYet, FinishRound;
    var (u, r) := RoundTurn(TakeBatch(s), batch, env.turn);
    var v := RecordOutcome(u, r);
    FinishLook(p, v, r, batch, fromPR, replyToID);
    Neutral(v.log, DiscussOpen(Resume));
  }

  lemma LeaveKept(p: Policy, s: State, caller: Caller, r: PhaseResult, env: Env)
    requires Good(LookAt(s))
    requires caller.FromStart? ==> LastGuests(LookAt(s)) && (r.outcome == NeedsInput ==> NoneYet(LookAt(s)))
    ensures Kept(s, LeaveDiscussion(p, s, caller, r, env))
  {
    hide FactsOf, Good, Secures, NoneYet, LastGuests, FinishRound, EnterLoop;
    var s1 := s.(control := Head, log := Snoc(s.log, DiscussClose));
    Neutral(s.log, DiscussClose);
    Neutral(s1.log, DiscussOpen(Resume));
    Reflexive(LookAt(s));
    if r.outcome != NeedsInput {
      if caller.FromStart? {
        EnterLoopKept(p, s1, env);
      } else {
        FinishLook(p, s1, r, caller.batch, caller.fromPR, caller.replyToID);
      }
    }
  }

  lemma ReplyLook(s: State, proceed: bool)
    ensures var s1 := Note(s, Reply(proceed));
      LookAt(s1) == LookAt(s) && s1.prNumber == s.prNumber && s1.control == s.control
  {
    hide FactsOf;
    Neutral(s.log, Reply(proceed));
  }

  // A reply launches in the call's own mode, or in execute mode only while no number is known.
  lemma TalkKeeps(s: State, caller: Caller, mode: Mode, i: string, env: Env)
    requires Good(LookAt(s)) && (mode == Resume || mode == Plan)
    ensures var (v, r) := TalkTurn(s, caller, mode, i, env);
      && v.control == s.control && Good(LookAt(v)) && Secures(LookAt(s), LookAt(v))
      && (NoneYet(LookAt(s)) ==> LastGuests(LookAt(v)) && (r.outcome == NeedsInput ==> NoneYet(LookAt(v))))
  {
    ReplyLook(s, env.proceed);
    hide Note, LaunchWarm, RecordOutcome, LookAt, Good, Secures, NoneYet, LastGuests;
    var m := if !env.proceed then mode else if s.prNumber > 0 then Resume else Execute;
    LaunchKeeps(Note(s, Reply(env.proceed)), Talk(caller.FromRound?), m, [Said(i)], env.turn);
  }

  lemma AnswerKept(p: Policy, s: State, i: string, env: Env)
    requires PRInv(s) && s.control.Discussing? && (s.control.mode == Resume || s.control.mode == Plan)
    ensures Kept(s, Answer(p, s, s.control.caller, s.control.mode, i, env))
  {
    var caller, mode := s.control.caller, s.control.mode;
    TalkKeeps(s, caller, mode, i, env);
    hide TalkTurn, LeaveDiscussion, LookAt, Good, Secures, NoneYet, LastGuests;
    var (v, r) := TalkTurn(s, caller, mode, i, env);
    if env.proceed || r.outcome != NeedsInput {
      LeaveKept(p, v, caller, r, env);
      KeptTrans(LookAt(s), LookAt(v), LookAt(LeaveDiscussion(p, v, caller, r, env)));
    }
  }

  lemma EndKept(s: State, reason: EndReason)
    requires Good(LookAt(s))
    ensures Kept(s, EndSession(s, reason)) && Kept(s.(control := Head), TeardownVM(s.(control := Head)))
  {
    hide GuestOf, PRsCreated, Truthful;
    Grow(s.log, Stopped);
    StoppedKeeps(LookAt(s), false);
    hide Good, Secures;
  }

  lemma AttachKept(s: State, env: Env)
    requires PRInv(s) && s.control == Head
    ensures Kept(s, AttachHuman(s, env))
  {
    var s1 := s.(attached := true);
    assert LookAt(s1) == LookAt(s);
    Reflexive(LookAt(s));
    LaunchKeeps(s1, Wake, Resume, [], env.turn);
    hide LaunchWarm, RecordOutcome, FactsOf, Good, Secures, NoneYet, LastGuests;
  }

  // A step that turns nothing changes only what does not matter.
  predicate Quiet(s: State, t: State) {
    LookAt(t) == LookAt(s) && t.control == s.control
  }

  lemma QuietKept(s: State, t: State)
    requires PRInv(s) && Quiet(s, t)
    ensures Kept(s, t)
  {}

  lemma DedupeQuiet(s: State, d: string)
    ensures Quiet(s, DedupeDelivery(s, d).0)
  {
    hide FactsOf, Dedupe.See;
    Neutral(s.log, Admitted(d));
  }

  lemma GitHubKept(p: Policy, s: State, sig: Signal, env: Env)
    requires PRInv(s) && s.control == Head
    requires sig.ReviewComment? || sig.ReviewSubmitted? || sig.CIStatus? || sig.PRClosed?
    ensures Kept(s, HeadStep(p, s, sig, env))
  {
    DedupeQuiet(s, sig.delivery);
    QuietKept(s, DedupeDelivery(s, sig.delivery).0);
    var s1 := DedupeDelivery(s, sig.delivery).0;
    if sig.PRClosed? {
      EndKept(s1, if sig.merged then Merged else Closed);
      hide DedupeDelivery, FactsOf, Good, Secures, NoneYet;
    } else {
      var t := HeadStep(p, s, sig, env);
      assert Quiet(s, t) by { hide DedupeDelivery, FactsOf, PushFromPR, MarkSeen; }
      QuietKept(s, t);
    }
  }

  lemma WindowKept(p: Policy, s: State, env: Env)
    requires PRInv(s) && s.control == Head
    ensures Kept(s, CloseWindow(p, s, env))
  {
    hide FactsOf, Good, Secures, NoneYet, StartRound, FoldThread;
    var s1 := Gather(s, env);
    assert Quiet(s, s1);
    QuietKept(s, s1);
    RoundKept(p, s1, env);
    if Frozen(s1) || s1.inbox.pending == [] || CeilingHit(p, s1) {
      QuietKept(s, CloseWindow(p, s, env));
    }
  }

  lemma HumanKept(p: Policy, s: State, sig: Signal, env: Env)
    requires PRInv(s) && s.control == Head
    requires sig.UserMessage? || sig.Abort? || sig.Attach? || sig.Detach? || sig.RelayEnded? || sig.HardTTL?
    ensures Kept(s, HeadStep(p, s, sig, env))
  {
    hide FactsOf, Good, Secures, NoneYet, AttachHuman, Instruction, Push;
    AttachKept(s, env);
    EndKept(s, Aborted("hard_ttl"));
    var t := HeadStep(p, s, sig, env);
    match sig
    case Abort(reason) => EndKept(s, Aborted(reason));
    case Attach =>
    case HardTTL =>
    case UserMessage(_, _) => if LookAt(t) == LookAt(s) && t.control == s.control { QuietKept(s, t); }
    case _ => QuietKept(s, t);
  }

  lemma IdleKept(p: Policy, s: State, env: Env)
    requires PRInv(s) && s.control == Head
    ensures Kept(s, HeadStep(p, s, KeepAliveTimer, env))
  {
    hide FactsOf, Good, Secures, NoneYet;
    var s1 := s.(keepAlive := false);
    QuietKept(s, s1);
    EndKept(s1, EndedNoInput);
    if HeadStep(p, s, KeepAliveTimer, env) == s { QuietKept(s, s); }
  }

  lemma StepKept(p: Policy, s: State, sig: Signal, env: Env)
    requires PRInv(s)
    requires s.control.Discussing? ==> s.control.mode == Resume || s.control.mode == Plan
    ensures Kept(s, Step(p, s, sig, env))
  {
    QuietKept(s, s);
    if s.control == Head {
      if sig.ReviewComment? || sig.ReviewSubmitted? || sig.CIStatus? || sig.PRClosed? {
        GitHubKept(p, s, sig, env);
      } else if sig.KeepAliveTimer? {
        IdleKept(p, s, env);
      } else if sig.CoalesceTimer? {
        WindowKept(p, s, env);
      } else {
        HumanKept(p, s, sig, env);
      }
      hide HeadStep, CloseWindow, LookAt, PRInv, Secures;
    } else if s.control.Discussing? {
      DiscussKept(p, s, sig, env);
    }
  }

  lemma DiscussKept(p: Policy, s: State, sig: Signal, env: Env)
    requires PRInv(s) && s.control.Discussing? && (s.control.mode == Resume || s.control.mode == Plan)
    ensures Kept(s, Discuss(p, s, s.control.caller, s.control.mode, sig, env))
  {
    hide FactsOf, Good, Secures, NoneYet, Answer, Instruction, EndSession;
    QuietKept(s, s);
    QuietKept(s, s.(ceilingReached := true));
    EndKept(s, Aborted("hard_ttl"));
    match sig
    case Abort(reason) => EndKept(s, Aborted(if reason == "" then "aborted" else reason));
    case UserMessage(text, attachments) => AnswerKept(p, s, Instruction(text, attachments), env);
    case _ =>
  }

  // ---- at the ceiling ----

  ghost predicate SamePRs(s: State, t: State) {
    FactsOf(t.log).truthful ==> FactsOf(t.log).prs == FactsOf(s.log).prs
  }

  lemma QuietSame(s: State, t: State)
    requires Quiet(s, t)
    ensures SamePRs(s, t)
  {}

  lemma StopSame(s: State, reason: EndReason)
    ensures SamePRs(s, EndSession(s, reason)) && SamePRs(s, TeardownVM(s))
  {
    hide GuestOf, PRsCreated, Truthful;
    Grow(s.log, Stopped);
  }

  // The wake-up turn of an attach runs in a resume guest, which opens no PR.
  lemma AttachSame(s: State, env: Env)
    ensures SamePRs(s, AttachHuman(s, env))
  {
    var s1 := s.(attached := true);
    assert LookAt(s1) == LookAt(s);
    assert !CanOpen(Live(Resume, false));
    LaunchRan(s1, Wake, Resume, [], env.turn);
    hide LaunchWarm, RecordOutcome, FactsOf, CanOpen;
  }

  lemma CeilingSame(p: Policy, s: State, sig: Signal, env: Env)
    requires CeilingHit(p, s)
    ensures SamePRs(s, Step(p, s, sig, env))
  {
    QuietSame(s, s);
    if s.control == Head {
      if sig.ReviewComment? || sig.ReviewSubmitted? || sig.CIStatus? || sig.PRClosed? {
        GitHubSame(p, s, sig, env);
      } else {
        CeilingHeadSame(p, s, sig, env);
      }
      hide HeadStep, SamePRs;
    } else if s.control.Discussing? {
      CeilingDiscussSame(p, s, sig, env);
    }
  }

  lemma GitHubSame(p: Policy, s: State, sig: Signal, env: Env)
    requires s.control == Head
    requires sig.ReviewComment? || sig.ReviewSubmitted? || sig.CIStatus? || sig.PRClosed?
    ensures SamePRs(s, HeadStep(p, s, sig, env))
  {
    DedupeQuiet(s, sig.delivery);
    var s1 := DedupeDelivery(s, sig.delivery).0;
    if sig.PRClosed? { StopSame(s1, if sig.merged then Merged else Closed); }
    hide DedupeDelivery, FactsOf, PushFromPR, MarkSeen, EndSession;
  }

  lemma CeilingHeadSame(p: Policy, s: State, sig: Signal, env: Env)
    requires s.control == Head && CeilingHit(p, s)
    requires !(sig.ReviewComment? || sig.ReviewSubmitted? || sig.CIStatus? || sig.PRClosed?)
    ensures SamePRs(s, HeadStep(p, s, sig, env))
  {
    hide FactsOf, AttachHuman, Instruction, Push, StartRound, FoldThread;
    AttachSame(s, env);
    StopSame(s.(keepAlive := false), EndedNoInput);
    match sig
    case Abort(reason) => StopSame(s, Aborted(reason));
    case HardTTL => StopSame(s, Aborted("hard_ttl"));
    case _ =>
  }

  lemma CeilingDiscussSame(p: Policy, s: State, sig: Signal, env: Env)
    requires s.control.Discussing? && CeilingHit(p, s)
    ensures SamePRs(s, Discuss(p, s, s.control.caller, s.control.mode, sig, env))
  {
    hide FactsOf, Answer, Instruction;
    match sig
    case Abort(reason) => StopSame(s, Aborted(if reason == "" then "aborted" else reason));
    case HardTTL => StopSame(s, Aborted("hard_ttl"));
    case _ =>
  }

  // ---- no more PRs ----

  // What decides whether a session can build another PR: it is open, no number is known, and the
  // ceiling is not hit.
  predicate MayBuild(p: Policy, s: State) {
    !s.control.Done? && s.prNumber <= 0 && !CeilingHit(p, s)
  }

  lemma {:induction false} RunPRInv(p: Policy, start: Env, inputs: seq<Input>)
    ensures PRInv(Run(p, start, inputs))
  {
    if inputs == [] {
      StartKept(p, start);
    } else {
      var before, i := inputs[..|inputs| - 1], inputs[|inputs| - 1];
      RunPRInv(p, start, before);
      DiscussModes(p, start, before);
      hide Step, PRInv;
      StepKept(p, Run(p, start, before), i.sig, i.env);
    }
  }

  lemma DiscussModes(p: Policy, start: Env, inputs: seq<Input>)
    ensures var c := Run(p, start, inputs).control; c.Discussing? ==> c.mode == Resume || c.mode == Plan
  {
    hide Run, Laws.LoopInv;
    SessionTheorems.RunKeeps(p, start, inputs);
  }

  lemma ClosedStep(p: Policy, s: State, sig: Signal, env: Env)
    requires PRInv(s) && Laws.LoopInv(p, s) && !MayBuild(p, s)
    requires s.control.Discussing? ==> s.control.mode == Resume || s.control.mode == Plan
    ensures var t := Step(p, s, sig, env);
      Truthful(t.log) ==> Truthful(s.log) && !MayBuild(p, t) && PRsCreated(t.log) == PRsCreated(s.log)
  {
    hide HeadStep, Discuss, GuestOf, PRsCreated, Truthful, Laws.LoopInv;
    StepKept(p, s, sig, env);
    if CeilingHit(p, s) {
      CeilingSame(p, s, sig, env);
      Laws.CeilingStep(p, s, sig, env);
    }
    hide Step;
    if s.control.Done? { assert Step(p, s, sig, env) == s by { DoneStays(p, s, sig, env); } }
  }

  lemma DoneStays(p: Policy, s: State, sig: Signal, env: Env)
    requires s.control.Done?
    ensures Step(p, s, sig, env) == s
  {}

  // Truth is about the whole past.
  lemma TruthBefore(p: Policy, start: Env, inputs: seq<Input>, i: Input)
    requires Truthful(Step(p, Run(p, start, inputs), i.sig, i.env).log)
    ensures Truthful(Run(p, start, inputs).log)
  {
    RunPRInv(p, start, inputs);
    DiscussModes(p, start, inputs);
    StepKept(p, Run(p, start, inputs), i.sig, i.env);
    hide Run, Step, PRInv, GuestOf, PRsCreated, Truthful;
  }

  // A session that may not build never creates another PR, whatever comes.
  lemma {:induction false} ClosedForGood(p: Policy, start: Env, inputs: seq<Input>, more: seq<Input>)
    requires !MayBuild(p, Run(p, start, inputs)) && Truthful(Run(p, start, inputs + more).log)
    ensures Truthful(Run(p, start, inputs).log) && !MayBuild(p, Run(p, start, inputs + more))
    ensures PRsCreated(Run(p, start, inputs + more).log) == PRsCreated(Run(p, start, inputs).log)
    decreases |more|
  {
    if more == [] {
      assert inputs + more == inputs;
    } else {
      var i, mid := more[|more| - 1], inputs + more[..|more| - 1];
      Extend(p, start, mid, i);
      assert mid + [i] == inputs + more;
      TruthBefore(p, start, mid, i);
      hide Step, Truthful, PRsCreated, MayBuild;
      ClosedForGood(p, start, inputs, more[..|more| - 1]);
      RunPRInv(p, start, mid);
      DiscussModes(p, start, mid);
      SessionTheorems.RunKeeps(p, start, mid);
      ClosedStep(p, Run(p, start, mid), i.sig, i.env);
    }
  }

  lemma Extend(p: Policy, start: Env, inputs: seq<Input>, i: Input)
    ensures Run(p, start, inputs + [i]) == Step(p, Run(p, start, inputs), i.sig, i.env)
  {
    hide Step;
    assert (inputs + [i])[..|inputs|] == inputs;
  }
}
