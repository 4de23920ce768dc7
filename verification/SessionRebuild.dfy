/** The other half of module SessionPRs: a session that may build another pull request can. */
module SessionRebuild {
  import opened Protocol
  import opened Session
  import opened SessionLog
  import opened SessionPRs
  import Limits = SessionLimits
  import SessionTheorems

  // Further inputs from a state.
  function From(p: Policy, s: State, inputs: seq<Input>): State
    decreases |inputs|
  {
    if inputs == [] then s else From(p, Step(p, s, inputs[0].sig, inputs[0].env), inputs[1..])
  }

  lemma {:induction false} RunFrom(p: Policy, start: Env, inputs: seq<Input>, more: seq<Input>)
    ensures Run(p, start, inputs + more) == From(p, Run(p, start, inputs), more)
    decreases |more|
  {
    hide Step;
    if more == [] {
      assert inputs + more == inputs;
    } else {
      Extend(p, start, inputs, more[0]);
      RunFrom(p, start, inputs + [more[0]], more[1..]);
      assert inputs + [more[0]] + more[1..] == inputs + more;
    }
  }

  // "go", classified as a go-ahead, with a guest that opens PR 7 and says so.
  const BUILD: Input := Input(Limits.GO, Limits.Answering(Some(PROpened), true, true))
  // "go" as a message; then a round whose guest pauses for direction.
  const ASK: Input := Input(Limits.GO, Limits.Answering(Some(PushDone), false, false))
  const PAUSE: Input := Input(CoalesceTimer, Limits.Answering(Some(NeedsInput), false, false))
  // The human's tunnel ends without edits.
  const LEAVE: Input := Input(RelayEnded(false), Limits.Answering(Some(PushDone), false, false))

  function Rebuild(s: State): seq<Input> {
    if s.control == Head then (if s.attached then [LEAVE] else []) + [ASK, PAUSE, BUILD] else [BUILD]
  }

  // The turn is truthful and creates a PR.
  lemma BuildTurn(s: State, caller: Caller, mode: Mode)
    requires s.prNumber <= 0
    ensures var (v, r) := TalkTurn(s, caller, mode, "go", BUILD.env);
      && FactsOf(v.log) == Facts(Live(Execute, true), FactsOf(s.log).prs + 1, FactsOf(s.log).truthful)
      && v.prNumber == 7 && r.outcome == PROpened && v.control == s.control
  {
    hide GuestOf, PRsCreated, Truthful;
    var l1 := Snoc(s.log, Reply(true));
    var l2 := Snoc(l1, Attempt(Talk(caller.FromRound?), Cold(Execute), [Said("go")]));
    var l3 := Snoc(l2, Launched(Execute));
    var o := Turn(Talk(caller.FromRound?), PhaseResult(PROpened, 7, 0.0), true);
    Neutral(s.log, Reply(true));
    Neutral(l1, l2.last);
    Grow(l2, Launched(Execute));
    Grow(l3, o);
  }

  lemma LeavesFacts(p: Policy, s: State, caller: Caller, r: PhaseResult, env: Env)
    requires s.prNumber == 7 && r.outcome == PROpened
    ensures FactsOf(LeaveDiscussion(p, s, caller, r, env).log) == FactsOf(s.log)
  {
    hide FactsOf, FinishRound;
    var s1 := s.(control := Head, log := Snoc(s.log, DiscussClose));
    Neutral(s.log, DiscussClose);
    if caller.FromRound? { FinishLook(p, s1, r, caller.batch, caller.fromPR, caller.replyToID); }
  }

  // One more PR, truthfully reported.
  ghost predicate Builds(s: State, t: State) {
    && (Truthful(s.log) ==> Truthful(t.log))
    && PRsCreated(t.log) == PRsCreated(s.log) + 1
  }

  lemma BuildStep(p: Policy, s: State)
    requires s.control.Discussing? && MayBuild(p, s)
    ensures Builds(s, Step(p, s, BUILD.sig, BUILD.env))
  {
    Limits.TrimGo();
    BuildTurn(s, s.control.caller, s.control.mode);
    hide TalkTurn, LeaveDiscussion, Instruction, HeadStep, GuestOf, PRsCreated, Truthful;
    var (v, r) := TalkTurn(s, s.control.caller, s.control.mode, "go", BUILD.env);
    LeavesFacts(p, v, s.control.caller, r, BUILD.env);
  }

  // Still able to build, with the same PRs and the same truth.
  ghost predicate Stays(p: Policy, s: State, t: State) {
    MayBuild(p, t) && FactsOf(t.log) == FactsOf(s.log).(guest := GuestOf(t.log))
  }

  lemma StaysBuilds(p: Policy, s: State, t: State, u: State)
    requires Stays(p, s, t) && Builds(t, u)
    ensures Builds(s, u)
  {
    hide GuestOf, PRsCreated, Truthful;
  }

  lemma StaysTrans(p: Policy, s: State, t: State, u: State)
    requires Stays(p, s, t) && Stays(p, t, u)
    ensures Stays(p, s, u)
  {
    hide GuestOf, PRsCreated, Truthful;
  }

  // A round that pauses: its turn creates nothing and costs nothing.
  ghost predicate Pauses(s: State, v: State, r: PhaseResult) {
    && r.outcome == NeedsInput && v.prNumber == s.prNumber && v.cost == s.cost && v.control == s.control
    && FactsOf(v.log) == Facts(Gone, FactsOf(s.log).prs, FactsOf(s.log).truthful)
  }

  lemma SettlePauses(s: State)
    ensures var (u, r) := AwaitAndSettle(s, Round, PAUSE.env.turn); Pauses(s, RecordOutcome(u, r), r)
  {
    hide GuestOf, PRsCreated, Truthful;
    var o := Turn(Round, PhaseResult(NeedsInput, 0, 0.0), false);
    Grow(s.log, o);
    Grow(Snoc(s.log, o), Stopped);
  }

  lemma PausingTurn(s: State, batch: seq<Instr>)
    ensures var (u, r) := RoundTurn(s, batch, PAUSE.env.turn); Pauses(s, RecordOutcome(u, r), r)
  {
    hide GuestOf, PRsCreated, Truthful, AwaitAndSettle;
    if s.vm == VMRunning {
      Neutral(s.log, Attempt(Round, Warm, batch));
      SettlePauses(Note(s, Attempt(Round, Warm, batch)));
    } else {
      var l1 := Snoc(s.log, Attempt(Round, Cold(Resume), batch));
      Neutral(s.log, l1.last);
      Grow(l1, Launched(Resume));
      SettlePauses(s.(vm := VMRunning, log := Snoc(l1, Launched(Resume))));
    }
  }

  lemma PauseRound(p: Policy, s: State)
    requires MayBuild(p, s) && s.control == Head
    ensures Stays(p, s, StartRound(p, s, PAUSE.env)) && StartRound(p, s, PAUSE.env).control.Discussing?
  {
    var s1 := TakeBatch(s);
    assert s1.log == s.log && s1.prNumber == s.prNumber && s1.cost == s.cost && s1.control == s.control;
    PausingTurn(s1, s.inbox.pending);
    hide TakeBatch, RoundTurn, RecordOutcome, FinishRound, GuestOf, PRsCreated, Truthful;
    var (u, r) := RoundTurn(s1, s.inbox.pending, PAUSE.env.turn);
    Neutral(RecordOutcome(u, r).log, DiscussOpen(Resume));
  }

  lemma PauseStep(p: Policy, s: State)
    requires MayBuild(p, s) && s.control == Head && s.coalesce && !Frozen(s) && s.inbox.pending != []
    ensures var t := Step(p, s, PAUSE.sig, PAUSE.env); Stays(p, s, t) && t.control.Discussing?
  {
    var s1 := s.(coalesce := false);
    PauseRound(p, s1);
    hide StartRound, GuestOf, PRsCreated, Truthful;
  }

  lemma AskStep(p: Policy, s: State)
    requires MayBuild(p, s) && s.control == Head && !s.attached
    ensures var t := Step(p, s, ASK.sig, ASK.env);
      Stays(p, s, t) && t.control == Head && t.coalesce && !Frozen(t) && t.inbox.pending != []
  {
    Limits.TrimGo();
    hide Instruction, GuestOf, PRsCreated, Truthful, AttachHuman;
  }

  lemma LeaveStep(p: Policy, s: State)
    requires MayBuild(p, s) && s.control == Head && s.relay
    ensures var t := Step(p, s, LEAVE.sig, LEAVE.env); Stays(p, s, t) && t.control == Head && !t.attached
  {
    hide GuestOf, PRsCreated, Truthful;
  }

  lemma AskedBuilds(p: Policy, s: State)
    requires MayBuild(p, s) && s.control == Head && !s.attached
    ensures Builds(s, From(p, s, [ASK, PAUSE, BUILD]))
  {
    var s1 := Step(p, s, ASK.sig, ASK.env);
    var s2 := Step(p, s1, PAUSE.sig, PAUSE.env);
    var s3 := Step(p, s2, BUILD.sig, BUILD.env);
    AskStep(p, s);
    PauseStep(p, s1);
    BuildStep(p, s2);
    Unroll(p, s);
    hide Step, Stays, Builds, From;
    StaysTrans(p, s, s1, s2);
    StaysBuilds(p, s, s2, s3);
  }

  lemma Unroll(p: Policy, s: State)
    ensures From(p, s, [BUILD]) == Step(p, s, BUILD.sig, BUILD.env)
    ensures From(p, s, [ASK, PAUSE, BUILD]) ==
      var s2 := Step(p, Step(p, s, ASK.sig, ASK.env), PAUSE.sig, PAUSE.env); Step(p, s2, BUILD.sig, BUILD.env)
    ensures From(p, s, [LEAVE, ASK, PAUSE, BUILD]) == From(p, Step(p, s, LEAVE.sig, LEAVE.env), [ASK, PAUSE, BUILD])
  {
    hide Step, ASK, PAUSE, BUILD, LEAVE;
    assert [ASK, PAUSE, BUILD][1..] == [PAUSE, BUILD] && [PAUSE, BUILD][1..] == [BUILD] && [BUILD][1..] == [];
    assert [LEAVE, ASK, PAUSE, BUILD][1..] == [ASK, PAUSE, BUILD];
    var s1 := Step(p, s, ASK.sig, ASK.env);
    assert From(p, s1, [PAUSE, BUILD]) == From(p, Step(p, s1, PAUSE.sig, PAUSE.env), [BUILD]);
  }

  lemma RebuildBuilds(p: Policy, s: State)
    requires MayBuild(p, s) && (s.control == Head && s.attached ==> s.relay)
    ensures Builds(s, From(p, s, Rebuild(s)))
  {
    Unroll(p, s);
    if s.control.Discussing? {
      BuildStep(p, s);
    } else if s.attached {
      var s1 := Step(p, s, LEAVE.sig, LEAVE.env);
      LeaveStep(p, s);
      AskedBuilds(p, s1);
      assert [LEAVE] + [ASK, PAUSE, BUILD] == [LEAVE, ASK, PAUSE, BUILD];
      hide Step, Stays, Builds, From;
      StaysBuilds(p, s, s1, From(p, s1, [ASK, PAUSE, BUILD]));
    } else {
      AskedBuilds(p, s);
      assert [] + [ASK, PAUSE, BUILD] == [ASK, PAUSE, BUILD];
    }
    hide Step, Builds, From;
  }

  // ---- the exact condition ----

  // A truthful future with a PR more than s has.
  ghost predicate AnotherPR(p: Policy, start: Env, inputs: seq<Input>, more: seq<Input>) {
    var s, t := Run(p, start, inputs), Run(p, start, inputs + more);
    Truthful(t.log) && PRsCreated(t.log) > PRsCreated(s.log)
  }

  // In every reachable state of a session whose guests are truthful, whatever reports were lost: another
  // PR can be created if and only if the session is open, the workflow knows no PR number, and the
  // ceiling is not hit. So once one PR exists a second is possible exactly while its number is unknown.
  lemma AnotherPRExactly(p: Policy, start: Env, inputs: seq<Input>)
    requires Truthful(Run(p, start, inputs).log)
    ensures (exists more :: AnotherPR(p, start, inputs, more)) <==> MayBuild(p, Run(p, start, inputs))
  {
    var s := Run(p, start, inputs);
    if MayBuild(p, s) {
      SessionTheorems.TimersAndFreeze(p, start, inputs);
      hide Run, Truthful, PRsCreated;
      RebuildBuilds(p, s);
      RunFrom(p, start, inputs, Rebuild(s));
      assert AnotherPR(p, start, inputs, Rebuild(s));
    } else {
      hide Run, Truthful, PRsCreated;
      forall more | AnotherPR(p, start, inputs, more) ensures false {
        ClosedForGood(p, start, inputs, more);
      }
    }
  }

  // ---- one step ----

  // A go-ahead's turn that creates a PR is a guest's own doing if and only if no number is known: then it
  // runs in execute mode, and otherwise in resume mode, which opens none.
  lemma GoAheadCreatesExactly(p: Policy, s: State, text: string, attachments: string, env: Env)
    requires s.control.Discussing? && !CeilingHit(p, s) && Instruction(text, attachments) != ""
    requires env.proceed && env.turn.mintOk && env.turn.launchOk && env.turn.prCreated
    requires Limits.GuestsObey(s.log)
    ensures Limits.GuestsObey(Step(p, s, UserMessage(text, attachments), env).log) <==> s.prNumber <= 0
  {
    CreatingTurn(s, s.control.caller, s.control.mode, Instruction(text, attachments), env);
    hide TalkTurn, LeaveDiscussion, Instruction, HeadStep, Limits.GuestsObey;
    var (v, r) := TalkTurn(s, s.control.caller, s.control.mode, Instruction(text, attachments), env);
    LeaveObeys(p, v, s.control.caller, r, env);
  }

  lemma Obeys(l: Log, o: Obs)
    requires !o.Turn?
    ensures Limits.GuestsObey(Snoc(l, o)) <==> Limits.GuestsObey(l)
  {}

  // A creating turn is obedient exactly in a guest that should open a PR.
  lemma CreationObeys(l: Log, kind: TurnKind, r: PhaseResult)
    requires GuestOf(l).Live?
    ensures Limits.GuestsObey(Snoc(l, Turn(kind, r, true))) <==>
      Limits.GuestsObey(l) && ShouldOpenPR(GuestOf(l).mode, GuestOf(l).prOpened)
  {}

  // What a go-ahead that gets its guest booted logs.
  lemma TalkLog(s: State, caller: Caller, mode: Mode, i: string, env: Env)
    requires env.proceed && env.turn.mintOk && env.turn.launchOk
    ensures
      var m, kind := if s.prNumber > 0 then Resume else Execute, Talk(caller.FromRound?);
      var l := Snoc(Snoc(Snoc(s.log, Reply(true)), Attempt(kind, Cold(m), [Said(i)])), Launched(m));
      var l4 := Snoc(l, Turn(kind, Heard(env.turn), env.turn.prCreated));
      TalkTurn(s, caller, mode, i, env).0.log == if Settled(Heard(env.turn)) then l4 else Snoc(l4, Stopped)
  {}

  lemma CreatingTurn(s: State, caller: Caller, mode: Mode, i: string, env: Env)
    requires env.proceed && env.turn.mintOk && env.turn.launchOk && env.turn.prCreated && Limits.GuestsObey(s.log)
    ensures Limits.GuestsObey(TalkTurn(s, caller, mode, i, env).0.log) <==> s.prNumber <= 0
  {
    TalkLog(s, caller, mode, i, env);
    var m, kind := if s.prNumber > 0 then Resume else Execute, Talk(caller.FromRound?);
    var l1 := Snoc(s.log, Reply(true));
    var l2 := Snoc(l1, Attempt(kind, Cold(m), [Said(i)]));
    var l3 := Snoc(l2, Launched(m));
    assert GuestOf(l3) == Live(m, false);
    hide Limits.GuestsObey, GuestOf, TalkTurn;
    Obeys(s.log, Reply(true));
    Obeys(l1, l2.last);
    Obeys(l2, Launched(m));
    CreationObeys(l3, kind, Heard(env.turn));
    Obeys(Snoc(l3, Turn(kind, Heard(env.turn), true)), Stopped);
  }

  lemma FinishObeys(p: Policy, s: State, r: PhaseResult, batch: seq<Instr>, fromPR: bool, replyToID: int)
    ensures Limits.GuestsObey(FinishRound(p, s, r, batch, fromPR, replyToID).log) <==> Limits.GuestsObey(s.log)
  {
    hide Limits.GuestsObey;
    Obeys(s.log, RoundDone(true));
    Obeys(s.log, RoundDone(false));
    Obeys(s.log, PRReply(replyToID));
    Obeys(Snoc(s.log, PRReply(replyToID)), RoundDone(false));
  }

  lemma LeaveObeys(p: Policy, s: State, caller: Caller, r: PhaseResult, env: Env)
    ensures Limits.GuestsObey(LeaveDiscussion(p, s, caller, r, env).log) <==> Limits.GuestsObey(s.log)
  {
    hide Limits.GuestsObey, FinishRound;
    var s1 := s.(control := Head, log := Snoc(s.log, DiscussClose));
    Obeys(s.log, DiscussClose);
    Obeys(s1.log, DiscussOpen(Resume));
    Obeys(s1.log, CheckedPR(env.foundPR));
    if caller.FromRound? { FinishObeys(p, s1, r, caller.batch, caller.fromPR, caller.replyToID); }
  }
}
