/** The workflow's ledger against what its guests' turns really cost. */
module SessionSpend {
  import opened Protocol
  import opened Session
  import opened SessionLog
  import Limits = SessionLimits
  import PRs = SessionPRs
  import SessionTheorems
  import Supervisor

  // One turn of a real guest, and whether what it published reached the workflow.
  datatype Play = Play(sup: Supervisor.Guest, env: Supervisor.TurnEnv, heard: bool)

  ghost predicate IsPlay(g: Guest, play: Play, r: PhaseResult, created: bool) {
    && g == Live(play.sup.mode, play.sup.prOpened)
    && var (after, event) := Supervisor.Turn(play.sup, play.env);
       && created == (after.repo.prs > play.sup.repo.prs)
       && r == (if play.heard then Supervisor.HeardFrom(event) else FAILED)
  }

  // The turns of the history are these, in order.
  ghost predicate PlayedBy(log: Log, plays: seq<Play>) {
    match log
    case Nil => plays == []
    case Snoc(prev, o) =>
      if o.Turn? then
        && plays != []
        && PlayedBy(prev, plays[..|plays| - 1])
        && IsPlay(GuestOf(prev), plays[|plays| - 1], o.res, o.prCreated)
      else PlayedBy(prev, plays)
  }

  // Its cost reaches the ledger: it did not fail, and its event was published and arrived.
  predicate Counts(play: Play) {
    play.heard && play.env.publishOk && !Supervisor.FailsTurn(play.sup, play.env)
  }

  function TrueSpend(plays: seq<Play>): real {
    if plays == [] then 0.0 else TrueSpend(plays[..|plays| - 1]) + plays[|plays| - 1].env.cost
  }

  function CountedSpend(plays: seq<Play>): real {
    if plays == [] then 0.0
    else
      var play := plays[|plays| - 1];
      CountedSpend(plays[..|plays| - 1]) + if Counts(play) then play.env.cost else 0.0
  }

  lemma PlayCost(g: Guest, play: Play, r: PhaseResult, created: bool)
    requires IsPlay(g, play, r, created)
    ensures r.cost == if Counts(play) then play.env.cost else 0.0
  {
    Supervisor.TurnReports(play.sup, play.env);
    hide Supervisor.Turn, Supervisor.FailsTurn, Supervisor.QuestionMeans;
  }

  lemma {:induction false} LogSpend(log: Log, plays: seq<Play>)
    requires PlayedBy(log, plays)
    ensures Spend(log) == CountedSpend(plays)
  {
    if log.Snoc? {
      hide IsPlay, Counts;
      var o := log.last;
      if o.Turn? {
        LogSpend(log.prev, plays[..|plays| - 1]);
        PlayCost(GuestOf(log.prev), plays[|plays| - 1], o.res, o.prCreated);
      } else {
        LogSpend(log.prev, plays);
      }
    }
  }

  lemma {:induction false} CountedIsLess(plays: seq<Play>)
    ensures 0.0 <= CountedSpend(plays) <= TrueSpend(plays)
    ensures CountedSpend(plays) == TrueSpend(plays) <==>
      forall i :: 0 <= i < |plays| && !Counts(plays[i]) ==> plays[i].env.cost == 0.0
  {
    if plays != [] {
      hide Counts;
      var n := |plays| - 1;
      CountedIsLess(plays[..n]);
      assert forall i :: 0 <= i < n ==> plays[..n][i] == plays[i];
    }
  }

  // Workflow and guests composed: the session's cost is the sum over the guests' turns that did not fail
  // and were heard; so it is what all turns really cost if and only if the others were free.
  lemma LedgerAcrossGuests(p: Policy, start: Env, inputs: seq<Input>, plays: seq<Play>)
    requires PlayedBy(Run(p, start, inputs).log, plays)
    ensures var s := Run(p, start, inputs);
      && s.cost == CountedSpend(plays) <= TrueSpend(plays)
      && (s.cost == TrueSpend(plays) <==>
            forall i :: 0 <= i < |plays| && !Counts(plays[i]) ==> plays[i].env.cost == 0.0)
  {
    SessionTheorems.SpendLedger(p, start, inputs);
    LogSpend(Run(p, start, inputs).log, plays);
    CountedIsLess(plays);
    hide Run;
  }

  // ---- failed turns are free ----

  const CAPPED: Policy := Policy(1.0, 0, false, false)
  const LOST: Input := Input(CoalesceTimer, Limits.Answering(None, false, false))

  // Something is asked for, and n rounds fail one after the other.
  function Failing(n: nat): seq<Input> {
    if n == 0 then [Input(Limits.GO, Limits.QUIET_START)] else Failing(n - 1) + [LOST]
  }

  // The first turn changes nothing and costs nothing.
  const IDLE: Supervisor.TurnEnv :=
    Supervisor.TurnEnv(true, false, false, None, "", 0.0, true, true, true, true, true, true, None, true)

  // The agent works, and then the push fails.
  function PushFails(cost: Usd): Supervisor.TurnEnv { IDLE.(tracked := true, pushOk := false, cost := cost) }

  const CLONE: Supervisor.Repo := Supervisor.Repo(0, 0, false, false, 0)

  function Plays(n: nat, cost: Usd): seq<Play> {
    if n == 0 then [Play(Supervisor.Guest(Initial, false, CLONE, false), IDLE, true)]
    else
      Plays(n - 1, cost)
      + [Play(Supervisor.Guest(if n == 1 then Initial else Resume, false, CLONE, false), PushFails(cost), true)]
  }

  ghost predicate Retrying(s: State, n: nat) {
    && s.control == Head && s.coalesce && !Frozen(s) && s.inbox.pending != [] && s.cost == 0.0 && s.prNumber == 0
    && (if n == 0 then s.vm == VMRunning && GuestOf(s.log) == Live(Initial, false) else s.vm != VMRunning)
  }

  function FailedLog(l: Log, n: nat, batch: seq<Instr>): Log {
    var l1 := Snoc(l, Attempt(Round, if n == 0 then Warm else Cold(Resume), batch));
    var l2 := if n == 0 then l1 else Snoc(l1, Launched(Resume));
    Snoc(Snoc(Snoc(l2, Turn(Round, FAILED, false)), Stopped), RoundDone(true))
  }

  lemma OneMoreFails(s: State, n: nat)
    requires Retrying(s, n)
    ensures var t := Step(CAPPED, s, LOST.sig, LOST.env);
      Retrying(t, n + 1) && t.log == FailedLog(s.log, n, s.inbox.pending)
  {
    RoundFails(s.(coalesce := false), n);
    hide StartRound, FailedLog;
  }

  lemma RoundFails(s: State, n: nat)
    requires s.control == Head && !Frozen(s) && s.inbox.pending != [] && s.cost == 0.0 && s.prNumber == 0
    requires s.vm == VMRunning <==> n == 0
    ensures var t := StartRound(CAPPED, s, LOST.env);
      Retrying(t, n + 1) && t.log == FailedLog(s.log, n, s.inbox.pending)
  {}

  lemma FailedPlay(l: Log, n: nat, batch: seq<Instr>, plays: seq<Play>, play: Play, cost: Usd)
    requires PlayedBy(l, plays) && (n == 0 ==> GuestOf(l) == Live(Initial, false))
    requires var mode := if n == 0 then Initial else Resume;
      play == Play(Supervisor.Guest(mode, false, CLONE, false), PushFails(cost), true)
    ensures PlayedBy(FailedLog(l, n, batch), plays + [play])
  {
    assert (plays + [play])[..|plays|] == plays;
    var l3 := FailedLog(l, n, batch).prev.prev;
    var l2 := l3.prev;
    assert PlayedBy(l2, plays);
    assert GuestOf(l2) == Live(if n == 0 then Initial else Resume, false);
    assert IsPlay(GuestOf(l2), play, FAILED, false);
    assert PlayedBy(l3, plays + [play]);
  }

  lemma AskedOnce(cost: Usd)
    ensures var s := Run(CAPPED, Limits.QUIET_START, Failing(0)); Retrying(s, 0) && PlayedBy(s.log, Plays(0, cost))
  {
    Limits.TrimGo();
    PRs.Extend(CAPPED, Limits.QUIET_START, [], Input(Limits.GO, Limits.QUIET_START));
    assert [] + [Input(Limits.GO, Limits.QUIET_START)] == Failing(0);
    var s0 := Run(CAPPED, Limits.QUIET_START, []);
    var l1 := Snoc(Snoc(Nil, Attempt(First, Cold(Initial), [])), Launched(Initial));
    assert s0.control == Head && s0.vm == VMRunning && s0.cost == 0.0 && s0.prNumber == 0;
    assert !Frozen(s0) && !s0.coalesce;
    assert s0.log == Snoc(Snoc(l1, Turn(First, PhaseResult(PushDone, 0, 0.0), false)), CheckedPR(0));
    var play := Plays(0, cost)[0];
    assert [play][..0] == [] && PlayedBy(l1, []) && GuestOf(l1) == Live(Initial, false);
    assert IsPlay(GuestOf(l1), play, PhaseResult(PushDone, 0, 0.0), false);
    assert PlayedBy(s0.log, [play]);
    assert GuestOf(s0.log) == Live(Initial, false);
    hide Run, Instruction, IsPlay;
  }

  ghost predicate FailedSoFar(n: nat, cost: Usd) {
    var s := Run(CAPPED, Limits.QUIET_START, Failing(n));
    PlayedBy(s.log, Plays(n, cost)) && Retrying(s, n)
  }

  lemma OneMoreRound(n: nat, cost: Usd)
    requires FailedSoFar(n, cost)
    ensures FailedSoFar(n + 1, cost)
  {
    var s := Run(CAPPED, Limits.QUIET_START, Failing(n));
    var plays, play := Plays(n, cost), Plays(n + 1, cost)[|Plays(n, cost)|];
    PRs.Extend(CAPPED, Limits.QUIET_START, Failing(n), LOST);
    OneMoreFails(s, n);
    assert n == 0 ==> GuestOf(s.log) == Live(Initial, false);
    FailedPlay(s.log, n, s.inbox.pending, plays, play, cost);
    hide Run, Step, PlayedBy, FailedLog, Retrying, GuestOf;
  }

  lemma {:induction false} PlaysCost(n: nat, cost: Usd)
    ensures TrueSpend(Plays(n, cost)) == Times(n, cost)
  {
    if n == 0 {
      assert Plays(0, cost)[..0] == [];
    } else {
      PlaysCost(n - 1, cost);
      var before := Plays(n - 1, cost);
      var play := Plays(n, cost)[|before|];
      assert Plays(n, cost) == before + [play] && (before + [play])[..|before|] == before;
      OneMoreTime(n, cost);
      hide Plays, Times;
    }
  }

  function Times(n: nat, cost: real): real { n as real * cost }

  lemma OneMoreTime(n: nat, cost: real)
    requires n > 0
    ensures Times(n - 1, cost) + cost == Times(n, cost)
  {
    var k := (n - 1) as real;
    assert n as real == k + 1.0;
    assert (k + 1.0) * cost == k * cost + cost;
  }

  lemma {:induction false} RoundsFail(n: nat, cost: Usd)
    ensures FailedSoFar(n, cost)
  {
    if n == 0 {
      AskedOnce(cost);
    } else {
      RoundsFail(n - 1, cost);
      OneMoreRound(n - 1, cost);
    }
    hide Run, PlayedBy, Retrying;
  }

  // A failed turn's event carries no cost: however many rounds fail at the push, and whatever their
  // agents cost, the ledger of a session capped at 1 stays at 0, and the next round's window is open.
  lemma FailedTurnsAreFree(n: nat, cost: Usd)
    ensures var s := Run(CAPPED, Limits.QUIET_START, Failing(n));
      && PlayedBy(s.log, Plays(n, cost)) && TrueSpend(Plays(n, cost)) == n as real * cost
      && s.cost == 0.0 && s.control == Head && s.coalesce && !Frozen(s) && s.inbox.pending != []
  {
    RoundsFail(n, cost);
    PlaysCost(n, cost);
    hide Run, PlayedBy, Plays, TrueSpend;
  }
}
