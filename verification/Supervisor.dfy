/** The guest supervisor's turn: run the agent, pause for direction or commit, push and open the PR,
    and publish one event. */
module Supervisor {
  import opened Protocol
  import Text
  import Session
  import SessionLog

  // The clone on the workspace volume: local commits, how many of them are on the remote branch,
  // whether tracked files and untracked files differ from HEAD, and PRs created for the branch.
  datatype Repo = Repo(commits: nat, pushed: nat, tracked: bool, untracked: bool, prs: nat)

  // One guest. It ends when a turn fails or its event cannot be published.
  datatype Guest = Guest(mode: Mode, prOpened: bool, repo: Repo, ended: bool)

  // Everything a turn gets from outside. The agent leaves the tree in some state and may have written
  // the pause sentinel; each git and gh command may fail; publishing the event may fail.
  datatype TurnEnv = TurnEnv(
    agentOk: bool, tracked: bool, untracked: bool, sentinel: Option<string>, result: string, cost: Usd,
    resetOk: bool, cleanOk: bool, diffOk: bool, commitOk: bool, revParseOk: bool, pushOk: bool,
    openedPR: Option<int>, publishOk: bool)

  // The published event; None when publishing failed and nobody heard it.
  datatype Event = Event(res: PhaseResult, question: string)

  const NO_PLAN := "(the agent finished planning but wrote no plan)"

  predicate Clean(r: Repo) { !r.tracked && !r.untracked }

  // The text a turn pauses with. A plan turn always pauses.
  function NeedsInputFor(mode: Mode, env: TurnEnv): Option<string> {
    if env.sentinel.Some? || mode != Plan then env.sentinel
    else
      var r := Text.Trim(env.result);
      Some(if r != "" then r else NO_PLAN)
  }

  // git reset --hard HEAD, then git clean -fd.
  function Discard(r: Repo, env: TurnEnv): Repo {
    if !env.resetOk then r
    else r.(tracked := false, untracked := r.untracked && !env.cleanOk)
  }

  function Publish(g: Guest, env: TurnEnv, e: Event): (Guest, Option<Event>) {
    if env.publishOk then (g, Some(e)) else (g.(ended := true), None)
  }

  // A failed stage publishes agent_failed, best effort, and ends the guest.
  function Fail(g: Guest, env: TurnEnv): (Guest, Option<Event>) {
    (g.(ended := true), if env.publishOk then Some(Event(FAILED, "")) else None)
  }

  function FinalizeTurn(g: Guest, env: TurnEnv, openPR: bool): (Guest, Option<Event>) {
    var ask := NeedsInputFor(g.mode, env);
    if ask.Some? then
      var h := if g.mode == Plan then g.(repo := Discard(g.repo, env)) else g;
      Publish(h, env, Event(PhaseResult(NeedsInput, 0, env.cost), ask.value))
    else if !env.diffOk then Fail(g, env)
    else if Clean(g.repo) then Publish(g, env, Event(PhaseResult(PushDone, 0, env.cost), ""))
    else if !env.commitOk then Fail(g, env)
    else
      var committed := g.repo.(commits := g.repo.commits + 1, tracked := false, untracked := false);
      if !env.revParseOk || !env.pushOk then Fail(g.(repo := committed), env)
      else
        var pushed := committed.(pushed := committed.commits);
        if !openPR then Publish(g.(repo := pushed), env, Event(PhaseResult(PushDone, 0, env.cost), ""))
        else if env.openedPR.None? then Fail(g.(repo := pushed), env)
        else Publish(g.(repo := pushed.(prs := pushed.prs + 1), prOpened := true), env,
                     Event(PhaseResult(PROpened, env.openedPR.value, env.cost), ""))
  }

  function Turn(g: Guest, env: TurnEnv): (Guest, Option<Event>) {
    var h := g.(repo := g.repo.(tracked := env.tracked, untracked := env.untracked));
    if !env.agentOk then Fail(h, env) else FinalizeTurn(h, env, ShouldOpenPR(g.mode, g.prOpened))
  }

  // A guest's turns until it ends.
  function Turns(g: Guest, envs: seq<TurnEnv>): Guest {
    if envs == [] then g
    else
      var h := Turns(g, envs[..|envs| - 1]);
      if h.ended then h else Turn(h, envs[|envs| - 1]).0
  }

  // ---- plan mode ----

  // A plan guest never commits, pushes or opens a PR, over any number of turns.
  lemma {:induction false} PlanGuestPublishesNothing(g: Guest, envs: seq<TurnEnv>)
    requires g.mode == Plan
    ensures var h := Turns(g, envs);
      h.mode == Plan && h.repo.commits == g.repo.commits && h.repo.pushed == g.repo.pushed && h.repo.prs == g.repo.prs
  {
    if envs != [] { PlanGuestPublishesNothing(g, envs[..|envs| - 1]); }
  }

  // It always pauses with something to show, unless the agent itself failed.
  lemma PlanTurnPauses(g: Guest, env: TurnEnv)
    requires g.mode == Plan && env.agentOk && env.publishOk
    requires env.sentinel.Some? ==> env.sentinel.value != ""
    ensures var e := Turn(g, env).1;
      e.Some? && e.value.res.outcome == NeedsInput && e.value.question != ""
  {
    assert |NO_PLAN| > 0;
  }

  predicate PlanTurnDiscards(env: TurnEnv) {
    env.agentOk && (env.tracked || env.untracked ==> env.resetOk) && (env.untracked ==> env.cleanOk)
  }

  // After a plan turn the tree is at HEAD exactly when the turn got to its discard and the git commands
  // it needed succeeded, or the agent had left nothing to discard. In particular a plan turn whose agent
  // fails keeps the agent's stray edits.
  lemma PlanTurnLeavesHead(g: Guest, env: TurnEnv)
    requires g.mode == Plan
    ensures Clean(Turn(g, env).0.repo) <==> PlanTurnDiscards(env) || (!env.tracked && !env.untracked)
  {}

  // So if every turn reached its discard, the tree is at HEAD after all of them.
  lemma {:induction false} PlanGuestLeavesHead(g: Guest, envs: seq<TurnEnv>)
    requires g.mode == Plan && Clean(g.repo)
    requires forall i :: 0 <= i < |envs| ==> PlanTurnDiscards(envs[i])
    ensures Clean(Turns(g, envs).repo)
  {
    if envs != [] {
      var before := envs[..|envs| - 1];
      PlanGuestLeavesHead(g, before);
      PlanGuestPublishesNothing(g, before);
      if !Turns(g, before).ended { PlanTurnLeavesHead(Turns(g, before), envs[|envs| - 1]); }
    }
  }

  // ---- pull requests ----

  // A guest creates at most one PR over all its turns, only in initial or execute mode, and remembers it.
  lemma {:induction false} GuestOpensAtMostOnePR(g: Guest, envs: seq<TurnEnv>)
    requires !g.prOpened
    ensures var h := Turns(g, envs);
      && h.mode == g.mode
      && h.repo.prs == g.repo.prs + (if h.prOpened then 1 else 0)
      && (h.prOpened ==> g.mode == Initial || g.mode == Execute)
  {
    if envs != [] { GuestOpensAtMostOnePR(g, envs[..|envs| - 1]); }
  }

  // What a settled turn means: the tree is clean, and if it changed anything, one new commit holds the
  // changes and every commit is on the remote branch. If it changed nothing, nothing is pushed either.
  lemma SettledTurnIsPushed(g: Guest, env: TurnEnv)
    requires !g.ended
    ensures var (h, e) := Turn(g, env);
      SettledEvent(e) ==>
        && Clean(h.repo) && !h.ended
        && (if env.tracked || env.untracked then
              h.repo.commits == g.repo.commits + 1 && h.repo.pushed == h.repo.commits
            else h.repo.commits == g.repo.commits && h.repo.pushed == g.repo.pushed && h.repo.prs == g.repo.prs)
        && (e.value.res.outcome == PROpened <==> h.repo.prs == g.repo.prs + 1)
  {}

  predicate SettledEvent(e: Option<Event>) {
    e.Some? && (e.value.res.outcome == PushDone || e.value.res.outcome == PROpened)
  }

  // What a paused turn means outside plan mode: the agent's tree is untouched and nothing is published.
  lemma PausedTurnKeepsTree(g: Guest, env: TurnEnv)
    requires g.mode != Plan && env.agentOk && env.sentinel.Some?
    ensures Turn(g, env).0.repo == g.repo.(tracked := env.tracked, untracked := env.untracked)
    ensures env.publishOk ==> Turn(g, env).1 == Some(Event(PhaseResult(NeedsInput, 0, env.cost), env.sentinel.value))
  {}

  // The workflow's view of a turn: what it hears, or a failed phase when nothing was published.
  function HeardFrom(e: Option<Event>): PhaseResult {
    if e.Some? then e.value.res else FAILED
  }

  // The report is faithful in the workflow's sense exactly when a created PR was either published with a
  // positive number, or hidden in the initial phase: the assumption of the one-PR theorem.
  lemma GuestReportsFaithfully(g: Guest, env: TurnEnv, kind: Session.TurnKind)
    requires env.openedPR.Some? ==> env.openedPR.value >= 0
    ensures var (h, e) := Turn(g, env);
      var created := h.repo.prs > g.repo.prs;
      var known := e.Some? && env.openedPR.Some? && env.openedPR.value > 0;
      SessionLog.FaithfulTurn(SessionLog.Live(g.mode, g.prOpened), kind, HeardFrom(e), created) <==>
      (created ==> known || SessionLog.InitialPhase(kind))
  {}

  // Whatever is reported, a PR appears only when the guest should open one, and the guest then knows.
  lemma GuestCreatesOnlyWhenItShould(g: Guest, env: TurnEnv)
    ensures var h := Turn(g, env).0;
      && (h.repo.prs > g.repo.prs ==> ShouldOpenPR(g.mode, g.prOpened) && h.prOpened)
      && h.prOpened == (g.prOpened || h.repo.prs > g.repo.prs)
  {}

  // ---- what a turn reports ----

  // A turn pauses: a plan turn always, any other when the agent wrote the sentinel.
  predicate Asks(g: Guest, env: TurnEnv) { g.mode == Plan || env.sentinel.Some? }

  predicate Changes(env: TurnEnv) { env.tracked || env.untracked }

  // A PR is due from an initial or execute guest that has opened none.
  predicate Due(g: Guest) { (g.mode == Initial || g.mode == Execute) && !g.prOpened }

  // Some stage of the turn fails: the agent, or a command the turn gets to.
  predicate FailsTurn(g: Guest, env: TurnEnv) {
    || !env.agentOk
    || (!Asks(g, env) && (!env.diffOk
        || (Changes(env) && (!env.commitOk || !env.revParseOk || !env.pushOk || (Due(g) && env.openedPR.None?)))))
  }

  // What a published event says of a turn. Only a failure hides what the turn cost.
  predicate ReportMeans(g: Guest, env: TurnEnv, e: Event) {
    var r := e.res;
    && (r.outcome == AgentFailed <==> FailsTurn(g, env))
    && r.cost == (if FailsTurn(g, env) then 0.0 else env.cost)
    && (r.outcome == NeedsInput <==> !FailsTurn(g, env) && Asks(g, env))
    && (r.outcome == PROpened <==> !FailsTurn(g, env) && !Asks(g, env) && Changes(env) && Due(g))
    && (r.outcome == PROpened ==> env.openedPR == Some(r.prNumber))
    && (r.outcome != PROpened ==> r.prNumber == 0)
  }

  // The question of a pause: the sentinel, else the plan, else a fixed line.
  predicate QuestionMeans(env: TurnEnv, e: Event) {
    && (e.res.outcome != NeedsInput ==> e.question == "")
    && (e.res.outcome == NeedsInput && env.sentinel.Some? ==> e.question == env.sentinel.value)
    && (e.res.outcome == NeedsInput && env.sentinel.None? ==>
          if Text.Blank(env.result) then e.question == "(the agent finished planning but wrote no plan)"
          else e.question == Text.Trim(env.result))
  }

  // Every turn: an event is published if and only if publishing works, it says what happened, and the
  // guest goes on if and only if the turn did not fail and was heard.
  lemma TurnReports(g: Guest, env: TurnEnv)
    ensures var (h, e) := Turn(g, env);
      && (e.Some? <==> env.publishOk)
      && (e.Some? ==> ReportMeans(g, env, e.value) && QuestionMeans(env, e.value))
      && (h.ended <==> g.ended || FailsTurn(g, env) || !env.publishOk)
  {
    Text.TrimOfBlank(env.result);
    hide Text.Blank, Text.Trim;
  }

  // Every turn, failed or not: what became of the tree, the commits, the remote and the PRs.
  lemma TurnLeaves(g: Guest, env: TurnEnv)
    ensures var h := Turn(g, env).0;
      var commits := env.agentOk && !Asks(g, env) && env.diffOk && Changes(env) && env.commitOk;
      var pushes := commits && env.revParseOk && env.pushOk;
      var opens := pushes && Due(g) && env.openedPR.Some?;
      var discards := env.agentOk && g.mode == Plan && env.resetOk;
      && (h.repo.tracked <==> env.tracked && !commits && !discards)
      && (h.repo.untracked <==> env.untracked && !commits && !(discards && env.cleanOk))
      && h.repo.commits == g.repo.commits + (if commits then 1 else 0)
      && h.repo.pushed == (if pushes then h.repo.commits else g.repo.pushed)
      && h.repo.prs == g.repo.prs + (if opens then 1 else 0)
      && (h.prOpened <==> g.prOpened || opens) && h.mode == g.mode
  {
    hide Text.Trim;
  }

  // What one turn means for its caller: a plan turn publishes nothing to git; a settled one leaves a
  // clean tree, with everything on the remote if it committed and as much there as before if it did not;
  // a PR appears at most once, only when one should be opened, and is remembered.
  predicate TurnMeans(g: Guest, h: Guest, e: Option<Event>) {
    && h.mode == g.mode
    && (g.mode == Plan ==>
          h.repo.commits == g.repo.commits && h.repo.pushed == g.repo.pushed && h.repo.prs == g.repo.prs)
    && (!g.ended && SettledEvent(e) ==>
          && !h.ended && Clean(h.repo)
          && (if h.repo.commits > g.repo.commits then h.repo.pushed == h.repo.commits == g.repo.commits + 1
              else h.repo.commits == g.repo.commits && h.repo.pushed == g.repo.pushed && h.repo.prs == g.repo.prs))
    && h.repo.prs == g.repo.prs + (if h.prOpened && !g.prOpened then 1 else 0)
    && (h.repo.prs > g.repo.prs ==>
          ShouldOpenPR(g.mode, g.prOpened) && h.repo.pushed == h.repo.commits == g.repo.commits + 1)
  }

  lemma TurnHasMeaning(g: Guest, env: TurnEnv)
    ensures TurnMeans(g, Turn(g, env).0, Turn(g, env).1)
  {}

  /** The supervisor object; `repo` stands for the clone its git commands act on. */
  class SupervisorState {
    const mode: Mode
    var prOpened: bool
    var commits: nat
    var pushed: nat
    var tracked: bool
    var untracked: bool
    var prs: nat
    var ended: bool

    ghost function Abs(): Guest reads this {
      Guest(mode, prOpened, Repo(commits, pushed, tracked, untracked, prs), ended)
    }

    constructor (m: Mode, r: Repo)
      ensures Abs() == Guest(m, false, r, false)
    {
      mode := m;
      prOpened, ended := false, false;
      commits, pushed, tracked, untracked, prs := r.commits, r.pushed, r.tracked, r.untracked, r.prs;
    }

    method RunTurn(env: TurnEnv) returns (e: Option<Event>)
      modifies this
      ensures (Abs(), e) == Turn(old(Abs()), env)
      ensures TurnMeans(old(Abs()), Abs(), e)
      ensures e.Some? <==> env.publishOk
      ensures e.Some? ==> ReportMeans(old(Abs()), env, e.value) && QuestionMeans(env, e.value)
      ensures ended <==> old(ended) || FailsTurn(old(Abs()), env) || !env.publishOk
    {
      TurnHasMeaning(Abs(), env);
      TurnReports(Abs(), env);
      hide TurnMeans, FinalizeTurn, ReportMeans, QuestionMeans, FailsTurn;
      var openPR := ShouldOpenPR(mode, prOpened);
      tracked, untracked := env.tracked, env.untracked;
      if !env.agentOk {
        e := FailStage(env);
        return;
      }
      e := Finalize(env, openPR);
    }

    method FailStage(env: TurnEnv) returns (e: Option<Event>)
      modifies this`ended
      ensures (Abs(), e) == Fail(old(Abs()), env)
    {
      ended := true;
      e := if env.publishOk then Some(Event(FAILED, "")) else None;
    }

    method PublishEvent(env: TurnEnv, ev: Event) returns (e: Option<Event>)
      modifies this`ended
      ensures (Abs(), e) == Publish(old(Abs()), env, ev)
    {
      if !env.publishOk {
        ended := true;
        return None;
      }
      return Some(ev);
    }

    method Finalize(env: TurnEnv, openPR: bool) returns (e: Option<Event>)
      modifies this
      ensures (Abs(), e) == FinalizeTurn(old(Abs()), env, openPR)
    {
      var ask := NeedsInputFor(mode, env);
      if ask.Some? {
        if mode == Plan && env.resetOk {
          tracked := false;
          if env.cleanOk { untracked := false; }
        }
        e := PublishEvent(env, Event(PhaseResult(NeedsInput, 0, env.cost), ask.value));
        return;
      }
      if !env.diffOk { e := FailStage(env); return; }
      if !tracked && !untracked {
        e := PublishEvent(env, Event(PhaseResult(PushDone, 0, env.cost), ""));
        return;
      }
      if !env.commitOk { e := FailStage(env); return; }
      commits, tracked, untracked := commits + 1, false, false;
      if !env.revParseOk { e := FailStage(env); return; }
      if !env.pushOk { e := FailStage(env); return; }
      pushed := commits;
      if openPR {
        if env.openedPR.None? { e := FailStage(env); return; }
        prs := prs + 1;
        prOpened := true;
        e := PublishEvent(env, Event(PhaseResult(PROpened, env.openedPR.value, env.cost), ""));
        return;
      }
      e := PublishEvent(env, Event(PhaseResult(PushDone, 0, env.cost), ""));
    }
  }
}
