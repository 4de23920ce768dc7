/** The workflow and its guests together: every turn in a session's history is a turn of the supervisor. */
module SessionGuests {
  import opened Protocol
  import opened Session
  import opened SessionLog
  import Supervisor
  import SessionPRs
  import SessionTheorems

  // A supervisor turn from the guest the session is talking to, and what the workflow heard of it: the
  // published event, or a failed phase if nothing arrived. PR numbers parsed from a URL are not negative.
  ghost predicate IsTurnOf(
      g: SessionLog.Guest, sup: Supervisor.Guest, env: Supervisor.TurnEnv, r: PhaseResult, created: bool) {
    && g == Live(sup.mode, sup.prOpened)
    && (env.openedPR.Some? ==> env.openedPR.value >= 0)
    && var (after, event) := Supervisor.Turn(sup, env);
       && created == (after.repo.prs > sup.repo.prs)
       && (r == Supervisor.HeardFrom(event) || r == FAILED)
  }

  // Where the workflow cannot make up for a hidden PR, a created PR is heard of with its number.
  predicate HeardOf(kind: TurnKind, r: PhaseResult, created: bool) {
    created ==> (r.outcome == PROpened && r.prNumber > 0) || InitialPhase(kind)
  }

  ghost predicate TurnByGuest(g: SessionLog.Guest, kind: TurnKind, r: PhaseResult, created: bool) {
    HeardOf(kind, r, created) &&
    if g.Live? then exists sup, env :: IsTurnOf(g, sup, env, r, created) else r == FAILED && !created
  }

  // Every turn is a guest's, and the check that ends the initial phase finds a PR that exists.
  ghost predicate PlayedByGuests(log: Log) {
    match log
    case Nil => true
    case Snoc(prev, o) =>
      && PlayedByGuests(prev)
      && (o.Turn? ==> TurnByGuest(GuestOf(prev), o.kind, o.res, o.prCreated))
      && (o.CheckedPR? ==> o.number >= 0 && (PRsCreated(prev) > 0 ==> o.number > 0))
  }

  lemma GuestTurnIsFaithful(g: SessionLog.Guest, kind: TurnKind, r: PhaseResult, created: bool)
    requires TurnByGuest(g, kind, r, created)
    ensures FaithfulTurn(g, kind, r, created)
  {
    if g.Live? {
      var sup, env :| IsTurnOf(g, sup, env, r, created);
      Supervisor.GuestReportsFaithfully(sup, env, kind);
      Supervisor.GuestCreatesOnlyWhenItShould(sup, env);
    }
  }

  lemma {:induction false} GuestsAreFaithful(log: Log)
    requires PlayedByGuests(log)
    ensures Faithful(log)
  {
    if log.Snoc? {
      hide FaithfulTurn, TurnByGuest;
      GuestsAreFaithful(log.prev);
      if log.last.Turn? { GuestTurnIsFaithful(GuestOf(log.prev), log.last.kind, log.last.res, log.last.prCreated); }
    }
  }

  // Workflow and guests composed: a session opens at most one PR over all its guests, provided that
  // review rounds hear of a created PR.
  lemma OnePRAcrossGuests(p: Policy, start: Env, inputs: seq<Input>)
    requires PlayedByGuests(Run(p, start, inputs).log)
    ensures var s := Run(p, start, inputs);
      PRsCreated(s.log) <= 1 && (PRsCreated(s.log) == 1 ==> s.prNumber > 0)
  {
    GuestsAreFaithful(Run(p, start, inputs).log);
    SessionTheorems.AtMostOnePR(p, start, inputs);
  }

  // Without that proviso a supervisor's turn is still truthful: what is heard is what happened, or a
  // failure. So the exact condition for another PR, stated for truthful turns, is about these guests.
  lemma GuestTurnIsTruthful(
      g: SessionLog.Guest, sup: Supervisor.Guest, env: Supervisor.TurnEnv, r: PhaseResult, created: bool)
    requires IsTurnOf(g, sup, env, r, created)
    ensures SessionPRs.TruthfulTurn(g, r, created)
  {
    Supervisor.GuestCreatesOnlyWhenItShould(sup, env);
  }
}
