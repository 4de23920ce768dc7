/** What a session's history says, read off the log alone: feedback, spend, guests and pull requests,
    and the shape of discussions. Every function folds the log from the oldest entry. */
module SessionLog {
  import opened Protocol
  import opened Session

  // ---- feedback ----

  // Every instruction the review loop ever accepted, in order.
  function AcceptedFeedback(f: Feedback): seq<Instr> {
    match f
    case Empty => []
    case Then(prev, i, _) => AcceptedFeedback(prev) + [i]
  }

  // How many instructions a GitHub comment or review id contributed.
  function Contributions(f: Feedback, id: int): nat {
    match f
    case Empty => 0
    case Then(prev, _, from) => Contributions(prev, id) + if from == id then 1 else 0
  }

  // The batch handed to the most recent review-round turn.
  function LastBatch(log: Log): seq<Instr> {
    match log
    case Nil => []
    case Snoc(prev, o) => if o.Attempt? && o.kind == Round then o.texts else LastBatch(prev)
  }

  // The batches of the rounds that did not end in agent_failed, in order.
  function DeliveredFeedback(log: Log): seq<Instr> {
    match log
    case Nil => []
    case Snoc(prev, o) => DeliveredFeedback(prev) + if o.RoundDone? && !o.failed then LastBatch(prev) else []
  }

  // ---- deliveries ----

  function AdmittedDeliveries(log: Log): seq<string> {
    match log
    case Nil => []
    case Snoc(prev, o) => AdmittedDeliveries(prev) + if o.Admitted? then [o.delivery] else []
  }

  // ---- spend ----

  function Spend(log: Log): real {
    match log
    case Nil => 0.0
    case Snoc(prev, o) => Spend(prev) + if o.Turn? then o.res.cost else 0.0
  }

  // The part spent by the turns that wake a parked session for a human attach.
  function WakeSpend(log: Log): real {
    match log
    case Nil => 0.0
    case Snoc(prev, o) => WakeSpend(prev) + if o.Turn? && o.kind == Wake then o.res.cost else 0.0
  }

  // Agent work: an attempted or finished turn other than the wake-up turn of an attach.
  predicate IsWork(o: Obs) {
    (o.Attempt? || o.Turn?) && o.kind != Wake
  }

  // All agent work was attempted, and run, below a positive ceiling.
  predicate Gated(ceiling: real, log: Log) {
    match log
    case Nil => true
    case Snoc(prev, o) => Gated(ceiling, prev) && (IsWork(o) && ceiling > 0.0 ==> Spend(prev) < ceiling)
  }

  predicate EveryTurnCostsAtMost(log: Log, max: real) {
    match log
    case Nil => true
    case Snoc(prev, o) => EveryTurnCostsAtMost(prev, max) && (o.Turn? ==> o.res.cost <= max)
  }

  function WorkCount(log: Log): nat {
    match log
    case Nil => 0
    case Snoc(prev, o) => WorkCount(prev) + if IsWork(o) then 1 else 0
  }

  // ---- guests and pull requests ----

  datatype Guest = Gone | Live(mode: Mode, prOpened: bool)

  function GuestAfter(g: Guest, o: Obs): Guest {
    match o
    case Launched(mode) => Live(mode, false)
    case Turn(_, _, created) => if g.Live? then Live(g.mode, g.prOpened || created) else Gone
    case Stopped => Gone
    case _ => g
  }

  // The guest a session is talking to: each successful launch boots one, and its PR flag follows the
  // pull requests it really created.
  function GuestOf(log: Log): Guest {
    match log
    case Nil => Gone
    case Snoc(prev, o) => GuestAfter(GuestOf(prev), o)
  }

  function PRsCreated(log: Log): nat {
    match log
    case Nil => 0
    case Snoc(prev, o) => PRsCreated(prev) + if o.Turn? && o.prCreated then 1 else 0
  }

  // The pull request number the workflow was last told about.
  function KnownPR(log: Log): int {
    match log
    case Nil => 0
    case Snoc(prev, o) =>
      if o.CheckedPR? then o.number
      else if o.Turn? && o.res.outcome == PROpened && o.res.prNumber != 0 then o.res.prNumber
      else KnownPR(prev)
  }

  predicate InitialPhase(kind: TurnKind) {
    kind == First || kind == Talk(false)
  }

  // A report that hides a created PR: only in the initial phase, where the phase reads as failed or
  // the event carries no number.
  predicate MayBeLost(kind: TurnKind, r: PhaseResult) {
    InitialPhase(kind) && (r.outcome == AgentFailed || r.outcome == PROpened)
  }

  // One turn's report against what its guest did: a guest creates a PR only when it should, claims one
  // only when it created one, and a creation is reported with its number unless it may be lost.
  predicate FaithfulTurn(g: Guest, kind: TurnKind, r: PhaseResult, created: bool) {
    && (created ==> g.Live? && ShouldOpenPR(g.mode, g.prOpened))
    && (r.outcome == PROpened ==> created && r.prNumber >= 0)
    && (created ==> (r.outcome == PROpened && r.prNumber > 0) || MayBeLost(kind, r))
  }

  // Reports are faithful, and the check that ends the initial phase finds a PR that exists.
  predicate Faithful(log: Log) {
    match log
    case Nil => true
    case Snoc(prev, o) =>
      && Faithful(prev)
      && (o.Turn? ==> FaithfulTurn(GuestOf(prev), o.kind, o.res, o.prCreated))
      && (o.CheckedPR? ==> o.number >= 0 && (PRsCreated(prev) > 0 ==> o.number > 0))
  }

  // ---- the shape of discussions ----

  // Quiet outside a discussion call. Inside a call in a given mode: waiting for a reply, answered,
  // or having built; a turn after "proceed" leaves only the close.
  datatype Talking = Quiet | Waiting(mode: Mode) | Answered(mode: Mode, proceed: bool) | Built | Broken

  function TalkAfter(t: Talking, knownPR: int, o: Obs): Talking {
    match o
    case DiscussOpen(m) => if t == Quiet then Waiting(m) else Broken
    case Reply(proceed) => if t.Waiting? then Answered(t.mode, proceed) else Broken
    case Attempt(kind, how, _) =>
      if !kind.Talk? then (if t == Quiet then Quiet else Broken)
      else if !t.Answered? then Broken
      else if t.proceed then (if how == Cold(if knownPR > 0 then Resume else Execute) then Built else Broken)
      else if how == Cold(t.mode) then Waiting(t.mode) else Broken
    case DiscussClose => if t == Built || t.Waiting? then Quiet else Broken
    case _ => t
  }

  function TalkState(log: Log): Talking {
    match log
    case Nil => Quiet
    case Snoc(prev, o) => TalkAfter(TalkState(prev), KnownPR(prev), o)
  }

  predicate OnlyPlans(log: Log) {
    match log
    case Nil => true
    case Snoc(prev, o) => OnlyPlans(prev) && (o.Attempt? ==> o.how == Cold(Plan))
  }

  // A plan turn discards the working tree, so it must never follow a turn that may hold real work.
  predicate PlansComeFirst(log: Log) {
    match log
    case Nil => true
    case Snoc(prev, o) => PlansComeFirst(prev) && (o.Attempt? && o.how == Cold(Plan) ==> OnlyPlans(prev))
  }
}
