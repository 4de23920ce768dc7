/** The session protocol's guarantees, for every policy, every start, every sequence of selected
    signals and every activity result. */
module SessionTheorems {
  import opened Protocol
  import opened Session
  import opened SessionLog
  import SessionLaws
  import SessionHistory
  import SessionComments
  import Dedupe

  // ---- the invariants hold after every run ----

  ghost predicate Kept(p: Policy, s: State) {
    SessionLaws.LoopInv(p, s) && SessionHistory.HistoryInv(p, s)
  }

  lemma {:induction false} RunKeeps(p: Policy, start: Env, inputs: seq<Input>)
    ensures Kept(p, Run(p, start, inputs))
  {
    hide Step, Start, SessionLaws.FeedbackInv, SessionHistory.HistoryInv;
    if inputs == [] {
      SessionLaws.LoopStart(p, start);
      SessionHistory.HistoryStart(p, start);
    } else {
      var before, i := inputs[..|inputs| - 1], inputs[|inputs| - 1];
      RunKeeps(p, start, before);
      SessionLaws.LoopStep(p, Run(p, start, before), i.sig, i.env);
      SessionHistory.HistoryStep(p, Run(p, start, before), i.sig, i.env);
    }
  }

  // ---- timers and the freeze ----

  // Queued feedback always has something that will pick it up, a window is never open over nothing,
  // the VM is pinned exactly while a human is in the loop, and a warm idle VM is on the idle clock.
  lemma TimersAndFreeze(p: Policy, start: Env, inputs: seq<Input>)
    ensures var s := Run(p, start, inputs);
      s.control == Head ==>
        && (s.inbox.pending != [] ==> s.coalesce || s.attached || s.awaitingChoice || s.ceilingReached)
        && (s.coalesce ==> s.inbox.pending != [])
        && (s.attached || s.awaitingChoice ==> !s.keepAlive)
        && (s.attached <==> s.relay)
        && (s.keepAlive ==> s.vm == VMRunning && p.keepAlive > 0)
        && (s.vm == VMRunning && p.keepAlive > 0 && !s.attached && !s.awaitingChoice && s.inbox.pending == []
            ==> s.keepAlive)
  {
    hide Run, SessionHistory.HistoryInv;
    RunKeeps(p, start, inputs);
  }

  // The idle timer never fires under a human, never drops queued feedback, and stops the VM or the
  // session only when nothing is queued.
  lemma IdleTimerIsSafe(p: Policy, start: Env, inputs: seq<Input>, env: Env)
    ensures var s := Run(p, start, inputs);
      var t := Step(p, s, KeepAliveTimer, env);
      s.control == Head && s.keepAlive ==>
        && !s.attached && !s.awaitingChoice
        && t.inbox == s.inbox
        && (t.vm != s.vm || t.control != s.control ==> s.inbox.pending == [])
        && (t.control != s.control ==> t.control == Done(EndedNoInput) && s.prNumber == 0)
        && (s.inbox.pending != [] ==> t.coalesce || t.ceilingReached)
  {
    hide Run, SessionHistory.HistoryInv;
    RunKeeps(p, start, inputs);
  }

  // The agent never starts work while a human is attached or deciding, nor at or above the ceiling.
  lemma NoWorkWhileHeld(p: Policy, start: Env, inputs: seq<Input>, sig: Signal, env: Env)
    ensures var s := Run(p, start, inputs);
      SessionLaws.Held(p, s) ==> WorkCount(Step(p, s, sig, env).log) == WorkCount(s.log)
  {
    hide Run, SessionHistory.HistoryInv, Step;
    RunKeeps(p, start, inputs);
    if SessionLaws.Held(p, Run(p, start, inputs)) {
      SessionLaws.HeldStep(p, Run(p, start, inputs), sig, env);
    }
  }

  // ---- feedback ----

  // At every review-loop head: the batches of all rounds that landed, followed by what is queued, is
  // exactly the feedback ever accepted, in order. While a round discusses, its batch sits in between.
  lemma FeedbackIsConserved(p: Policy, start: Env, inputs: seq<Input>)
    ensures var s := Run(p, start, inputs);
      && (s.control == Head ==>
            DeliveredFeedback(s.log) + s.inbox.pending == AcceptedFeedback(s.inbox.accepted))
      && (s.control.Discussing? && s.control.caller.FromRound? ==>
            && s.inbox.pending == []
            && s.control.caller.batch == LastBatch(s.log)
            && DeliveredFeedback(s.log) + s.control.caller.batch == AcceptedFeedback(s.inbox.accepted))
  {
    hide Run, SessionHistory.HistoryInv;
    RunKeeps(p, start, inputs);
    var s := Run(p, start, inputs);
    var d := DeliveredFeedback(s.log);
    assert d + [] + s.inbox.pending == d + s.inbox.pending;
    if s.control.Discussing? && s.control.caller.FromRound? {
      assert d + s.control.caller.batch + [] == d + s.control.caller.batch;
    }
  }

  // ---- spend ----

  // The cumulative cost is the sum over all turns, each counted once; no agent work started at or
  // above a positive ceiling; and the latch is only set at the ceiling.
  lemma SpendLedger(p: Policy, start: Env, inputs: seq<Input>)
    ensures var s := Run(p, start, inputs);
      && s.cost == Spend(s.log)
      && Gated(p.costCeiling, s.log)
      && (s.ceilingReached ==> p.costCeiling > 0.0 && Spend(s.log) >= p.costCeiling)
  {
    hide Run, SessionLaws.LoopInv;
    RunKeeps(p, start, inputs);
  }

  lemma {:induction false} GateBoundsSpend(ceiling: real, max: real, l: Log)
    requires ceiling > 0.0 && max >= 0.0 && Gated(ceiling, l) && EveryTurnCostsAtMost(l, max)
    ensures 0.0 <= WakeSpend(l) && Spend(l) < ceiling + max + WakeSpend(l)
  {
    if l.Snoc? { GateBoundsSpend(ceiling, max, l.prev); }
  }

  // Total spend stays below the ceiling plus one turn, plus what attach wake-up turns cost.
  lemma SpendIsBounded(p: Policy, start: Env, inputs: seq<Input>, max: real)
    requires p.costCeiling > 0.0 && max >= 0.0
    requires EveryTurnCostsAtMost(Run(p, start, inputs).log, max)
    ensures var s := Run(p, start, inputs); s.cost < p.costCeiling + max + WakeSpend(s.log)
  {
    hide Run;
    SpendLedger(p, start, inputs);
    GateBoundsSpend(p.costCeiling, max, Run(p, start, inputs).log);
  }

  // Once the ceiling is hit it stays hit, so the whole rest of the run contains no agent work.
  lemma {:induction false} CeilingIsFinal(p: Policy, start: Env, inputs: seq<Input>, more: seq<Input>)
    requires CeilingHit(p, Run(p, start, inputs))
    ensures var s, t := Run(p, start, inputs), Run(p, start, inputs + more);
      CeilingHit(p, t) && WorkCount(t.log) == WorkCount(s.log) && (s.ceilingReached ==> t.ceilingReached)
    decreases |more|
  {
    hide Step, Start;
    if more == [] {
      assert inputs + more == inputs;
    } else {
      var i, mid := more[|more| - 1], inputs + more[..|more| - 1];
      assert (inputs + more)[..|inputs + more| - 1] == mid;
      CeilingIsFinal(p, start, inputs, more[..|more| - 1]);
      NoWorkWhileHeld(p, start, mid, i.sig, i.env);
      RunKeeps(p, start, mid);
      SessionLaws.CeilingStep(p, Run(p, start, mid), i.sig, i.env);
    }
  }

  // ---- discussions ----

  // Each discussion call re-runs only in its own mode, builds only right after a "proceed" (in execute
  // mode exactly when no PR is known) and then ends; and plan turns, which discard the tree, never
  // follow any other turn.
  lemma DiscussionDiscipline(p: Policy, start: Env, inputs: seq<Input>)
    ensures var s := Run(p, start, inputs);
      && TalkState(s.log) != Broken
      && (s.control == Head ==> TalkState(s.log) == Quiet)
      && (s.control.Discussing? ==> TalkState(s.log) == Waiting(s.control.mode))
      && PlansComeFirst(s.log)
  {
    hide Run, SessionLaws.LoopInv;
    RunKeeps(p, start, inputs);
  }

  // ---- pull requests ----

  // If reports are faithful, a session creates at most one pull request, across its initial, plan,
  // execute and resume guests, warm turns, lost VMs and relaunches; and the workflow knows its number.
  lemma AtMostOnePR(p: Policy, start: Env, inputs: seq<Input>)
    requires Faithful(Run(p, start, inputs).log)
    ensures var s := Run(p, start, inputs);
      PRsCreated(s.log) <= 1 && (PRsCreated(s.log) == 1 ==> s.prNumber > 0)
  {
    hide Run, SessionLaws.LoopInv;
    RunKeeps(p, start, inputs);
  }

  // ---- GitHub comments ----

  lemma StartTakesNothing(p: Policy, start: Env)
    ensures SessionComments.TakesNothing(FRESH, Start(p, start))
  {
    hide LaunchWarm, RecordOutcome, AdmittedDeliveries;
    var mode := if p.planFirst then Plan else Initial;
    SessionComments.TurnTakesNothing(FRESH, First, mode, [], start.turn);
    var (s1, r) := LaunchWarm(FRESH, First, mode, [], start.turn);
    var s2 := RecordOutcome(s1, r);
    SessionComments.EnterTakesNothing(p, s2, FromStart, if p.planFirst then Plan else Resume, start);
    hide SessionComments.TakesNothing, EnterLoop, EnterDiscussion;
    SessionComments.Chain(FRESH, s2, Start(p, start));
  }

  // Each GitHub id contributes at most one instruction however often it arrives; the delivery dedupe
  // is exactly the window of the last 500 admitted deliveries; and the reply target was accepted.
  lemma {:induction false} CommentsAtMostOnce(p: Policy, start: Env, inputs: seq<Input>, id: int)
    requires id != 0
    ensures var s := Run(p, start, inputs);
      && Contributions(s.inbox.accepted, id) <= (if id in s.inbox.seenComments then 1 else 0)
      && SessionComments.Deliveries(s)
      && SessionComments.ReplyTarget(s.inbox)
  {
    hide Step, Start;
    if inputs == [] {
      StartTakesNothing(p, start);
    } else {
      var before, i := inputs[..|inputs| - 1], inputs[|inputs| - 1];
      CommentsAtMostOnce(p, start, before, id);
      SessionComments.CommentsStep(p, Run(p, start, before), i.sig, i.env, id);
    }
  }

  ghost predicate HonestRun(actionable: int -> bool, inputs: seq<Input>) {
    forall i :: 0 <= i < |inputs| ==> SessionComments.Honest(actionable, inputs[i].sig, inputs[i].env)
  }

  // When both paths agree on what asks for a change, a seen id contributed exactly one instruction if
  // it does and none if it does not.
  lemma {:induction false} CommentsExactlyOnce(
      actionable: int -> bool, p: Policy, start: Env, inputs: seq<Input>, id: int)
    requires id != 0 && HonestRun(actionable, inputs)
    ensures var b := Run(p, start, inputs).inbox;
      Contributions(b.accepted, id) == if id in b.seenComments && actionable(id) then 1 else 0
  {
    hide Step, Start;
    if inputs == [] {
      StartTakesNothing(p, start);
    } else {
      var before, i := inputs[..|inputs| - 1], inputs[|inputs| - 1];
      CommentsExactlyOnce(actionable, p, start, before, id);
      CommentsAtMostOnce(p, start, before, id);
      SessionComments.ExactStep(actionable, p, Run(p, start, before), i.sig, i.env, id);
    }
  }

  // After the window closes over a successful fetch, every fetched entry that asks for a change has
  // been accepted, exactly once over the whole run.
  lemma FetchedEntriesAreAccepted(
      actionable: int -> bool, p: Policy, start: Env, inputs: seq<Input>, env: Env, c: ThreadComment)
    requires HonestRun(actionable, inputs + [Input(CoalesceTimer, env)])
    requires var s := Run(p, start, inputs); s.control == Head && s.coalesce && s.prNumber > 0
    requires env.thread.Some? && c in env.thread.value && c.id != 0 && ActionableEntry(c)
    ensures Contributions(Run(p, start, inputs + [Input(CoalesceTimer, env)]).inbox.accepted, c.id) == 1
  {
    hide HeadStep, Start, FoldThread, Dedupe.Windows;
    var all := inputs + [Input(CoalesceTimer, env)];
    assert all[..|all| - 1] == inputs && all[|all| - 1] == Input(CoalesceTimer, env);
    var s := Run(p, start, inputs);
    assert HonestRun(actionable, inputs) by {
      forall i | 0 <= i < |inputs| ensures SessionComments.Honest(actionable, inputs[i].sig, inputs[i].env) {
        assert all[i] == inputs[i];
      }
    }
    CommentsAtMostOnce(p, start, inputs, c.id);
    CommentsExactlyOnce(actionable, p, start, inputs, c.id);
    CommentsExactlyOnce(actionable, p, start, all, c.id);
    assert SessionComments.Honest(actionable, all[|inputs|].sig, all[|inputs|].env);
    SessionComments.HeadTakesIn(p, s, CoalesceTimer, env);
    SessionComments.FoldExactlyOnce(actionable, s.inbox, env.thread.value, c.id);
  }
}
