/** The workflow in its own imperative form: fields that the callbacks and helpers update in place,
    proved to be the step machine of module Session. */
module PRWorkflow {
  import opened Protocol
  import opened Session
  import opened SessionLog
  import Dedupe
  import Effects = SessionEffects
  import PRs = SessionPRs
  import Steps = SessionSteps
  import Theorems = SessionTheorems

  class Workflow {
    const policy: Policy

    // the queryable state block and the control point
    var control: Control
    var vm: VM
    var prNumber: int
    var pending: seq<Instr>
    var reviewRound: nat
    var cost: real
    var ceilingReached: bool

    // the review loop's locals
    var seen: set<string>
    var seenOrder: seq<string>
    var seenComments: set<int>
    var coalesce: bool
    var keepAlive: bool
    var pendingFromPR: bool
    var pendingReplyToID: int
    var attached: bool
    var awaitingChoice: bool
    var relay: bool

    // history
    ghost var accepted: Feedback
    ghost var log: Log
    ghost var start: Env
    ghost var inputs: seq<Input>

    ghost function Snap(): State reads this {
      State(control, vm, prNumber, Inbox(pending, pendingFromPR, pendingReplyToID, seenComments, accepted),
            reviewRound, cost, ceilingReached, Dedupe.Fifo(seen, seenOrder), coalesce, keepAlive,
            attached, awaitingChoice, relay, log)
    }

    // The object is where a run of the step machine over its inputs is.
    ghost predicate Valid() reads this {
      Snap() == Run(policy, start, inputs)
    }

    // Queued feedback has a timer, a human or the ceiling; no window is open over nothing; no idle timer
    // runs under a human; a human is attached exactly while a relay runs; a warm idle VM is on the clock.
    ghost predicate TimersHold() reads this {
      control == Head ==>
        && (pending != [] ==> coalesce || attached || awaitingChoice || ceilingReached)
        && (coalesce ==> pending != [])
        && (attached || awaitingChoice ==> !keepAlive)
        && (attached <==> relay)
        && (keepAlive ==> vm == VMRunning && policy.keepAlive > 0)
        && (vm == VMRunning && policy.keepAlive > 0 && !attached && !awaitingChoice && pending == [] ==> keepAlive)
    }

    // Rounds that landed, a round in discussion and the queue are all the feedback ever accepted, in order.
    ghost predicate FeedbackHolds() reads this {
      && (control == Head ==> DeliveredFeedback(log) + pending == AcceptedFeedback(accepted))
      && (control.Discussing? && control.caller.FromRound? ==>
            pending == [] && DeliveredFeedback(log) + control.caller.batch == AcceptedFeedback(accepted))
    }

    // The cost is what the turns cost, work was started below the ceiling, and the latch is sound.
    ghost predicate LedgerHolds() reads this {
      && cost == Spend(log) && Gated(policy.costCeiling, log)
      && (ceilingReached ==> policy.costCeiling > 0.0 && cost >= policy.costCeiling)
    }

    // Discussions keep their discipline, and faithful guests have opened at most one PR, which is known.
    ghost predicate PRsHold() reads this {
      && TalkState(log) != Broken && PlansComeFirst(log)
      && (Faithful(log) ==> PRsCreated(log) <= 1 && (PRsCreated(log) == 1 ==> prNumber > 0))
    }

    // A GitHub id contributed at most once, and only if it is marked; the delivery set is its window.
    ghost predicate CommentsHold() reads this {
      && (forall id :: id != 0 ==> Contributions(accepted, id) <= if id in seenComments then 1 else 0)
      && Dedupe.Windows(Dedupe.Fifo(seen, seenOrder), 500, AdmittedDeliveries(log))
    }

    ghost predicate Sound() reads this {
      TimersHold() && FeedbackHolds() && LedgerHolds() && PRsHold() && CommentsHold()
    }

    // The session's theorems, about this object's own fields.
    lemma ValidIsSound()
      requires Valid()
      ensures Sound()
    {
      Theorems.TimersAndFreeze(policy, start, inputs);
      Theorems.FeedbackIsConserved(policy, start, inputs);
      Theorems.SpendLedger(policy, start, inputs);
      Theorems.DiscussionDiscipline(policy, start, inputs);
      if Faithful(log) { Theorems.AtMostOnePR(policy, start, inputs); }
      Theorems.CommentsAtMostOnce(policy, start, inputs, 1);
      forall id | id != 0 ensures Contributions(accepted, id) <= if id in seenComments then 1 else 0 {
        Theorems.CommentsAtMostOnce(policy, start, inputs, id);
      }
      hide Run, Faithful, Dedupe.Windows;
    }

    // While a human is in the loop or the ceiling is hit, no step starts agent work.
    lemma HeldDoesNoWork(sig: Signal, env: Env)
      requires Valid() && (attached || awaitingChoice || CeilingHit(policy, Snap()))
      ensures WorkCount(Step(policy, Snap(), sig, env).log) == WorkCount(log)
    {
      Theorems.NoWorkWhileHeld(policy, start, inputs, sig, env);
    }

    // The end of a tunnel, about this object's own fields.
    lemma TunnelEnds(sig: Signal, env: Env)
      requires control == Head && relay && sig.RelayEnded?
      ensures var t := Step(policy, Snap(), sig, env);
        && !t.attached && !t.relay && (t.awaitingChoice <==> sig.edits || awaitingChoice)
        && (!t.awaitingChoice ==>
              && (t.inbox.pending != [] ==> t.coalesce)
              && (t.vm == VMRunning && policy.keepAlive > 0 ==> t.keepAlive))
    {}

    constructor (p: Policy, env: Env)
      ensures Valid() && policy == p && start == env && inputs == []
      ensures Snap() == Start(p, env) && Sound()
    {
      policy := p;
      control, vm, prNumber, pending, reviewRound, cost, ceilingReached := Head, VMNone, 0, [], 0, 0.0, false;
      seen, seenOrder, seenComments := {}, [], {};
      coalesce, keepAlive, pendingFromPR, pendingReplyToID := false, false, false, 0;
      attached, awaitingChoice, relay := false, false, false;
      accepted, log, start, inputs := Empty, Nil, env, [];
      new;
      hide Session.LaunchWarm, Session.EnterLoop, Session.EnterDiscussion, Session.RecordOutcome, Step;
      assert Snap() == FRESH;
      var r := LaunchWarm(First, if p.planFirst then Plan else Initial, [], env.turn);
      RecordOutcome(r);
      if r.outcome == NeedsInput {
        EnterDiscussion(FromStart, if p.planFirst then Plan else Resume);
      } else {
        EnterLoop(env);
      }
      hide Sound;
      ValidIsSound();
    }

    // One Select: run the selected callback, then the rest of the iteration.
    method Iterate(sig: Signal, env: Env)
      requires Valid()
      modifies this
      ensures Valid() && inputs == old(inputs) + [Input(sig, env)] && start == old(start)
      ensures Snap() == Step(policy, old(Snap()), sig, env)
      ensures Sound()
      ensures old(attached || awaitingChoice || CeilingHit(policy, Snap())) ==> WorkCount(log) == old(WorkCount(log))
      // every field, by what it is for
      ensures Effects.StepIs(policy, old(Snap()), sig, env, Snap())
      // a tunnel that ends with edits leaves a decision to the human, and one without resumes the agent
      ensures old(control == Head && relay) && sig.RelayEnded? ==>
        && !attached && !relay && (awaitingChoice <==> sig.edits || old(awaitingChoice))
        && (!awaitingChoice ==> (pending != [] ==> coalesce) && (vm == VMRunning && policy.keepAlive > 0 ==> keepAlive))
    {
      Steps.StepDoes(policy, Snap(), sig, env);
      if control == Head && relay && sig.RelayEnded? { TunnelEnds(sig, env); }
      if attached || awaitingChoice || CeilingHit(policy, Snap()) { HeldDoesNoWork(sig, env); }
      PRs.Extend(policy, start, inputs, Input(sig, env));
      hide Step, Run, Sound, WorkCount, Effects.StepIs;
      RunCallback(sig, env);
      inputs := inputs + [Input(sig, env)];
      ValidIsSound();
    }

    method RunCallback(sig: Signal, env: Env)
      modifies this
      ensures start == old(start) && inputs == old(inputs)
      ensures Snap() == Step(policy, old(Snap()), sig, env)
    {
      hide HeadStep, Session.Discuss;
      match control
      case Head => ReviewStep(sig, env);
      case Discussing(caller, mode) => Discuss(caller, mode, sig, env);
      case Done(_) =>
    }

    method ReviewStep(sig: Signal, env: Env)
      requires control == Head
      modifies this
      ensures start == old(start) && inputs == old(inputs)
      ensures Snap() == HeadStep(policy, old(Snap()), sig, env)
    {
      hide Session.OnReviewComment, Session.OnReviewSubmitted, Session.OnCIStatus, Session.OnPRClosed,
        Session.RouteUserMessage, Session.EndSession, Session.AttachHuman, Session.EndRelay,
        Session.CloseWindow, Session.IdleOut;
      match sig
      case ReviewComment(delivery, id, inline, text) => OnReviewComment(delivery, id, inline, text);
      case ReviewSubmitted(delivery, id, asks, text) => OnReviewSubmitted(delivery, id, asks, text);
      case CIStatus(delivery, failure, url) => OnCIStatus(delivery, failure, url);
      case PRClosed(delivery, merged) => OnPRClosed(delivery, merged);
      case UserMessage(text, attachments) => RouteUserMessage(text, attachments, env);
      case Abort(reason) => EndSession(Aborted(reason));
      case Attach => AttachHuman(env);
      case Detach =>
      case RelayEnded(edits) => if relay { EndRelay(edits); }
      case HardTTL => EndSession(Aborted("hard_ttl"));
      case CoalesceTimer => if coalesce { CloseWindow(env); }
      case KeepAliveTimer => if keepAlive { IdleOut(); }
    }

    method OnReviewComment(delivery: string, id: int, inline: bool, text: string)
      modifies this`seen, this`seenOrder, this`log, this`pending, this`accepted, this`pendingFromPR,
        this`seenComments, this`pendingReplyToID, this`coalesce
      ensures Snap() == Session.OnReviewComment(old(Snap()), delivery, id, inline, text)
    {
      hide Session.DedupeDelivery, Session.ArmCoalesce;
      var dup := DedupeDelivery(delivery);
      if dup || (id != 0 && id in seenComments) { return; }
      AcceptComment(id, inline, text);
      ArmCoalesce();
    }

    method AcceptComment(id: int, inline: bool, text: string)
      modifies this`pending, this`accepted, this`pendingFromPR, this`seenComments, this`pendingReplyToID
      ensures var b := MarkSeen(PushFromPR(old(Snap()).inbox, GitHub(text), id), id);
        Snap().inbox == if id != 0 && inline then b.(replyToID := id) else b
    {
      Push(GitHub(text), id);
      pendingFromPR := true;
      if id != 0 { seenComments := seenComments + {id}; }
      if id != 0 && inline { pendingReplyToID := id; }
    }

    method OnReviewSubmitted(delivery: string, id: int, changesRequested: bool, text: string)
      modifies this`seen, this`seenOrder, this`log, this`pending, this`accepted, this`pendingFromPR,
        this`seenComments, this`coalesce
      ensures Snap() == Session.OnReviewSubmitted(old(Snap()), delivery, id, changesRequested, text)
    {
      hide Session.DedupeDelivery, Session.ArmCoalesce;
      var dup := DedupeDelivery(delivery);
      if dup || (id != 0 && id in seenComments) { return; }
      if id != 0 { seenComments := seenComments + {id}; }
      if changesRequested {
        QueueReview(id, text);
        ArmCoalesce();
      }
    }

    method QueueReview(id: int, text: string)
      modifies this`pending, this`accepted, this`pendingFromPR
      ensures Snap().inbox == PushFromPR(old(Snap()).inbox, GitHub(text), id)
    {
      Push(GitHub(text), id);
      pendingFromPR := true;
    }

    method OnCIStatus(delivery: string, failure: bool, url: string)
      modifies this`seen, this`seenOrder, this`log, this`pending, this`accepted, this`pendingFromPR, this`coalesce
      ensures Snap() == Session.OnCIStatus(policy, old(Snap()), delivery, failure, url)
    {
      hide Session.DedupeDelivery;
      var dup := DedupeDelivery(delivery);
      if dup || !failure || !policy.autoFixCI { return; }
      Push(CIFailure(url), 0);
      pendingFromPR := true;
      ArmCoalesce();
    }

    method OnPRClosed(delivery: string, merged: bool)
      modifies this`seen, this`seenOrder, this`log, this`control, this`vm
      ensures Snap() == Session.OnPRClosed(old(Snap()), delivery, merged)
    {
      hide Session.DedupeDelivery;
      var dup := DedupeDelivery(delivery);
      if !dup { EndSession(if merged then Merged else Closed); }
    }

    method Push(i: Instr, id: int)
      modifies this`pending, this`accepted
      ensures Snap().inbox == Session.Push(old(Snap()).inbox, i, id)
    {
      pending := pending + [i];
      accepted := Then(accepted, i, id);
    }

    method DedupeDelivery(id: string) returns (dup: bool)
      modifies this`seen, this`seenOrder, this`log
      ensures (Snap(), dup) == Session.DedupeDelivery(old(Snap()), id)
    {
      if id == "" || id in seen { return true; }
      seen := seen + {id};
      seenOrder := seenOrder + [id];
      log := Snoc(log, Admitted(id));
      if |seenOrder| > MAX_SEEN_DELIVERIES {
        seen := seen - {seenOrder[0]};
        seenOrder := seenOrder[1..];
      }
      return false;
    }

    method ArmCoalesce()
      modifies this`coalesce
      ensures Snap() == Session.ArmCoalesce(old(Snap()))
    {
      if !coalesce && !attached && !awaitingChoice { coalesce := true; }
    }

    method ArmKeepAlive()
      modifies this`keepAlive
      ensures Snap() == Session.ArmKeepAlive(policy, old(Snap()))
    {
      keepAlive := vm == VMRunning && policy.keepAlive > 0 && !attached && !awaitingChoice;
    }

    method RouteUserMessage(text: string, attachments: string, env: Env)
      modifies this
      ensures start == old(start) && inputs == old(inputs)
      ensures Snap() == Session.RouteUserMessage(old(Snap()), text, attachments, env)
    {
      var i := Instruction(text, attachments);
      if awaitingChoice {
        awaitingChoice := false;
        Push(EditDecision(i), 0);
        ArmCoalesce();
      } else {
        var intent := if text != "" then env.intent else AsMessage;
        match intent
        case AsAttach => AttachHuman(env);
        case AsDetach =>
        case AsMessage =>
          if !attached && i != "" {
            Push(Said(i), 0);
            ArmCoalesce();
          }
      }
    }

    method CloseWindow(env: Env)
      requires control == Head
      modifies this
      ensures start == old(start) && inputs == old(inputs)
      ensures Snap() == Session.CloseWindow(policy, old(Snap()), env)
    {
      hide Session.StartRound, Session.Gather;
      Gather(env);
      if pending == [] || attached || awaitingChoice { return; }
      var hit := CostHit();
      if hit {
        ceilingReached := true;
        ArmKeepAlive();
      } else {
        StartRound(env);
      }
    }

    method Gather(env: Env)
      modifies this`coalesce, this`pending, this`accepted, this`pendingFromPR, this`pendingReplyToID, this`seenComments
      ensures Snap() == Session.Gather(old(Snap()), env)
    {
      hide Session.ReconcileThread;
      coalesce := false;
      if prNumber > 0 { ReconcileThread(env.thread); }
    }

    // Fold the fetched thread in, entry by entry.
    method ReconcileThread(thread: Option<seq<ThreadComment>>)
      modifies this`pending, this`accepted, this`pendingFromPR, this`pendingReplyToID, this`seenComments
      ensures Snap() == Session.ReconcileThread(old(Snap()), thread)
    {
      if prNumber == 0 || thread.None? { return; }
      ghost var goal := FoldThread(Snap().inbox, thread.value);
      assert thread.value[0..] == thread.value;
      for n := 0 to |thread.value|
        invariant FoldThread(Snap().inbox, thread.value[n..]) == goal
      {
        hide FoldEntry;
        var c := thread.value[n];
        assert thread.value[n..][0] == c && thread.value[n..][1..] == thread.value[n + 1..];
        FoldComment(c);
      }
    }

    method FoldComment(c: ThreadComment)
      modifies this`pending, this`accepted, this`pendingFromPR, this`pendingReplyToID, this`seenComments
      ensures Snap().inbox == FoldEntry(old(Snap().inbox), c)
    {
      if c.id == 0 || c.id in seenComments { return; }
      seenComments := seenComments + {c.id};
      if c.kind == Review && !c.changesRequested { return; }
      Push(GitHub(c.text), c.id);
      pendingFromPR := true;
      if c.kind == InlineComment { pendingReplyToID := c.id; }
    }

    method StartRound(env: Env)
      requires control == Head
      modifies this
      ensures start == old(start) && inputs == old(inputs)
      ensures Snap() == Session.StartRound(policy, old(Snap()), env)
    {
      hide Session.RoundTurn, Session.TakeBatch, Session.EnterDiscussion, Session.FinishRound, Session.RecordOutcome;
      var batch, fromPR, replyToID := pending, pendingFromPR, pendingReplyToID;
      TakeBatch();
      var r := RoundTurn(batch, env.turn);
      RecordOutcome(r);
      if r.outcome == NeedsInput {
        EnterDiscussion(FromRound(batch, fromPR, replyToID), Resume);
      } else {
        FinishRound(r, batch, fromPR, replyToID);
      }
    }

    method TakeBatch()
      modifies this`pending, this`pendingFromPR, this`pendingReplyToID, this`reviewRound
      ensures Snap() == Session.TakeBatch(old(Snap()))
    {
      pending, pendingFromPR, pendingReplyToID := [], false, 0;
      reviewRound := reviewRound + 1;
    }

    method RoundTurn(batch: seq<Instr>, t: TurnResult) returns (r: PhaseResult)
      modifies this`vm, this`log
      ensures (Snap(), r) == Session.RoundTurn(old(Snap()), batch, t)
    {
      hide Session.WarmTurn, Session.LaunchWarm;
      if vm == VMRunning {
        r := WarmTurn(Round, batch, t);
      } else {
        r := LaunchWarm(Round, Resume, batch, t);
      }
    }

    method FinishRound(r: PhaseResult, batch: seq<Instr>, fromPR: bool, replyToID: int)
      modifies this`pending, this`pendingFromPR, this`coalesce, this`keepAlive, this`log
      ensures Snap() == Session.FinishRound(policy, old(Snap()), r, batch, fromPR, replyToID)
    {
      hide Session.ArmKeepAlive;
      if r.outcome == AgentFailed {
        pending, pendingFromPR := batch + pending, pendingFromPR || fromPR;
        coalesce, log := true, Snoc(log, RoundDone(true));
      } else {
        if fromPR { log := Snoc(log, PRReply(replyToID)); }
        log := Snoc(log, RoundDone(false));
      }
      ArmKeepAlive();
    }

    method EnterLoop(env: Env)
      modifies this`control, this`prNumber, this`keepAlive, this`log
      ensures Snap() == Session.EnterLoop(policy, old(Snap()), env)
    {
      if prNumber == 0 {
        prNumber := env.foundPR;
        log := Snoc(log, CheckedPR(env.foundPR));
      }
      ArmKeepAlive();
      control := Head;
    }

    method EnterDiscussion(caller: Caller, mode: Mode)
      modifies this`control, this`log
      ensures Snap() == Session.EnterDiscussion(old(Snap()), caller, mode)
    {
      control := Discussing(caller, mode);
      log := Snoc(log, DiscussOpen(mode));
    }

    method LeaveDiscussion(caller: Caller, r: PhaseResult, env: Env)
      modifies this
      ensures start == old(start) && inputs == old(inputs)
      ensures Snap() == Session.LeaveDiscussion(policy, old(Snap()), caller, r, env)
    {
      control := Head;
      log := Snoc(log, DiscussClose);
      if r.outcome == NeedsInput {
        EnterDiscussion(caller, Resume);
      } else {
        match caller
        case FromStart => EnterLoop(env);
        case FromRound(batch, fromPR, replyToID) => FinishRound(r, batch, fromPR, replyToID);
      }
    }

    method Discuss(caller: Caller, mode: Mode, sig: Signal, env: Env)
      requires control == Discussing(caller, mode)
      modifies this
      ensures start == old(start) && inputs == old(inputs)
      ensures Snap() == Session.Discuss(policy, old(Snap()), caller, mode, sig, env)
    {
      hide Session.Answer, Session.EndSession, Instruction, CeilingHit;
      var hit := CostHit();
      match sig
      case Abort(reason) => EndSession(Aborted(if reason == "" then "aborted" else reason));
      case HardTTL => EndSession(Aborted("hard_ttl"));
      case UserMessage(text, attachments) =>
        var i := Instruction(text, attachments);
        if i == "" { return; }
        if hit {
          ceilingReached := true;
          return;
        }
        Answer(caller, mode, i, env);
      case _ =>
    }

    method CostHit() returns (hit: bool)
      ensures hit <==> CeilingHit(policy, Snap())
    {
      return policy.costCeiling > 0.0 && cost >= policy.costCeiling;
    }

    method Answer(caller: Caller, mode: Mode, i: string, env: Env)
      modifies this
      ensures start == old(start) && inputs == old(inputs)
      ensures Snap() == Session.Answer(policy, old(Snap()), caller, mode, i, env)
    {
      hide Session.TalkTurn, Session.LeaveDiscussion;
      var r := TalkTurn(caller, mode, i, env);
      if env.proceed || r.outcome != NeedsInput { LeaveDiscussion(caller, r, env); }
    }

    method TalkTurn(caller: Caller, mode: Mode, i: string, env: Env) returns (r: PhaseResult)
      modifies this`vm, this`log, this`cost, this`prNumber
      ensures (Snap(), r) == Session.TalkTurn(old(Snap()), caller, mode, i, env)
    {
      hide Session.LaunchWarm, Session.RecordOutcome;
      log := Snoc(log, Reply(env.proceed));
      var m := if !env.proceed then mode else if prNumber > 0 then Resume else Execute;
      r := LaunchWarm(Talk(caller.FromRound?), m, [Said(i)], env.turn);
      RecordOutcome(r);
    }

    method AttachHuman(env: Env)
      modifies this
      ensures start == old(start) && inputs == old(inputs)
      ensures Snap() == Session.AttachHuman(old(Snap()), env)
    {
      hide Session.WakeVM;
      if attached { return; }
      attached := true;
      WakeVM(env);
      relay, keepAlive := true, false;
    }

    method WakeVM(env: Env)
      modifies this`vm, this`log, this`cost, this`prNumber
      ensures Snap() == Session.WakeVM(old(Snap()), env)
    {
      hide Session.LaunchWarm, Session.RecordOutcome;
      if vm != VMRunning {
        var r := LaunchWarm(Wake, Resume, [], env.turn);
        RecordOutcome(r);
      }
    }

    method EndRelay(edits: bool)
      modifies this`relay, this`attached, this`awaitingChoice, this`keepAlive, this`coalesce
      ensures Snap() == Session.EndRelay(policy, old(Snap()), edits)
    {
      relay, attached := false, false;
      if edits {
        awaitingChoice := true;
      } else {
        ArmKeepAlive();
        if pending != [] && !coalesce { coalesce := true; }
      }
    }

    method IdleOut()
      modifies this`keepAlive, this`control, this`vm, this`log
      ensures Snap() == Session.IdleOut(old(Snap()))
    {
      keepAlive := false;
      if prNumber == 0 && pending == [] {
        EndSession(EndedNoInput);
      } else if vm == VMRunning && pending == [] {
        TeardownVM();
      }
    }

    // ---- turns ----

    method TeardownVM()
      modifies this`vm, this`log
      ensures Snap() == Session.TeardownVM(old(Snap()))
    {
      vm := VMDestroyed;
      log := Snoc(log, Stopped);
    }

    method EndSession(reason: EndReason)
      modifies this`control, this`vm, this`log
      ensures Snap() == Session.EndSession(old(Snap()), reason)
    {
      TeardownVM();
      control := Done(reason);
    }

    method RecordOutcome(r: PhaseResult)
      modifies this`cost, this`prNumber
      ensures Snap() == Session.RecordOutcome(old(Snap()), r)
    {
      cost := cost + r.cost;
      if r.outcome == PROpened && r.prNumber != 0 { prNumber := r.prNumber; }
    }

    method LaunchWarm(kind: TurnKind, mode: Mode, texts: seq<Instr>, t: TurnResult) returns (r: PhaseResult)
      modifies this`vm, this`log
      ensures (Snap(), r) == Session.LaunchWarm(old(Snap()), kind, mode, texts, t)
    {
      log := Snoc(log, Attempt(kind, Cold(mode), texts));
      if !t.mintOk { return FAILED; }
      if !t.launchOk { return FAILED; }
      vm := VMRunning;
      log := Snoc(log, Launched(mode));
      r := AwaitAndSettle(kind, t);
    }

    method WarmTurn(kind: TurnKind, texts: seq<Instr>, t: TurnResult) returns (r: PhaseResult)
      modifies this`vm, this`log
      ensures (Snap(), r) == Session.WarmTurn(old(Snap()), kind, texts, t)
    {
      log := Snoc(log, Attempt(kind, Warm, texts));
      r := AwaitAndSettle(kind, t);
    }

    method AwaitAndSettle(kind: TurnKind, t: TurnResult) returns (r: PhaseResult)
      modifies this`vm, this`log
      ensures (Snap(), r) == Session.AwaitAndSettle(old(Snap()), kind, t)
    {
      r := Heard(t);
      log := Snoc(log, Turn(kind, r, t.prCreated));
      match r.outcome
      case PROpened => vm := VMRunning;
      case PushDone => vm := VMRunning;
      case _ => TeardownVM();
    }
  }
}
