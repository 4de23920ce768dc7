/** What the step-by-step facts say about whole runs: the start, the human's comings and goings, where a
    batch came from, and who is answered. */
module SessionRuns {
  import opened Protocol
  import opened Session
  import opened SessionLog
  import opened SessionEffects
  import opened SessionSteps
  import Laws = SessionLaws
  import PRs = SessionPRs
  import SessionTheorems
  import Text

  // ---- the start ----

  function FirstAttempt(p: Policy): Obs {
    Attempt(First, Cold(if p.planFirst then Plan else Initial), [])
  }

  // A session starts with a plan guest if and only if it is to plan first, an initial guest otherwise; a
  // pause opens a discussion, a plan's in plan mode; anything else enters the loop, looking for a PR if
  // none was reported.
  lemma StartDoes(p: Policy, env: Env)
    ensures var s, r := Start(p, env), Report(FirstAttempt(p), env.turn);
      && s.control == (if r.outcome == NeedsInput then Discussing(FromStart, if p.planFirst then Plan else Resume)
                       else Head)
      && s.vm == VMLeft(VMNone, FirstAttempt(p), env.turn) && s.cost == r.cost
      && s.prNumber ==
           (if Numbered(0, r) != 0 || r.outcome == NeedsInput then Numbered(0, r) else env.foundPR)
      && s.inbox == Inbox([], false, 0, {}, Empty) && s.reviewRound == 0 && !s.ceilingReached && !s.coalesce
      && !s.attached && !s.awaitingChoice && !s.relay
      && (s.keepAlive <==> s.control == Head && s.vm == VMRunning && p.keepAlive > 0)
      && Work(s.log) == WorkOf(FirstAttempt(p), env.turn) && Replies(s.log) == []
  {
    LaunchIs(FRESH, First, if p.planFirst then Plan else Initial, [], env.turn);
    var u := Turned(FRESH, FirstAttempt(p), env.turn);
    TurnLogIs(Nil, FirstAttempt(p), env.turn);
    SilentSnoc(u.log, DiscussOpen(if p.planFirst then Plan else Resume));
    SilentSnoc(u.log, CheckedPR(env.foundPR));
    hide LaunchWarm, RecordOutcome, TurnLog, Report, VMLeft, Numbered, WorkOf, Work, Replies, AdmittedDeliveries;
    assert Work(Nil) == [] && Replies(Nil) == [] by { EmptyHistory(); }
  }

  lemma EmptyHistory()
    ensures Work(Nil) == [] && Replies(Nil) == []
  {}

  lemma FirstGuest(p: Policy, env: Env)
    requires env.turn.mintOk && env.turn.launchOk
    ensures |Work(Start(p, env).log)| == 3
    ensures Work(Start(p, env).log)[1] == Launched(if p.planFirst then Plan else Initial)
  {
    StartDoes(p, env);
    hide Start, Work;
  }

  // ---- what a human's words become ----

  // The operator's words without the spaces around them, and an attachment two lines below: nothing is
  // said if and only if both are blank.
  lemma InstructionIs(text: string, attachments: string)
    ensures Instruction(text, attachments) == "" <==> Text.Blank(text) && Text.Blank(attachments)
    ensures attachments == "" ==> Instruction(text, attachments) == Text.Trim(text)
    ensures Text.Blank(text) ==> Instruction(text, attachments) == Text.Trim(attachments)
    ensures !Text.Blank(text) && !Text.Blank(attachments) ==>
      Instruction(text, attachments) == Text.Trim(text) + "\n\n" + Text.TrimRight(attachments)
  {
    var i := Text.Trim(text);
    Text.TrimOfBlank(text);
    if attachments != "" {
      if i == "" {
        assert Text.TrimLeft("\n\n" + attachments) == Text.TrimLeft(attachments) by {
          assert ("\n\n" + attachments)[1..] == "\n" + attachments && ("\n" + attachments)[1..] == attachments;
        }
        assert "" + "\n\n" + attachments == "\n\n" + attachments;
        Text.TrimOfBlank(attachments);
      } else {
        TrimJoins(text, attachments);
      }
    }
    hide Text.Trim, Text.TrimRight, Text.TrimLeft, Text.Blank;
  }

  lemma TrimJoins(text: string, more: string)
    requires Text.Trim(text) != ""
    ensures var whole := Text.Trim(Text.Trim(text) + "\n\n" + more);
      whole != "" && (!Text.Blank(more) ==> whole == Text.Trim(text) + "\n\n" + Text.TrimRight(more))
  {
    var a, b := Text.TrimIs(text);
    var i := Text.Trim(text);
    assert i[0] == text[a] && i[|i| - 1] == text[b - 1];
    hide Text.IsSpace, Text.TrimLeft, Text.TrimRight, Text.Trim, Text.Blank;
    assert i + "\n\n" + more == i + ("\n\n" + more);
    assert i + "\n\n" + Text.TrimRight(more) == i + ("\n\n" + Text.TrimRight(more));
    TrimmedJoins(i, "\n\n", more);
  }

  lemma NothingToTrim(s: string)
    requires s != "" && !Text.IsSpace(s[0])
    ensures Text.TrimLeft(s) == s
  {
    hide Text.IsSpace;
  }

  lemma TrimmedJoins(i: string, gap: string, more: string)
    requires i != "" && !Text.IsSpace(i[0]) && !Text.IsSpace(i[|i| - 1])
    ensures var whole := Text.Trim(i + (gap + more));
      whole != "" && (!Text.Blank(more) ==> whole == i + (gap + Text.TrimRight(more)))
  {
    var s := i + (gap + more);
    assert s[0] == i[0];
    NothingToTrim(s);
    assert Text.Trim(s) == Text.TrimRight(s);
    hide Text.IsSpace, Text.TrimLeft, Text.TrimRight, Text.Blank, Text.Trim;
    Text.TrimRightAfter(i, gap + more);
    if !Text.Blank(more) { TrimRightBehind(gap, more); }
  }

  lemma {:induction false} TrimRightBehind(front: string, s: string)
    requires !Text.Blank(s)
    ensures Text.TrimRight(front + s) == front + Text.TrimRight(s)
  {
    assert (front + s)[|front + s| - 1] == s[|s| - 1];
    var k :| 0 <= k < |s| && !Text.IsSpace(s[k]);
    hide Text.IsSpace;
    if Text.IsSpace(s[|s| - 1]) {
      var t := s[..|s| - 1];
      assert (front + s)[..|front + s| - 1] == front + t;
      assert t[k] == s[k];
      TrimRightBehind(front, t);
    }
  }

  // ---- the human's comings and goings ----

  // The i-th input is the end of a tunnel that leaves edits.
  ghost predicate LeavesEdits(p: Policy, start: Env, inputs: seq<Input>, i: nat)
    requires i < |inputs|
  {
    inputs[i].sig.RelayEnded? && inputs[i].sig.edits && Detaches(Run(p, start, inputs[..i]), inputs[i].sig)
  }

  // The i-th input attaches a human.
  ghost predicate AttachesAt(p: Policy, start: Env, inputs: seq<Input>, i: nat)
    requires i < |inputs|
  {
    Attaches(Run(p, start, inputs[..i]), inputs[i].sig, inputs[i].env)
  }

  // A tunnel left edits, and no message came since.
  ghost predicate Undecided(p: Policy, start: Env, inputs: seq<Input>) {
    exists i: nat :: i < |inputs| && LeavesEdits(p, start, inputs, i)
      && forall j :: i < j < |inputs| ==> !inputs[j].sig.UserMessage?
  }

  // A human attached, and no tunnel ended since.
  ghost predicate TunnelOpen(p: Policy, start: Env, inputs: seq<Input>) {
    exists i: nat :: i < |inputs| && AttachesAt(p, start, inputs, i)
      && forall j :: i < j < |inputs| ==> !inputs[j].sig.RelayEnded?
  }

  lemma UndecidedGrows(p: Policy, start: Env, inputs: seq<Input>, e: Input)
    ensures Undecided(p, start, inputs + [e]) <==>
      LeavesEdits(p, start, inputs + [e], |inputs|) || (Undecided(p, start, inputs) && !e.sig.UserMessage?)
  {
    hide Run;
    var all, n := inputs + [e], |inputs|;
    assert forall j :: 0 <= j < n ==> all[j] == inputs[j];
    forall i: nat | i < n ensures LeavesEdits(p, start, all, i) <==> LeavesEdits(p, start, inputs, i) {
      assert all[..i] == inputs[..i];
    }
    assert all[n] == e;
    hide LeavesEdits;
    if Undecided(p, start, inputs) && !e.sig.UserMessage? {
      var i: nat :| i < n && LeavesEdits(p, start, inputs, i) && forall j :: i < j < n ==> !inputs[j].sig.UserMessage?;
      assert LeavesEdits(p, start, all, i);
    }
    if LeavesEdits(p, start, all, n) { assert Undecided(p, start, all); }
    if Undecided(p, start, all) && !LeavesEdits(p, start, all, n) {
      var i: nat :|
        i < |all| && LeavesEdits(p, start, all, i) && forall j :: i < j < |all| ==> !all[j].sig.UserMessage?;
      assert i < n && LeavesEdits(p, start, inputs, i);
    }
  }

  lemma TunnelGrows(p: Policy, start: Env, inputs: seq<Input>, e: Input)
    ensures TunnelOpen(p, start, inputs + [e]) <==>
      AttachesAt(p, start, inputs + [e], |inputs|) || (TunnelOpen(p, start, inputs) && !e.sig.RelayEnded?)
  {
    hide Run;
    var all, n := inputs + [e], |inputs|;
    assert forall j :: 0 <= j < n ==> all[j] == inputs[j];
    forall i: nat | i < n ensures AttachesAt(p, start, all, i) <==> AttachesAt(p, start, inputs, i) {
      assert all[..i] == inputs[..i];
    }
    assert all[n] == e;
    hide AttachesAt;
    if TunnelOpen(p, start, inputs) && !e.sig.RelayEnded? {
      var i: nat :| i < n && AttachesAt(p, start, inputs, i) && forall j :: i < j < n ==> !inputs[j].sig.RelayEnded?;
      assert AttachesAt(p, start, all, i);
    }
    if AttachesAt(p, start, all, n) { assert TunnelOpen(p, start, all); }
    if TunnelOpen(p, start, all) && !AttachesAt(p, start, all, n) {
      var i: nat :| i < |all| && AttachesAt(p, start, all, i) && forall j :: i < j < |all| ==> !all[j].sig.RelayEnded?;
      assert i < n && AttachesAt(p, start, inputs, i);
    }
  }

  // What the invariants say of a human in the loop.
  lemma HumanIsAtTheHead(p: Policy, start: Env, inputs: seq<Input>)
    ensures var s := Run(p, start, inputs);
      !s.control.Done? && (s.attached || s.awaitingChoice || s.relay) ==> s.control == Head && (s.attached <==> s.relay)
  {
    SessionTheorems.RunKeeps(p, start, inputs);
    hide Run, Laws.FeedbackInv;
  }

  // While a session lives, its agent waits for a decision exactly when some tunnel ended with edits and
  // no message has come since; and a human is in the VM exactly when one attached and no tunnel has
  // ended since.
  lemma {:induction false} HumanExactly(p: Policy, start: Env, inputs: seq<Input>)
    requires !Run(p, start, inputs).control.Done?
    ensures Run(p, start, inputs).awaitingChoice <==> Undecided(p, start, inputs)
    ensures Run(p, start, inputs).attached <==> TunnelOpen(p, start, inputs)
  {
    if inputs == [] {
      NobodyYet(p, start);
    } else {
      var before, e := inputs[..|inputs| - 1], inputs[|inputs| - 1];
      assert before + [e] == inputs;
      var s := Run(p, start, before);
      assert Run(p, start, inputs) == Step(p, s, e.sig, e.env);
      hide Run, Step, Undecided, TunnelOpen;
      if s.control.Done? { DoneStays(p, s, e.sig, e.env); }
      HumanExactly(p, start, before);
      HumanGrows(p, start, before, e);
    }
  }

  lemma NobodyYet(p: Policy, start: Env)
    ensures var s := Run(p, start, []); !s.awaitingChoice && !s.attached
    ensures !Undecided(p, start, []) && !TunnelOpen(p, start, [])
  {
    StartDoes(p, start);
    hide Start, Work, Replies, WorkOf, Report, VMLeft;
  }

  lemma HumanGrows(p: Policy, start: Env, before: seq<Input>, e: Input)
    requires !Run(p, start, before).control.Done?
    requires Run(p, start, before).awaitingChoice <==> Undecided(p, start, before)
    requires Run(p, start, before).attached <==> TunnelOpen(p, start, before)
    ensures var t := Step(p, Run(p, start, before), e.sig, e.env);
      && (t.awaitingChoice <==> Undecided(p, start, before + [e]))
      && (t.attached <==> TunnelOpen(p, start, before + [e]))
  {
    HumanIsAtTheHead(p, start, before);
    UndecidedGrows(p, start, before, e);
    TunnelGrows(p, start, before, e);
    HumanStep(p, Run(p, start, before), e.sig, e.env);
    assert (before + [e])[..|before|] == before;
    hide Run, Step, Undecided, TunnelOpen, Attaches;
  }

  lemma DoneStays(p: Policy, s: State, sig: Signal, env: Env)
    requires s.control.Done?
    ensures Step(p, s, sig, env) == s
  {}

  lemma HumanStep(p: Policy, s: State, sig: Signal, env: Env)
    ensures HumanAfter(s, sig, env, Step(p, s, sig, env))
  {
    StepDoes(p, s, sig, env);
    hide Step, HumanAfter, FieldsAfter, InboxAfter, WindowAfter, ClockAfter, LogAfter;
  }

  // ---- where a batch came from, and who is answered ----

  predicate FromThere(i: Instr) { i.GitHub? || i.CIFailure? }

  // Something in it came from GitHub.
  predicate HasPR(batch: seq<Instr>) { exists k :: 0 <= k < |batch| && FromThere(batch[k]) }

  lemma HasPRConcat(a: seq<Instr>, b: seq<Instr>)
    ensures HasPR(a + b) <==> HasPR(a) || HasPR(b)
  {
    hide FromThere;
    assert forall k :: 0 <= k < |a| ==> (a + b)[k] == a[k];
    assert forall k :: 0 <= k < |b| ==> (a + b)[|a| + k] == b[k];
  }

  lemma {:induction false} PickedFromThere(seen: set<int>, thread: seq<ThreadComment>)
    ensures forall k :: 0 <= k < |Picked(seen, thread)| ==> Picked(seen, thread)[k].0.GitHub?
  {
    if thread != [] {
      PickedFromThere(seen, thread[..|thread| - 1]);
      hide New, Asks;
    }
  }

  // What a step accepts comes from GitHub all of it, or from the operator.
  lemma OfferedFrom(p: Policy, s: State, sig: Signal, env: Env)
    ensures HasPR(Instrs(Offered(p, s, sig, env))) <==> !sig.UserMessage? && Offered(p, s, sig, env) != []
  {
    var taken := Offered(p, s, sig, env);
    if env.thread.Some? { PickedFromThere(s.inbox.seenComments, env.thread.value); }
    hide Picked, FreshDelivery, Instruction;
    assert forall k :: 0 <= k < |taken| ==> (FromThere(taken[k].0) <==> !sig.UserMessage?);
    assert forall k :: 0 <= k < |taken| ==> Instrs(taken)[k] == taken[k].0;
    if taken != [] && !sig.UserMessage? { assert FromThere(Instrs(taken)[0]); }
    hide Offered;
  }

  ghost predicate Origin(s: State) {
    && (s.inbox.fromPR <==> HasPR(s.inbox.pending))
    && (s.control.Discussing? && s.control.caller.FromRound? ==>
          (s.control.caller.fromPR <==> HasPR(s.control.caller.batch)))
  }

  lemma BatchOrigin(s: State, env: Env)
    requires Origin(s)
    ensures BatchFromPR(s, env) <==> HasPR(Batch(s, env))
  {
    var fetched := Fetched(s, env);
    HasPRConcat(s.inbox.pending, Instrs(fetched));
    if env.thread.Some? { PickedFromThere(s.inbox.seenComments, env.thread.value); }
    hide Picked;
    assert forall k :: 0 <= k < |fetched| ==> Instrs(fetched)[k] == fetched[k].0;
    if fetched != [] { assert FromThere(Instrs(fetched)[0]); }
  }

  lemma QueueOrigin(p: Policy, s: State, sig: Signal, env: Env)
    requires Origin(s)
    ensures FromPRAfter(p, s, sig, env) <==> HasPR(PendingAfter(p, s, sig, env))
  {
    OfferedFrom(p, s, sig, env);
    BatchOrigin(s, env);
    HasPRConcat(s.inbox.pending, Instrs(Offered(p, s, sig, env)));
    if s.control.Discussing? && s.control.caller.FromRound? { HasPRConcat(s.control.caller.batch, s.inbox.pending); }
    assert !HasPR([]);
    hide Offered, Instrs, HasPR, Batch, BatchFromPR, Ends, StartsRound, Answers;
  }

  lemma CallerOrigin(p: Policy, s: State, sig: Signal, env: Env)
    requires Origin(s)
    ensures var c := ControlAfter(p, s, sig, env);
      c.Discussing? && c.caller.FromRound? ==> (c.caller.fromPR <==> HasPR(c.caller.batch))
  {
    BatchOrigin(s, env);
    hide HasPR, Batch, BatchFromPR, BatchTarget, Ends, StartsRound, Answers, FreshDelivery;
  }

  lemma OriginStep(p: Policy, s: State, sig: Signal, env: Env)
    requires Origin(s)
    ensures Origin(Step(p, s, sig, env))
  {
    StepDoes(p, s, sig, env);
    QueueOrigin(p, s, sig, env);
    CallerOrigin(p, s, sig, env);
    hide Step, HasPR, HumanAfter, WindowAfter, ClockAfter, LogAfter, ControlAfter, FromPRAfter, PendingAfter;
    hide VMAfter, CostAfter, NumberAfter, HitsCeiling, SeenAfter, TargetAfter, Offered, StartsRound, Entries;
  }

  // In every state of every run: the queue is marked as coming from the PR exactly when something in it
  // came from GitHub; and so is the batch of a round in discussion.
  lemma {:induction false} OriginExactly(p: Policy, start: Env, inputs: seq<Input>)
    ensures Origin(Run(p, start, inputs))
  {
    if inputs == [] {
      StartDoes(p, start);
      hide Start, Work, Replies, WorkOf, Report, VMLeft;
    } else {
      OriginExactly(p, start, inputs[..|inputs| - 1]);
      hide Step, Origin;
      var i := inputs[|inputs| - 1];
      OriginStep(p, Run(p, start, inputs[..|inputs| - 1]), i.sig, i.env);
    }
  }

  // In every run: a step posts a reply on the PR if and only if a round lands in it with something from
  // GitHub in its batch, and then exactly one.
  lemma RepliesExactly(p: Policy, start: Env, inputs: seq<Input>, sig: Signal, env: Env)
    ensures var s := Run(p, start, inputs);
      var t := Step(p, s, sig, env);
      Replies(t.log) == Replies(s.log) +
        if StartsRound(p, s, sig, env) && Lands(p, s, sig, env) && HasPR(Batch(s, env)) then [BatchTarget(s, env)]
        else if Answers(p, s, sig) && s.control.caller.FromRound? && Lands(p, s, sig, env)
                && HasPR(s.control.caller.batch) then [s.control.caller.replyToID]
        else []
  {
    var s := Run(p, start, inputs);
    OriginExactly(p, start, inputs);
    StepDoes(p, s, sig, env);
    BatchOrigin(s, env);
    hide Run, Step, StartsRound, Lands, Answers, BatchTarget, BatchFromPR, Batch, HasPR, Replies;
    hide FieldsAfter, HumanAfter, InboxAfter, WindowAfter, ClockAfter, Due, Work, WorkOf, AdmittedDeliveries;
  }
}
