/** Field by field, what one step of the session does: for every field the exact circumstances in which it
    changes, and to what, read off the state before, the signal and the activity results. */
module SessionEffects {
  import opened Protocol
  import opened Session
  import opened SessionLog
  import Dedupe
  import Text

  // ---- the thread fetched when a window closes ----

  // The first entry with its id, which was not seen before.
  predicate New(seen: set<int>, thread: seq<ThreadComment>, i: nat)
    requires i < |thread|
  {
    && thread[i].id != 0 && thread[i].id !in seen
    && forall j :: 0 <= j < i ==> thread[j].id != thread[i].id
  }

  // Everything asks for a change but a review that does not request any.
  predicate Asks(c: ThreadComment) { c.kind == Review ==> c.changesRequested }

  // The new entries that ask for a change, with their ids, in order.
  function Picked(seen: set<int>, thread: seq<ThreadComment>): seq<(Instr, int)> {
    if thread == [] then []
    else
      var n := |thread| - 1;
      Picked(seen, thread[..n]) +
      if New(seen, thread, n) && Asks(thread[n]) then [(GitHub(thread[n].text), thread[n].id)] else []
  }

  // The last inline comment among them, or what was the target before.
  function PickedTarget(seen: set<int>, thread: seq<ThreadComment>, before: int): int {
    if thread == [] then before
    else
      var n := |thread| - 1;
      if New(seen, thread, n) && thread[n].kind == InlineComment then thread[n].id
      else PickedTarget(seen, thread[..n], before)
  }

  function Ids(thread: seq<ThreadComment>): set<int> {
    set i | 0 <= i < |thread| && thread[i].id != 0 :: thread[i].id
  }

  function Instrs(taken: seq<(Instr, int)>): seq<Instr> {
    seq(|taken|, i requires 0 <= i < |taken| => taken[i].0)
  }

  // All feedback ever accepted, with the id each came from.
  function Entries(f: Feedback): seq<(Instr, int)> {
    match f
    case Empty => []
    case Then(prev, i, id) => Entries(prev) + [(i, id)]
  }

  lemma {:induction false} FoldSnoc(b: Inbox, thread: seq<ThreadComment>, c: ThreadComment)
    ensures FoldThread(b, thread + [c]) == FoldEntry(FoldThread(b, thread), c)
    decreases thread
  {
    hide FoldEntry;
    if thread == [] {
      assert [] + [c] == [c] && [c][1..] == [];
    } else {
      FoldSnoc(FoldEntry(b, thread[0]), thread[1..], c);
      assert (thread + [c])[1..] == thread[1..] + [c];
    }
  }

  // What one more entry adds.
  ghost predicate Folded(b: Inbox, thread: seq<ThreadComment>, c: Inbox) {
    var picked := Picked(b.seenComments, thread);
    && c.pending == b.pending + Instrs(picked)
    && Entries(c.accepted) == Entries(b.accepted) + picked
    && c.seenComments == b.seenComments + Ids(thread)
    && (c.fromPR <==> b.fromPR || picked != [])
    && c.replyToID == PickedTarget(b.seenComments, thread, b.replyToID)
  }

  lemma InstrsSnoc(taken: seq<(Instr, int)>, e: (Instr, int))
    ensures Instrs(taken + [e]) == Instrs(taken) + [e.0]
  {}

  lemma IdsSnoc(thread: seq<ThreadComment>, c: ThreadComment)
    ensures Ids(thread + [c]) == Ids(thread) + if c.id == 0 then {} else {c.id}
  {
    var all := thread + [c];
    assert forall i :: 0 <= i < |thread| ==> all[i] == thread[i];
    assert all[|thread|] == c;
  }

  lemma PickedSnoc(seen: set<int>, thread: seq<ThreadComment>, c: ThreadComment, before: int)
    ensures var isNew := c.id != 0 && c.id !in seen && c.id !in Ids(thread);
      && Picked(seen, thread + [c]) ==
           Picked(seen, thread) + (if isNew && Asks(c) then [(GitHub(c.text), c.id)] else [])
      && PickedTarget(seen, thread + [c], before) ==
           if isNew && c.kind == InlineComment then c.id else PickedTarget(seen, thread, before)
  {
    var all, n := thread + [c], |thread|;
    assert all[..n] == thread && all[n] == c;
    assert forall j :: 0 <= j < n ==> all[j] == thread[j];
    assert New(seen, all, n) <==> c.id != 0 && c.id !in seen && c.id !in Ids(thread);
  }

  lemma FoldEntryIs(b: Inbox, thread: seq<ThreadComment>, m: Inbox, c: ThreadComment)
    requires Folded(b, thread, m)
    ensures Folded(b, thread + [c], FoldEntry(m, c))
  {
    PickedSnoc(b.seenComments, thread, c, b.replyToID);
    IdsSnoc(thread, c);
    InstrsSnoc(Picked(b.seenComments, thread), (GitHub(c.text), c.id));
    hide Picked, PickedTarget, Ids, Instrs;
    var picked, e := Picked(b.seenComments, thread), (GitHub(c.text), c.id);
    assert b.pending + (Instrs(picked) + [e.0]) == b.pending + Instrs(picked) + [e.0];
    assert Entries(b.accepted) + (picked + [e]) == Entries(b.accepted) + picked + [e];
    assert b.pending + Instrs(picked) + [] == b.pending + Instrs(picked) && picked + [] == picked;
    assert m.seenComments == b.seenComments + Ids(thread);
    assert m.seenComments + {c.id} == b.seenComments + (Ids(thread) + {c.id});
  }

  // Folding a fetched thread in accepts exactly its new entries that ask for a change, in order.
  lemma {:induction false} FoldIs(b: Inbox, thread: seq<ThreadComment>)
    ensures Folded(b, thread, FoldThread(b, thread))
  {
    if thread == [] {
      assert Ids([]) == {};
    } else {
      var before, c := thread[..|thread| - 1], thread[|thread| - 1];
      FoldIs(b, before);
      assert before + [c] == thread;
      FoldSnoc(b, before, c);
      hide Folded, FoldThread;
      FoldEntryIs(b, before, FoldThread(b, before), c);
    }
  }

  // ---- one agent turn ----

  // Its guest gets to run: the warm one, or one that is booted.
  predicate Plays(a: Obs, t: TurnResult)
    requires a.Attempt?
  {
    a.how.Warm? || (t.mintOk && t.launchOk)
  }

  // What is heard of it; anything that goes wrong reads as a failed turn that cost nothing.
  function Report(a: Obs, t: TurnResult): PhaseResult
    requires a.Attempt?
  {
    if Plays(a, t) && t.run.Some? then t.run.value else PhaseResult(AgentFailed, 0, 0.0)
  }

  function TurnLog(l: Log, a: Obs, t: TurnResult): Log
    requires a.Attempt?
  {
    var tried := Snoc(l, a);
    if !Plays(a, t) then tried
    else
      var r := Report(a, t);
      var booted := if a.how.Cold? then Snoc(tried, Launched(a.how.mode)) else tried;
      var played := Snoc(booted, Turn(a.kind, r, t.prCreated));
      if r.outcome == PROpened || r.outcome == PushDone then played else Snoc(played, Stopped)
  }

  // A push or an opened PR leaves the VM warm; any other report stops it.
  function VMLeft(before: VM, a: Obs, t: TurnResult): VM
    requires a.Attempt?
  {
    var o := Report(a, t).outcome;
    if !Plays(a, t) then before else if o == PROpened || o == PushDone then VMRunning else VMDestroyed
  }

  function Numbered(before: int, r: PhaseResult): int {
    if r.outcome == PROpened && r.prNumber != 0 then r.prNumber else before
  }

  // The state with the turn run and its result recorded.
  function Turned(s: State, a: Obs, t: TurnResult): State
    requires a.Attempt?
  {
    var r := Report(a, t);
    s.(vm := VMLeft(s.vm, a, t), cost := s.cost + r.cost, prNumber := Numbered(s.prNumber, r),
       log := TurnLog(s.log, a, t))
  }

  lemma SettleIs(s: State, a: Obs, t: TurnResult)
    requires a.Attempt? && Plays(a, t)
    ensures var (u, r) := AwaitAndSettle(s, a.kind, t);
      var played := Snoc(s.log, Turn(a.kind, Report(a, t), t.prCreated));
      var warm := Report(a, t).outcome == PROpened || Report(a, t).outcome == PushDone;
      && r == Report(a, t) && u.cost == s.cost && u.prNumber == s.prNumber
      && u == s.(vm := if warm then VMRunning else VMDestroyed, log := if warm then played else Snoc(played, Stopped))
  {}

  lemma LaunchIs(s: State, kind: TurnKind, mode: Mode, texts: seq<Instr>, t: TurnResult)
    ensures var (u, r) := LaunchWarm(s, kind, mode, texts, t);
      var a := Attempt(kind, Cold(mode), texts);
      RecordOutcome(u, r) == Turned(s, a, t) && r == Report(a, t)
  {
    var a := Attempt(kind, Cold(mode), texts);
    hide AwaitAndSettle, Report;
    if t.mintOk && t.launchOk {
      SettleIs(s.(vm := VMRunning, log := Snoc(Snoc(s.log, a), Launched(mode))), a, t);
    } else {
      assert Report(a, t) == FAILED by { NothingHeard(a, t); }
    }
  }

  lemma NothingHeard(a: Obs, t: TurnResult)
    requires a.Attempt? && !Plays(a, t)
    ensures Report(a, t) == PhaseResult(AgentFailed, 0, 0.0)
  {}

  lemma WarmIs(s: State, kind: TurnKind, texts: seq<Instr>, t: TurnResult)
    ensures var (u, r) := WarmTurn(s, kind, texts, t);
      var a := Attempt(kind, Warm, texts);
      RecordOutcome(u, r) == Turned(s, a, t) && r == Report(a, t)
  {
    var a := Attempt(kind, Warm, texts);
    SettleIs(Note(s, a), a, t);
    hide AwaitAndSettle, Report;
  }

  // ---- which turn a step runs ----

  predicate Below(p: Policy, s: State) { p.costCeiling > 0.0 ==> s.cost < p.costCeiling }

  // The window closes over s.
  predicate Closes(s: State, sig: Signal) { s.control == Head && sig.CoalesceTimer? && s.coalesce }

  // What the window is then closed over: the queue, completed from GitHub if there is a PR.
  function Fetched(s: State, env: Env): seq<(Instr, int)> {
    if s.prNumber > 0 && env.thread.Some? then Picked(s.inbox.seenComments, env.thread.value) else []
  }

  function Batch(s: State, env: Env): seq<Instr> { s.inbox.pending + Instrs(Fetched(s, env)) }

  predicate BatchFromPR(s: State, env: Env) { s.inbox.fromPR || Fetched(s, env) != [] }

  function BatchTarget(s: State, env: Env): int {
    if s.prNumber > 0 && env.thread.Some?
    then PickedTarget(s.inbox.seenComments, env.thread.value, s.inbox.replyToID) else s.inbox.replyToID
  }

  predicate StartsRound(p: Policy, s: State, sig: Signal, env: Env) {
    Closes(s, sig) && Batch(s, env) != [] && !s.attached && !s.awaitingChoice && Below(p, s)
  }

  // A human attaches, by signal or by a message that is classified as one.
  predicate Attaches(s: State, sig: Signal, env: Env) {
    && s.control == Head && !s.attached
    && (sig.Attach? || (sig.UserMessage? && sig.text != "" && env.intent == AsAttach && !s.awaitingChoice))
  }

  // A reply to a pause.
  predicate Answers(p: Policy, s: State, sig: Signal) {
    && s.control.Discussing? && sig.UserMessage? && Instruction(sig.text, sig.attachments) != "" && Below(p, s)
  }

  // A round delivers the batch to the warm guest or to a resume guest; an attach wakes a parked session;
  // a reply goes to a guest in the discussion's mode, or builds: in execute mode if no PR is known.
  function Due(p: Policy, s: State, sig: Signal, env: Env): Option<Obs> {
    if StartsRound(p, s, sig, env) then
      Some(Attempt(Round, if s.vm == VMRunning then Warm else Cold(Resume), Batch(s, env)))
    else if Attaches(s, sig, env) && s.vm != VMRunning then Some(Attempt(Wake, Cold(Resume), []))
    else if Answers(p, s, sig) then
      var m := if !env.proceed then s.control.mode else if s.prNumber > 0 then Resume else Execute;
      Some(Attempt(Talk(s.control.caller.FromRound?), Cold(m), [Said(Instruction(sig.text, sig.attachments))]))
    else None
  }

  predicate DueIsAttempt(d: Option<Obs>) { d.Some? ==> d.value.Attempt? }

  // Attempts, boots and turns, in order.
  function Work(log: Log): seq<Obs> {
    match log
    case Nil => []
    case Snoc(prev, o) => Work(prev) + if o.Attempt? || o.Launched? || o.Turn? then [o] else []
  }

  function WorkOf(a: Obs, t: TurnResult): seq<Obs>
    requires a.Attempt?
  {
    [a] + (if Plays(a, t) && a.how.Cold? then [Launched(a.how.mode)] else [])
    + if Plays(a, t) then [Turn(a.kind, Report(a, t), t.prCreated)] else []
  }

  // ---- the fields ----

  // The outcome of the turn a step runs.
  predicate Ends(p: Policy, s: State, sig: Signal, env: Env, o: Outcome) {
    var d := Due(p, s, sig, env);
    d.Some? && d.value.Attempt? && Report(d.value, env.turn).outcome == o
  }

  predicate FreshDelivery(s: State, sig: Signal) {
    && s.control == Head
    && (sig.ReviewComment? || sig.ReviewSubmitted? || sig.CIStatus? || sig.PRClosed?)
    && sig.delivery != "" && sig.delivery !in s.seen.keys
  }

  function ControlAfter(p: Policy, s: State, sig: Signal, env: Env): Control {
    match s.control
    case Done(_) => s.control
    case Head =>
      if sig.PRClosed? && FreshDelivery(s, sig) then Done(if sig.merged then Merged else Closed)
      else if sig.Abort? then Done(Aborted(sig.reason))
      else if sig.HardTTL? then Done(Aborted("hard_ttl"))
      else if sig.KeepAliveTimer? && s.keepAlive && s.prNumber == 0 && s.inbox.pending == [] then Done(EndedNoInput)
      else if StartsRound(p, s, sig, env) && Ends(p, s, sig, env, NeedsInput) then
        Discussing(FromRound(Batch(s, env), BatchFromPR(s, env), BatchTarget(s, env)), Resume)
      else Head
    case Discussing(caller, mode) =>
      if sig.Abort? then Done(Aborted(if sig.reason == "" then "aborted" else sig.reason))
      else if sig.HardTTL? then Done(Aborted("hard_ttl"))
      else if !Answers(p, s, sig) then s.control
      else if Ends(p, s, sig, env, NeedsInput) then (if env.proceed then Discussing(caller, Resume) else s.control)
      else Head
  }

  // The idle timer stops a warm VM with nothing queued.
  predicate Parks(s: State, sig: Signal) {
    s.control == Head && sig.KeepAliveTimer? && s.keepAlive && s.vm == VMRunning && s.inbox.pending == []
  }

  function VMAfter(p: Policy, s: State, sig: Signal, env: Env): VM {
    var d := Due(p, s, sig, env);
    if ControlAfter(p, s, sig, env).Done? then (if s.control.Done? then s.vm else VMDestroyed)
    else if d.Some? && d.value.Attempt? then VMLeft(s.vm, d.value, env.turn)
    else if Parks(s, sig) then VMDestroyed else s.vm
  }

  function CostAfter(p: Policy, s: State, sig: Signal, env: Env): real {
    var d := Due(p, s, sig, env);
    s.cost + if d.Some? && d.value.Attempt? then Report(d.value, env.turn).cost else 0.0
  }

  // Leaving the initial phase without a number, the session looks for its PR.
  function NumberAfter(p: Policy, s: State, sig: Signal, env: Env): int {
    var d := Due(p, s, sig, env);
    var n := if d.Some? && d.value.Attempt? then Numbered(s.prNumber, Report(d.value, env.turn)) else s.prNumber;
    if s.control.Discussing? && s.control.caller.FromStart? && ControlAfter(p, s, sig, env) == Head && n == 0
    then env.foundPR else n
  }

  // A tunnel ends.
  predicate Detaches(s: State, sig: Signal) { s.control == Head && sig.RelayEnded? && s.relay }

  ghost predicate HumanAfter(s: State, sig: Signal, env: Env, t: State) {
    && (t.attached <==> (s.attached || Attaches(s, sig, env)) && !Detaches(s, sig))
    && (t.relay <==> (s.relay || Attaches(s, sig, env)) && !Detaches(s, sig))
    && (t.awaitingChoice <==>
          (Detaches(s, sig) && sig.edits) || (s.awaitingChoice && !(s.control == Head && sig.UserMessage?)))
  }

  // The feedback a step accepts, with the ids it came from.
  function Offered(p: Policy, s: State, sig: Signal, env: Env): seq<(Instr, int)> {
    if s.control != Head then []
    else
      match sig
      case ReviewComment(_, id, _, text) =>
        if FreshDelivery(s, sig) && (id == 0 || id !in s.inbox.seenComments) then [(GitHub(text), id)] else []
      case ReviewSubmitted(_, id, asks, text) =>
        if FreshDelivery(s, sig) && (id == 0 || id !in s.inbox.seenComments) && asks then [(GitHub(text), id)] else []
      case CIStatus(_, failure, url) =>
        if FreshDelivery(s, sig) && failure && p.autoFixCI then [(CIFailure(url), 0)] else []
      case UserMessage(text, attachments) =>
        var i := Instruction(text, attachments);
        if s.awaitingChoice then [(EditDecision(i), 0)]
        else if !s.attached && i != "" && (text == "" || env.intent == AsMessage) then [(Said(i), 0)] else []
      case CoalesceTimer => if s.coalesce then Fetched(s, env) else []
      case _ => []
  }

  // The round in discussion fails: its batch comes back.
  predicate FailsInDiscussion(p: Policy, s: State, sig: Signal, env: Env) {
    Answers(p, s, sig) && s.control.caller.FromRound? && Ends(p, s, sig, env, AgentFailed)
  }

  // The queue: it grows by what is accepted, a round takes it, and a failed round puts it back in front.
  function PendingAfter(p: Policy, s: State, sig: Signal, env: Env): seq<Instr> {
    if StartsRound(p, s, sig, env) then (if Ends(p, s, sig, env, AgentFailed) then Batch(s, env) else [])
    else if FailsInDiscussion(p, s, sig, env) then s.control.caller.batch + s.inbox.pending
    else s.inbox.pending + Instrs(Offered(p, s, sig, env))
  }

  // Whether something in the queue came from GitHub.
  predicate FromPRAfter(p: Policy, s: State, sig: Signal, env: Env) {
    if StartsRound(p, s, sig, env) then BatchFromPR(s, env) && Ends(p, s, sig, env, AgentFailed)
    else if FailsInDiscussion(p, s, sig, env) then s.inbox.fromPR || s.control.caller.fromPR
    else s.inbox.fromPR || (!sig.UserMessage? && Offered(p, s, sig, env) != [])
  }

  // The inline comment to reply under: the last one accepted; a round takes it, and never gives it back.
  function TargetAfter(p: Policy, s: State, sig: Signal, env: Env): int {
    if StartsRound(p, s, sig, env) then 0
    else if Closes(s, sig) then BatchTarget(s, env)
    else if sig.ReviewComment? && sig.inline && sig.commentID != 0 && Offered(p, s, sig, env) != [] then sig.commentID
    else s.inbox.replyToID
  }

  function SeenAfter(p: Policy, s: State, sig: Signal, env: Env): set<int> {
    if Closes(s, sig) && s.prNumber > 0 && env.thread.Some? then s.inbox.seenComments + Ids(env.thread.value)
    else
      s.inbox.seenComments
      + (if sig.ReviewComment? && FreshDelivery(s, sig) && sig.commentID != 0 then {sig.commentID} else {})
      + if sig.ReviewSubmitted? && FreshDelivery(s, sig) && sig.reviewID != 0 then {sig.reviewID} else {}
  }

  ghost predicate InboxAfter(p: Policy, s: State, sig: Signal, env: Env, t: State) {
    && Entries(t.inbox.accepted) == Entries(s.inbox.accepted) + Offered(p, s, sig, env)
    && t.inbox.pending == PendingAfter(p, s, sig, env)
    && (t.inbox.fromPR <==> FromPRAfter(p, s, sig, env))
    && t.inbox.replyToID == TargetAfter(p, s, sig, env)
    && t.inbox.seenComments == SeenAfter(p, s, sig, env)
  }

  // A window is open after a step if it was and did not close; or feedback was accepted, or a tunnel
  // ended over queued feedback, with no human left in the loop; or a round failed.
  predicate WindowAfter(p: Policy, s: State, sig: Signal, env: Env, t: State) {
    t.coalesce <==>
      || (s.coalesce && !Closes(s, sig))
      || (StartsRound(p, s, sig, env) && Ends(p, s, sig, env, AgentFailed))
      || FailsInDiscussion(p, s, sig, env)
      || (!Closes(s, sig) && Offered(p, s, sig, env) != [] && !t.attached && !t.awaitingChoice)
      || (Detaches(s, sig) && !sig.edits && s.inbox.pending != [])
  }

  // The ceiling stops a round, or a reply.
  predicate HitsCeiling(p: Policy, s: State, sig: Signal, env: Env) {
    && !Below(p, s)
    && ((Closes(s, sig) && Batch(s, env) != [] && !s.attached && !s.awaitingChoice)
        || (s.control.Discussing? && sig.UserMessage? && Instruction(sig.text, sig.attachments) != ""))
  }

  // The idle clock is set anew when a round ends or is stopped by the ceiling, when the review loop is
  // entered from a discussion, and when a tunnel ends without edits.
  predicate SetsClock(p: Policy, s: State, sig: Signal, env: Env) {
    || (StartsRound(p, s, sig, env) && !Ends(p, s, sig, env, NeedsInput))
    || (Answers(p, s, sig) && !Ends(p, s, sig, env, NeedsInput))
    || (s.control == Head && HitsCeiling(p, s, sig, env))
    || (Detaches(s, sig) && !sig.edits)
  }

  predicate ClockAfter(p: Policy, s: State, sig: Signal, env: Env, t: State) {
    t.keepAlive <==>
      if SetsClock(p, s, sig, env) then t.vm == VMRunning && p.keepAlive > 0 && !t.attached && !t.awaitingChoice
      else s.keepAlive && !Attaches(s, sig, env) && !(s.control == Head && sig.KeepAliveTimer?)
  }

  // The replies posted on the PR, each with the comment it goes under.
  function Replies(log: Log): seq<int> {
    match log
    case Nil => []
    case Snoc(prev, o) => Replies(prev) + if o.PRReply? then [o.to] else []
  }

  predicate Lands(p: Policy, s: State, sig: Signal, env: Env) {
    Due(p, s, sig, env).Some? && !Ends(p, s, sig, env, NeedsInput) && !Ends(p, s, sig, env, AgentFailed)
  }

  // A round that lands is answered on the PR if something in it came from there.
  function RepliesAfter(p: Policy, s: State, sig: Signal, env: Env): seq<int> {
    if StartsRound(p, s, sig, env) && Lands(p, s, sig, env) && BatchFromPR(s, env) then [BatchTarget(s, env)]
    else if Answers(p, s, sig) && s.control.caller.FromRound? && Lands(p, s, sig, env) && s.control.caller.fromPR
    then [s.control.caller.replyToID] else []
  }

  ghost predicate LogAfter(p: Policy, s: State, sig: Signal, env: Env, t: State) {
    var d := Due(p, s, sig, env);
    && Work(t.log) == Work(s.log) + (if d.Some? && d.value.Attempt? then WorkOf(d.value, env.turn) else [])
    && Replies(t.log) == Replies(s.log) + RepliesAfter(p, s, sig, env)
    && AdmittedDeliveries(t.log) == AdmittedDeliveries(s.log) + if FreshDelivery(s, sig) then [sig.delivery] else []
  }

  ghost predicate FieldsAfter(p: Policy, s: State, sig: Signal, env: Env, t: State) {
    && t.control == ControlAfter(p, s, sig, env)
    && t.vm == VMAfter(p, s, sig, env)
    && t.cost == CostAfter(p, s, sig, env)
    && t.prNumber == NumberAfter(p, s, sig, env)
    && t.reviewRound == s.reviewRound + (if StartsRound(p, s, sig, env) then 1 else 0)
    && (t.ceilingReached <==> s.ceilingReached || HitsCeiling(p, s, sig, env))
  }

  ghost predicate StepIs(p: Policy, s: State, sig: Signal, env: Env, t: State) {
    && FieldsAfter(p, s, sig, env, t)
    && HumanAfter(s, sig, env, t)
    && InboxAfter(p, s, sig, env, t)
    && WindowAfter(p, s, sig, env, t)
    && ClockAfter(p, s, sig, env, t)
    && LogAfter(p, s, sig, env, t)
  }
}
