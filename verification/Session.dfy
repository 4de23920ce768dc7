/** The control workflow of one task as a step machine. One step is one `Select` of the review loop
    or of the nested discussion loop; activity results arrive with the step and are arbitrary. */
module Session {
  import opened Protocol
  import Dedupe
  import Text

  const MAX_SEEN_DELIVERIES := 500

  // ---- data model ----

  datatype Instr = Said(text: string) | EditDecision(reply: string) | GitHub(text: string) | CIFailure(url: string)

  // The resolved policy fields the workflow branches on. A ceiling <= 0 disables the breaker and a
  // keepAlive <= 0 means "never park".
  datatype Policy = Policy(costCeiling: real, keepAlive: int, autoFixCI: bool, planFirst: bool)

  datatype VM = VMNone | VMRunning | VMDestroyed

  datatype EndReason = Merged | Closed | Aborted(reason: string) | EndedNoInput

  // Who called the discussion loop, with the locals that outlive the call.
  datatype Caller = FromStart | FromRound(batch: seq<Instr>, fromPR: bool, replyToID: int)

  // Head: parked at the review loop's Select. Discussing: parked at the discussion loop's Select.
  datatype Control = Head | Discussing(caller: Caller, mode: Mode) | Done(reason: EndReason)

  datatype CommentKind = IssueComment | InlineComment | Review

  datatype ThreadComment = ThreadComment(id: int, kind: CommentKind, changesRequested: bool, text: string)

  datatype Signal =
    | ReviewComment(delivery: string, commentID: int, inline: bool, text: string)
    | ReviewSubmitted(delivery: string, reviewID: int, changesRequested: bool, text: string)
    | CIStatus(delivery: string, failure: bool, url: string)
    | UserMessage(text: string, attachments: string)
    | PRClosed(delivery: string, merged: bool)
    | Abort(reason: string)
    | Attach
    | Detach
    | RelayEnded(edits: bool)
    | HardTTL
    | CoalesceTimer
    | KeepAliveTimer

  datatype Intent = AsMessage | AsAttach | AsDetach

  // What the activities of one agent turn return. `prCreated` is the ground truth on GitHub: whether the
  // guest created a pull request in this turn, whatever was reported back.
  datatype TurnResult = TurnResult(mintOk: bool, launchOk: bool, run: Option<PhaseResult>, prCreated: bool)

  // Every activity result one step can ask for. foundPR is CheckPR's number, 0 for none or an error.
  datatype Env = Env(intent: Intent, proceed: bool, thread: Option<seq<ThreadComment>>, turn: TurnResult, foundPR: int)

  // ---- history: what the step machine did, newest last. Nothing in the workflow reads it. ----

  datatype TurnKind = First | Talk(inRound: bool) | Round | Wake

  datatype How = Cold(mode: Mode) | Warm

  datatype Obs =
    | Admitted(delivery: string)
    | Attempt(kind: TurnKind, how: How, texts: seq<Instr>)
    | Launched(mode: Mode)
    | Turn(kind: TurnKind, res: PhaseResult, prCreated: bool)
    | Stopped
    | RoundDone(failed: bool)
    | PRReply(to: int)
    | DiscussOpen(mode: Mode)
    | Reply(proceed: bool)
    | DiscussClose
    | CheckedPR(number: int)

  datatype Log = Nil | Snoc(prev: Log, last: Obs)

  // The feedback the review loop accepted, newest last, each with the GitHub id it came from (0: none).
  datatype Feedback = Empty | Then(prev: Feedback, instr: Instr, id: int)

  // The pending batch, what the workflow remembers about it, and (as history) all feedback so far.
  datatype Inbox = Inbox(pending: seq<Instr>, fromPR: bool, replyToID: int, seenComments: set<int>, accepted: Feedback)

  datatype State = State(
    control: Control,
    vm: VM,
    prNumber: int,
    inbox: Inbox,
    reviewRound: nat,
    cost: real,
    ceilingReached: bool,
    seen: Dedupe.Fifo,
    coalesce: bool,
    keepAlive: bool,
    attached: bool,
    awaitingChoice: bool,
    relay: bool,
    log: Log)

  const FRESH: State :=
    State(Head, VMNone, 0, Inbox([], false, 0, {}, Empty), 0, 0.0, false, Dedupe.EMPTY,
          false, false, false, false, false, Nil)

  // ---- helpers shared by the loops ----

  function Note(s: State, o: Obs): State {
    s.(log := Snoc(s.log, o))
  }

  predicate Frozen(s: State) {
    s.attached || s.awaitingChoice
  }

  predicate CeilingHit(p: Policy, s: State) {
    p.costCeiling > 0.0 && s.cost >= p.costCeiling
  }

  function ArmKeepAlive(p: Policy, s: State): State {
    s.(keepAlive := s.vm == VMRunning && p.keepAlive > 0 && !Frozen(s))
  }

  // First feedback of a batch opens the coalescing window.
  function ArmCoalesce(s: State): State {
    if !s.coalesce && !Frozen(s) then s.(coalesce := true) else s
  }

  function Push(b: Inbox, i: Instr, id: int): Inbox {
    b.(pending := b.pending + [i], accepted := Then(b.accepted, i, id))
  }

  // Feedback from the PR: mirror the reply there, and remember its id.
  function PushFromPR(b: Inbox, i: Instr, id: int): Inbox {
    Push(b, i, id).(fromPR := true)
  }

  function MarkSeen(b: Inbox, id: int): Inbox {
    if id == 0 then b else b.(seenComments := b.seenComments + {id})
  }

  function TeardownVM(s: State): State {
    s.(vm := VMDestroyed, log := Snoc(s.log, Stopped))
  }

  function EndSession(s: State, reason: EndReason): State {
    s.(control := Done(reason), vm := VMDestroyed, log := Snoc(s.log, Stopped))
  }

  // A turn that pushed or opened a PR leaves the guest warm; any other report tears it down.
  predicate Settled(r: PhaseResult) {
    r.outcome == PROpened || r.outcome == PushDone
  }

  // A run that errors out reads as a failed turn.
  function Heard(t: TurnResult): PhaseResult {
    if t.run.Some? then t.run.value else FAILED
  }

  // awaitTurn + settle: the guest's report, then the VM's warmth.
  function AwaitAndSettle(s: State, kind: TurnKind, t: TurnResult): (State, PhaseResult) {
    var r := Heard(t);
    var heard := Snoc(s.log, Turn(kind, r, t.prCreated));
    if Settled(r) then (s.(vm := VMRunning, log := heard), r)
    else (s.(vm := VMDestroyed, log := Snoc(heard, Stopped)), r)
  }

  function LaunchWarm(s: State, kind: TurnKind, mode: Mode, texts: seq<Instr>, t: TurnResult): (State, PhaseResult) {
    var s1 := Note(s, Attempt(kind, Cold(mode), texts));
    if !t.mintOk || !t.launchOk then (s1, FAILED)
    else AwaitAndSettle(s1.(vm := VMRunning, log := Snoc(s1.log, Launched(mode))), kind, t)
  }

  function WarmTurn(s: State, kind: TurnKind, texts: seq<Instr>, t: TurnResult): (State, PhaseResult) {
    AwaitAndSettle(Note(s, Attempt(kind, Warm, texts)), kind, t)
  }

  function RecordOutcome(s: State, r: PhaseResult): State {
    s.(cost := s.cost + r.cost,
       prNumber := if r.outcome == PROpened && r.prNumber != 0 then r.prNumber else s.prNumber)
  }

  // Empty delivery ids are treated as already handled; others go through the bounded set.
  function DedupeDelivery(s: State, id: string): (State, bool) {
    if id == "" then (s, true)
    else
      var (seen, dup) := Dedupe.See(s.seen, MAX_SEEN_DELIVERIES, id);
      if dup then (s, true) else (s.(seen := seen, log := Snoc(s.log, Admitted(id))), false)
  }

  predicate ActionableEntry(c: ThreadComment) {
    !(c.kind == Review && !c.changesRequested)
  }

  // Fold one fetched entry into the pending batch, unless the workflow has seen its id already.
  function FoldEntry(b: Inbox, c: ThreadComment): Inbox {
    if c.id == 0 || c.id in b.seenComments then b
    else if !ActionableEntry(c) then MarkSeen(b, c.id)
    else
      var b1 := PushFromPR(MarkSeen(b, c.id), GitHub(c.text), c.id);
      if c.kind == InlineComment then b1.(replyToID := c.id) else b1
  }

  function FoldThread(b: Inbox, thread: seq<ThreadComment>): Inbox
    decreases thread
  {
    if thread == [] then b else FoldThread(FoldEntry(b, thread[0]), thread[1..])
  }

  function ReconcileThread(s: State, thread: Option<seq<ThreadComment>>): State {
    if s.prNumber == 0 || thread.None? then s else s.(inbox := FoldThread(s.inbox, thread.value))
  }

  // The operator's words with any attachment folded in.
  function Instruction(text: string, attachments: string): string {
    var i := Text.Trim(text);
    if attachments == "" then i else Text.Trim(i + "\n\n" + attachments)
  }

  // ---- the discussion loop ----

  function EnterDiscussion(s: State, caller: Caller, mode: Mode): State {
    s.(control := Discussing(caller, mode), log := Snoc(s.log, DiscussOpen(mode)))
  }

  // runDiscussion returned r: a result that paused again opens the next discussion (always in
  // resume mode), anything else goes back to the caller.
  function LeaveDiscussion(p: Policy, s: State, caller: Caller, r: PhaseResult, env: Env): State {
    var s1 := s.(control := Head, log := Snoc(s.log, DiscussClose));
    if r.outcome == NeedsInput then EnterDiscussion(s1, caller, Resume)
    else
      match caller
      case FromStart => EnterLoop(p, s1, env)
      case FromRound(batch, fromPR, replyToID) => FinishRound(p, s1, r, batch, fromPR, replyToID)
  }

  // A reply runs a turn: "proceed" builds (on the PR if there is one), anything else discusses on in
  // the call's own mode.
  function TalkTurn(s: State, caller: Caller, mode: Mode, i: string, env: Env): (State, PhaseResult) {
    var m := if !env.proceed then mode else if s.prNumber > 0 then Resume else Execute;
    var (s1, r) := LaunchWarm(Note(s, Reply(env.proceed)), Talk(caller.FromRound?), m, [Said(i)], env.turn);
    (RecordOutcome(s1, r), r)
  }

  function Answer(p: Policy, s: State, caller: Caller, mode: Mode, i: string, env: Env): State {
    var (s1, r) := TalkTurn(s, caller, mode, i, env);
    if env.proceed || r.outcome != NeedsInput then LeaveDiscussion(p, s1, caller, r, env) else s1
  }

  function Discuss(p: Policy, s: State, caller: Caller, mode: Mode, sig: Signal, env: Env): State {
    match sig
    case Abort(reason) => EndSession(s, Aborted(if reason == "" then "aborted" else reason))
    case HardTTL => EndSession(s, Aborted("hard_ttl"))
    case UserMessage(text, attachments) =>
      var i := Instruction(text, attachments);
      if i == "" then s
      else if CeilingHit(p, s) then s.(ceilingReached := true)
      else Answer(p, s, caller, mode, i, env)
    case _ => s // not selected here: buffered until the review loop
  }

  // ---- the review loop ----

  // Entered once the initial phase settles: adopt a PR whose event was lost, then wait warm.
  function EnterLoop(p: Policy, s: State, env: Env): State {
    var s1 := if s.prNumber != 0 then s
              else s.(prNumber := env.foundPR, log := Snoc(s.log, CheckedPR(env.foundPR)));
    ArmKeepAlive(p, s1).(control := Head)
  }

  function Start(p: Policy, env: Env): State {
    var (s1, r) := LaunchWarm(FRESH, First, if p.planFirst then Plan else Initial, [], env.turn);
    var s2 := RecordOutcome(s1, r);
    if r.outcome == NeedsInput then EnterDiscussion(s2, FromStart, if p.planFirst then Plan else Resume)
    else EnterLoop(p, s2, env)
  }

  // A failed round puts its batch back in front and retries; any other outcome closes the round.
  function FinishRound(p: Policy, s: State, r: PhaseResult, batch: seq<Instr>, fromPR: bool, replyToID: int): State {
    var s1 :=
      if r.outcome == AgentFailed then
        s.(coalesce := true, log := Snoc(s.log, RoundDone(true)),
          inbox := s.inbox.(pending := batch + s.inbox.pending, fromPR := s.inbox.fromPR || fromPR))
      else s.(log := Snoc(if fromPR then Snoc(s.log, PRReply(replyToID)) else s.log, RoundDone(false)));
    ArmKeepAlive(p, s1)
  }

  // The pending batch and its origin are taken before the turn.
  function TakeBatch(s: State): State {
    s.(inbox := s.inbox.(pending := [], fromPR := false, replyToID := 0), reviewRound := s.reviewRound + 1)
  }

  // A warm guest gets the batch delivered; otherwise a resume guest is launched cold with it.
  function RoundTurn(s: State, batch: seq<Instr>, t: TurnResult): (State, PhaseResult) {
    if s.vm == VMRunning then WarmTurn(s, Round, batch, t) else LaunchWarm(s, Round, Resume, batch, t)
  }

  function StartRound(p: Policy, s: State, env: Env): State {
    var batch, fromPR, replyToID := s.inbox.pending, s.inbox.fromPR, s.inbox.replyToID;
    var (s2, r) := RoundTurn(TakeBatch(s), batch, env.turn);
    var s3 := RecordOutcome(s2, r);
    if r.outcome == NeedsInput then EnterDiscussion(s3, FromRound(batch, fromPR, replyToID), Resume)
    else FinishRound(p, s3, r, batch, fromPR, replyToID)
  }

  // The coalescing window closed: complete the batch from GitHub.
  function Gather(s: State, env: Env): State {
    var s1 := s.(coalesce := false);
    if s1.prNumber > 0 then ReconcileThread(s1, env.thread) else s1
  }

  function CloseWindow(p: Policy, s: State, env: Env): State {
    var s1 := Gather(s, env);
    if s1.inbox.pending == [] || Frozen(s1) then s1
    else if CeilingHit(p, s1) then ArmKeepAlive(p, s1.(ceilingReached := true))
    else StartRound(p, s1, env)
  }

  // Wake a parked session so there is something to attach to.
  function WakeVM(s: State, env: Env): State {
    if s.vm == VMRunning then s
    else var (s1, r) := LaunchWarm(s, Wake, Resume, [], env.turn); RecordOutcome(s1, r)
  }

  function AttachHuman(s: State, env: Env): State {
    if s.attached then s else WakeVM(s.(attached := true), env).(relay := true, keepAlive := false)
  }

  function EndRelay(p: Policy, s: State, edits: bool): State {
    var s1 := s.(relay := false, attached := false);
    if edits then s1.(awaitingChoice := true)
    else
      var s2 := ArmKeepAlive(p, s1);
      if s2.inbox.pending != [] && !s2.coalesce then s2.(coalesce := true) else s2
  }

  // The idle timer: end a session that never got a PR, park a warm VM, and leave queued work alone.
  function IdleOut(s: State): State {
    var s1 := s.(keepAlive := false);
    if s1.prNumber == 0 && s1.inbox.pending == [] then EndSession(s1, EndedNoInput)
    else if s1.vm == VMRunning && s1.inbox.pending == [] then TeardownVM(s1)
    else s1
  }

  function RouteUserMessage(s: State, text: string, attachments: string, env: Env): State {
    var i := Instruction(text, attachments);
    if s.awaitingChoice then ArmCoalesce(s.(awaitingChoice := false, inbox := Push(s.inbox, EditDecision(i), 0)))
    else if text != "" && env.intent == AsAttach then AttachHuman(s, env)
    else if text != "" && env.intent == AsDetach then s
    else if !s.attached && i != "" then ArmCoalesce(s.(inbox := Push(s.inbox, Said(i), 0)))
    else s
  }

  function OnReviewComment(s: State, delivery: string, id: int, inline: bool, text: string): State {
    var (s1, dup) := DedupeDelivery(s, delivery);
    if dup || (id != 0 && id in s1.inbox.seenComments) then s1
    else
      var b := MarkSeen(PushFromPR(s1.inbox, GitHub(text), id), id);
      ArmCoalesce(s1.(inbox := if id != 0 && inline then b.(replyToID := id) else b))
  }

  // Only a review that requests changes drives another round.
  function OnReviewSubmitted(s: State, delivery: string, id: int, changesRequested: bool, text: string): State {
    var (s1, dup) := DedupeDelivery(s, delivery);
    if dup || (id != 0 && id in s1.inbox.seenComments) then s1
    else
      var b := MarkSeen(s1.inbox, id);
      if changesRequested then ArmCoalesce(s1.(inbox := PushFromPR(b, GitHub(text), id))) else s1.(inbox := b)
  }

  function OnCIStatus(p: Policy, s: State, delivery: string, failure: bool, url: string): State {
    var (s1, dup) := DedupeDelivery(s, delivery);
    if dup || !failure || !p.autoFixCI then s1
    else ArmCoalesce(s1.(inbox := PushFromPR(s1.inbox, CIFailure(url), 0)))
  }

  function OnPRClosed(s: State, delivery: string, merged: bool): State {
    var (s1, dup) := DedupeDelivery(s, delivery);
    if dup then s1 else EndSession(s1, if merged then Merged else Closed)
  }

  function HeadStep(p: Policy, s: State, sig: Signal, env: Env): State {
    match sig
    case ReviewComment(delivery, id, inline, text) => OnReviewComment(s, delivery, id, inline, text)
    case ReviewSubmitted(delivery, id, asks, text) => OnReviewSubmitted(s, delivery, id, asks, text)
    case CIStatus(delivery, failure, url) => OnCIStatus(p, s, delivery, failure, url)
    case PRClosed(delivery, merged) => OnPRClosed(s, delivery, merged)
    case UserMessage(text, attachments) => RouteUserMessage(s, text, attachments, env)
    case Abort(reason) => EndSession(s, Aborted(reason))
    case Attach => AttachHuman(s, env)
    case Detach => s // only tells the guest to stop its tunnel
    case RelayEnded(edits) => if s.relay then EndRelay(p, s, edits) else s
    case HardTTL => EndSession(s, Aborted("hard_ttl"))
    case CoalesceTimer => if s.coalesce then CloseWindow(p, s, env) else s
    case KeepAliveTimer => if s.keepAlive then IdleOut(s) else s
  }

  function Step(p: Policy, s: State, sig: Signal, env: Env): State {
    match s.control
    case Head => HeadStep(p, s, sig, env)
    case Discussing(caller, mode) => Discuss(p, s, caller, mode, sig, env)
    case Done(_) => s
  }

  // ---- runs ----

  datatype Input = Input(sig: Signal, env: Env)

  // The state after a start and any sequence of selected signals with arbitrary activity results.
  function Run(p: Policy, start: Env, inputs: seq<Input>): State {
    if inputs == [] then Start(p, start)
    else
      var i := inputs[|inputs| - 1];
      Step(p, Run(p, start, inputs[..|inputs| - 1]), i.sig, i.env)
  }
}
