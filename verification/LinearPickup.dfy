/** The Linear pickup path: any number of handler goroutines, serialized per issue by a two-level keyed
    lock, each looking at an issue and perhaps dispatching it. */
module LinearPickup {
  import opened Protocol

  type Goroutine = nat
  type Mutex = nat

  // Where a goroutine is in lock and tryDispatchIssue. From TableHeld to Stored it holds the table's
  // own mutex; from Locked to Unlocking it holds the issue's.
  datatype PC =
    | Start(issue: string)
    | TableHeld(issue: string)
    | Looked(issue: string, found: Option<Mutex>)
    | Stored(issue: string, mu: Mutex)
    | WantKey(issue: string, mu: Mutex)
    | Locked(issue: string, mu: Mutex)
    | Fresh(issue: string, mu: Mutex)        // fetched: labelled and in a to-do state
    | Unworked(issue: string, mu: Mutex)     // no running workflow found
    | Resolved(issue: string, mu: Mutex)     // repository known
    | Moving(issue: string, mu: Mutex)       // dispatched, about to move the issue
    | Unlocking(issue: string, mu: Mutex)
    | Done

  // The issue as Linear stores it.
  datatype Issue = Issue(labelled: bool, stateType: string)

  // What the outside can observe. `Reopened` is somebody else putting the issue in a to-do state.
  datatype Obs =
    | Dispatched(issue: string, who: Goroutine)
    | MoveTried(issue: string, who: Goroutine, result: MoveResult)
    | Reopened(issue: string)

  datatype State = State(
    table: map<string, Mutex>, nextMutex: Mutex,
    tableHeld: Option<Goroutine>, held: map<Mutex, Goroutine>,
    pcs: map<Goroutine, PC>, issues: map<string, Issue>, log: seq<Obs>)

  // MoveState: the issue was put in a started state; it already was in the target state when read; the
  // team has no started state, which is no error either; or an error, applied or not.
  datatype MoveResult = Moved | AlreadyThere | NoStartedState | MoveFailed(applied: bool)

  // The issue is in a started state after it.
  predicate Starts(r: MoveResult) { r.Moved? || r.AlreadyThere? || (r.MoveFailed? && r.applied) }

  datatype Event =
    | Spawn(g: Goroutine, issue: string)
    | LockTable(g: Goroutine)
    | Look(g: Goroutine)
    | Store(g: Goroutine)
    | UnlockTable(g: Goroutine)
    | LockKey(g: Goroutine)
    | Fetch(g: Goroutine, ok: bool)
    | Find(g: Goroutine, found: bool)                // an error counts as not found
    | Resolve(g: Goroutine, ok: bool)
    | Dispatch(g: Goroutine, ok: bool)
    | Move(g: Goroutine, result: MoveResult)
    | Unlock(g: Goroutine)
    | Edit(issue: string, value: Issue)              // somebody else changes an issue

  predicate IsTodo(stateType: string) {
    stateType == "triage" || stateType == "backlog" || stateType == "unstarted"
  }

  const STARTED := "started"

  predicate InTodo(s: State, id: string) {
    id in s.issues && IsTodo(s.issues[id].stateType)
  }

  function Started(issues: map<string, Issue>, id: string): map<string, Issue> {
    if id in issues then issues[id := issues[id].(stateType := STARTED)] else issues
  }

  predicate FreshIssue(s: State, id: string) {
    InTodo(s, id) && s.issues[id].labelled
  }

  function Goto(s: State, g: Goroutine, pc: PC): State { s.(pcs := s.pcs[g := pc]) }

  function At(s: State, g: Goroutine): PC { if g in s.pcs then s.pcs[g] else Done }

  // An event that is not enabled, such as taking a held mutex, changes nothing.
  function Step(s: State, e: Event): State {
    match e
    case Spawn(g, issue) => if g in s.pcs then s else Goto(s, g, Start(issue))
    case LockTable(g) =>
      var pc := At(s, g);
      if !pc.Start? || s.tableHeld.Some? then s else Goto(s, g, TableHeld(pc.issue)).(tableHeld := Some(g))
    case Look(g) =>
      var pc := At(s, g);
      if !pc.TableHeld? then s
      else Goto(s, g, Looked(pc.issue, if pc.issue in s.table then Some(s.table[pc.issue]) else None))
    case Store(g) =>
      var pc := At(s, g);
      if !pc.Looked? then s
      else if pc.found.Some? then Goto(s, g, Stored(pc.issue, pc.found.value))
      else
        Goto(s, g, Stored(pc.issue, s.nextMutex)).(
          table := s.table[pc.issue := s.nextMutex], nextMutex := s.nextMutex + 1)
    case UnlockTable(g) =>
      var pc := At(s, g);
      if !pc.Stored? then s else Goto(s, g, WantKey(pc.issue, pc.mu)).(tableHeld := None)
    case LockKey(g) =>
      var pc := At(s, g);
      if !pc.WantKey? || pc.mu in s.held then s else Goto(s, g, Locked(pc.issue, pc.mu)).(held := s.held[pc.mu := g])
    case Fetch(g, ok) =>
      var pc := At(s, g);
      if !pc.Locked? then s
      else Goto(s, g, if ok && FreshIssue(s, pc.issue) then Fresh(pc.issue, pc.mu) else Unlocking(pc.issue, pc.mu))
    case Find(g, found) =>
      var pc := At(s, g);
      if !pc.Fresh? then s else Goto(s, g, if found then Unlocking(pc.issue, pc.mu) else Unworked(pc.issue, pc.mu))
    case Resolve(g, ok) =>
      var pc := At(s, g);
      if !pc.Unworked? then s else Goto(s, g, if ok then Resolved(pc.issue, pc.mu) else Unlocking(pc.issue, pc.mu))
    case Dispatch(g, ok) =>
      var pc := At(s, g);
      if !pc.Resolved? then s
      else if !ok then Goto(s, g, Unlocking(pc.issue, pc.mu))
      else Goto(s, g, Moving(pc.issue, pc.mu)).(log := s.log + [Dispatched(pc.issue, g)])
    case Move(g, result) =>
      var pc := At(s, g);
      if !pc.Moving? || (result.AlreadyThere? && InTodo(s, pc.issue)) then s
      else
        Goto(s, g, Unlocking(pc.issue, pc.mu)).(
          issues := if result.Moved? || (result.MoveFailed? && result.applied) then Started(s.issues, pc.issue)
                    else s.issues,
          log := s.log + [MoveTried(pc.issue, g, result)])
    case Unlock(g) =>
      var pc := At(s, g);
      if !pc.Unlocking? then s else Goto(s, g, Done).(held := s.held - {pc.mu})
    case Edit(issue, value) =>
      s.(issues := s.issues[issue := value],
         log := if IsTodo(value.stateType) then s.log + [Reopened(issue)] else s.log)
  }

  const INITIAL: State := State(map[], 0, None, map[], map[], map[], [])

  function Run(events: seq<Event>): State {
    if events == [] then INITIAL else Step(Run(events[..|events| - 1]), events[|events| - 1])
  }

  // ---- mutual exclusion ----

  predicate InTable(pc: PC) { pc.TableHeld? || pc.Looked? || pc.Stored? }

  // Inside tryDispatchIssue.
  predicate Inside(pc: PC) {
    pc.Locked? || pc.Fresh? || pc.Unworked? || pc.Resolved? || pc.Moving? || pc.Unlocking?
  }

  predicate HasMutex(pc: PC) { pc.Stored? || pc.WantKey? || Inside(pc) }

  // The table hands out one mutex per key; a goroutine between look-up and store has it to itself.
  ghost predicate TableInv(s: State) {
    && (forall k :: k in s.table ==> s.table[k] < s.nextMutex)
    && (forall j, k :: j in s.table && k in s.table && j != k ==> s.table[j] != s.table[k])
    && (forall g :: g in s.pcs && InTable(s.pcs[g]) ==> s.tableHeld == Some(g))
    && (forall g :: g in s.pcs && s.pcs[g].Looked? ==>
          s.pcs[g].found == if s.pcs[g].issue in s.table then Some(s.table[s.pcs[g].issue]) else None)
  }

  // Whoever has a mutex has the table's one for its issue, and is inside only while holding it.
  ghost predicate KeyInv(s: State) {
    && (forall g :: g in s.pcs && HasMutex(s.pcs[g]) ==>
          s.pcs[g].issue in s.table && s.table[s.pcs[g].issue] == s.pcs[g].mu)
    && (forall g :: g in s.pcs && Inside(s.pcs[g]) ==> s.pcs[g].mu in s.held && s.held[s.pcs[g].mu] == g)
  }

  ghost predicate LockInv(s: State) { TableInv(s) && KeyInv(s) }

  predicate Works(e: Event) { e.Fetch? || e.Find? || e.Resolve? || e.Dispatch? || e.Move? }

  // A step inside the pickup leaves the locks alone and its goroutine inside.
  lemma WorkStaysInside(s: State, e: Event)
    requires Works(e)
    ensures var t := Step(s, e);
      && t.table == s.table && t.nextMutex == s.nextMutex && t.tableHeld == s.tableHeld && t.held == s.held
      && (t.pcs == s.pcs ||
          (&& e.g in s.pcs && e.g in t.pcs && t.pcs == s.pcs[e.g := t.pcs[e.g]]
           && Inside(s.pcs[e.g]) && Inside(t.pcs[e.g])
           && s.pcs[e.g].issue == t.pcs[e.g].issue && s.pcs[e.g].mu == t.pcs[e.g].mu))
  {
    hide FreshIssue, InTodo, Started;
  }

  lemma TableOnlyGrows(s: State, e: Event)
    requires TableInv(s)
    ensures forall k :: k in s.table ==> k in Step(s, e).table && Step(s, e).table[k] == s.table[k]
  {
    hide FreshIssue, InTodo, Started;
  }

  lemma TableStepKeepsTable(s: State, e: Event)
    requires TableInv(s) && (e.LockTable? || e.Look? || e.Store? || e.UnlockTable?)
    ensures TableInv(Step(s, e))
  {
    if e.Store? { StoringKeepsTable(s, e.g); } else { LookingKeepsTable(s, e); }
    hide Step, TableInv;
  }

  lemma StoringKeepsTable(s: State, g: Goroutine)
    requires TableInv(s)
    ensures TableInv(Step(s, Store(g)))
  {}

  lemma LookingKeepsTable(s: State, e: Event)
    requires TableInv(s) && (e.LockTable? || e.Look? || e.UnlockTable?)
    ensures TableInv(Step(s, e))
  {}

  lemma StepKeepsTable(s: State, e: Event)
    requires TableInv(s)
    ensures TableInv(Step(s, e))
  {
    hide FreshIssue, InTodo, Started;
    if Works(e) {
      WorkStaysInside(s, e);
      hide Step;
    } else if e.LockTable? || e.Look? || e.Store? || e.UnlockTable? {
      TableStepKeepsTable(s, e);
      hide Step, TableInv;
    }
  }

  lemma LockingKeepsKeys(s: State, e: Event)
    requires LockInv(s) && (e.LockKey? || e.Unlock?)
    ensures KeyInv(Step(s, e))
  {}

  lemma StoringKeepsKeys(s: State, g: Goroutine)
    requires LockInv(s)
    ensures KeyInv(Step(s, Store(g)))
  {
    TableOnlyGrows(s, Store(g));
  }

  lemma StepKeepsKeys(s: State, e: Event)
    requires LockInv(s)
    ensures KeyInv(Step(s, e))
  {
    hide FreshIssue, InTodo, Started;
    if Works(e) {
      WorkStaysInside(s, e);
      hide Step;
    } else if e.LockKey? || e.Unlock? {
      LockingKeepsKeys(s, e);
      hide Step;
    } else if e.Store? {
      StoringKeepsKeys(s, e.g);
      hide Step;
    }
  }

  lemma StepKeepsLocks(s: State, e: Event)
    requires LockInv(s)
    ensures LockInv(Step(s, e))
  {
    StepKeepsTable(s, e);
    StepKeepsKeys(s, e);
  }

  lemma {:induction false} RunKeepsLocks(events: seq<Event>)
    ensures LockInv(Run(events))
  {
    if events != [] {
      RunKeepsLocks(events[..|events| - 1]);
      StepKeepsLocks(Run(events[..|events| - 1]), events[|events| - 1]);
    }
  }

  // Under every interleaving at most one goroutine is inside the pickup of one issue.
  lemma MutualExclusion(events: seq<Event>, g: Goroutine, h: Goroutine)
    requires var s := Run(events);
      g in s.pcs && h in s.pcs && Inside(s.pcs[g]) && Inside(s.pcs[h]) && s.pcs[g].issue == s.pcs[h].issue
    ensures g == h
  {
    RunKeepsLocks(events);
  }

  // A key's mutex, once in the table, is never replaced.
  lemma {:induction false} MutexIsNeverReplaced(events: seq<Event>, n: nat, key: string)
    requires n <= |events| && key in Run(events[..n]).table
    ensures key in Run(events).table && Run(events).table[key] == Run(events[..n]).table[key]
  {
    if n == |events| {
      assert events[..n] == events;
    } else {
      var before := events[..|events| - 1];
      assert before[..n] == events[..n];
      MutexIsNeverReplaced(before, n, key);
      RunKeepsLocks(before);
      TableOnlyGrows(Run(before), events[|events| - 1]);
    }
  }

  // ---- the state latch ----

  // What the log says about an issue: never dispatched, dispatched by a goroutine that has not tried the
  // move yet, moved and not reopened since, or open to another dispatch.
  datatype Status = Never | Pending(who: Goroutine) | Latched | Open

  function After(st: Status, id: string, o: Obs): Status {
    match o
    case Dispatched(i, g) => if i == id then Pending(g) else st
    case MoveTried(i, g, result) => if i == id then (if Starts(result) then Latched else Open) else st
    case Reopened(i) => if i == id && st.Latched? then Open else st
  }

  function StatusOf(log: seq<Obs>, id: string): Status {
    if log == [] then Never else After(StatusOf(log[..|log| - 1], id), id, log[|log| - 1])
  }

  // Each observation is one the status before it allows.
  ghost predicate Orderly(log: seq<Obs>) {
    forall n :: 0 <= n < |log| ==> Allowed(StatusOf(log[..n], log[n].issue), log[n])
  }

  predicate Allowed(st: Status, o: Obs) {
    match o
    case Dispatched(_, _) => st.Never? || st.Open?
    case MoveTried(_, g, _) => st == Pending(g)
    case Reopened(_) => true
  }

  predicate BeforeDispatch(pc: PC) { pc.Fresh? || pc.Unworked? || pc.Resolved? }

  // A moved issue is not up for pickup until somebody reopens it; a pending move has its goroutine.
  ghost predicate IssueFits(s: State, st: Status, id: string) {
    match st
    case Latched => !InTodo(s, id)
    case Pending(g) => At(s, g).Moving? && At(s, g).issue == id
    case _ => true
  }

  predicate PcFits(pc: PC, st: Status, g: Goroutine) {
    if pc.Moving? then st == Pending(g) else BeforeDispatch(pc) ==> st.Never? || st.Open?
  }

  ghost predicate PcsFit(s: State, g: Goroutine) {
    var pc := At(s, g);
    pc.Done? || PcFits(pc, StatusOf(s.log, pc.issue), g)
  }

  ghost predicate LatchInv(s: State) {
    && Orderly(s.log)
    && (forall id :: IssueFits(s, StatusOf(s.log, id), id))
    && (forall g :: PcsFit(s, g))
  }

  lemma StatusGrows(log: seq<Obs>, o: Obs, id: string)
    ensures StatusOf(log + [o], id) == After(StatusOf(log, id), id, o)
  {
    assert (log + [o])[..|log|] == log;
  }

  lemma Observe(log: seq<Obs>, o: Obs)
    requires Orderly(log) && Allowed(StatusOf(log, o.issue), o)
    ensures Orderly(log + [o])
    ensures forall id :: StatusOf(log + [o], id) == After(StatusOf(log, id), id, o)
  {
    var more := log + [o];
    assert more[..|more| - 1] == log;
    forall n | 0 <= n < |more| ensures Allowed(StatusOf(more[..n], more[n].issue), more[n]) {
      assert more[..n] == log[..n] && log[..|log|] == log;
    }
  }

  lemma Exclusive(s: State, g: Goroutine, h: Goroutine)
    requires KeyInv(s) && Inside(At(s, g)) && Inside(At(s, h)) && At(s, g).issue == At(s, h).issue
    ensures g == h
  {}

  // A step that observes nothing, except a fetch, moves no goroutine towards a dispatch.
  lemma QuietStep(s: State, e: Event)
    requires LatchInv(s) && Step(s, e).log == s.log && !e.Move? && !e.Fetch? && !e.Edit?
    ensures LatchInv(Step(s, e))
  {
    hide Orderly, StatusOf, IsTodo, FreshIssue;
    var t := Step(s, e);
    forall id ensures IssueFits(t, StatusOf(t.log, id), id) { assert IssueFits(s, StatusOf(s.log, id), id); }
    forall g ensures PcsFit(t, g) { assert PcsFit(s, g); }
  }

  lemma FetchKeepsLatch(s: State, g: Goroutine, ok: bool)
    requires LatchInv(s) && KeyInv(s) && At(s, g).Locked?
    ensures LatchInv(Step(s, Fetch(g, ok)))
  {
    hide Orderly, StatusOf, IsTodo, KeyInv;
    var t, i := Step(s, Fetch(g, ok)), At(s, g).issue;
    var st := StatusOf(s.log, i);
    assert IssueFits(s, st, i);
    if st.Pending? { Exclusive(s, g, st.who); }
    forall id ensures IssueFits(t, StatusOf(t.log, id), id) { assert IssueFits(s, StatusOf(s.log, id), id); }
    forall h ensures PcsFit(t, h) { assert PcsFit(s, h); }
  }

  lemma DispatchEffect(s: State, g: Goroutine)
    requires At(s, g).Resolved?
    ensures var t, pc := Step(s, Dispatch(g, true)), At(s, g);
      t.pcs == s.pcs[g := Moving(pc.issue, pc.mu)] && t.issues == s.issues && t.log == s.log + [Dispatched(pc.issue, g)]
  {}

  lemma DispatchKeepsLatch(s: State, g: Goroutine)
    requires LatchInv(s) && KeyInv(s) && At(s, g).Resolved?
    ensures LatchInv(Step(s, Dispatch(g, true)))
  {
    var t, i := Step(s, Dispatch(g, true)), At(s, g).issue;
    assert PcsFit(s, g);
    Observe(s.log, Dispatched(i, g));
    DispatchEffect(s, g);
    assert forall id :: InTodo(t, id) == InTodo(s, id);
    hide Orderly, StatusOf, InTodo, KeyInv, Step;
    forall id ensures IssueFits(t, StatusOf(t.log, id), id) { assert IssueFits(s, StatusOf(s.log, id), id); }
    forall h ensures PcsFit(t, h) {
      assert PcsFit(s, h);
      if Inside(At(s, h)) && At(s, h).issue == i { Exclusive(s, g, h); }
    }
  }

  lemma MoveEffect(s: State, g: Goroutine, result: MoveResult)
    requires At(s, g).Moving?
    ensures var t, pc := Step(s, Move(g, result)), At(s, g);
      t == s ||
      (&& t.pcs == s.pcs[g := Unlocking(pc.issue, pc.mu)]
       && t.log == s.log + [MoveTried(pc.issue, g, result)]
       && (forall id :: id != pc.issue ==> InTodo(t, id) == InTodo(s, id))
       && (Starts(result) ==> !InTodo(t, pc.issue)))
  {
    assert !IsTodo(STARTED);
    hide IsTodo;
  }

  lemma MoveKeepsIssue(s: State, g: Goroutine, result: MoveResult, id: string)
    requires At(s, g).Moving? && IssueFits(s, StatusOf(s.log, id), id) && PcsFit(s, g)
    requires Step(s, Move(g, result)) != s
    ensures var o := MoveTried(At(s, g).issue, g, result);
      IssueFits(Step(s, Move(g, result)), After(StatusOf(s.log, id), id, o), id)
  {
    MoveEffect(s, g, result);
    hide StatusOf, InTodo, Step;
  }

  lemma MoveKeepsPc(s: State, g: Goroutine, result: MoveResult, h: Goroutine)
    requires At(s, g).Moving? && PcsFit(s, h) && PcsFit(s, g)
    requires Step(s, Move(g, result)) != s && Orderly(s.log)
    ensures PcsFit(Step(s, Move(g, result)), h)
  {
    MoveEffect(s, g, result);
    Observe(s.log, MoveTried(At(s, g).issue, g, result));
    hide Orderly, StatusOf, InTodo, Step;
  }

  lemma MoveKeepsLatch(s: State, g: Goroutine, result: MoveResult)
    requires LatchInv(s) && At(s, g).Moving?
    ensures LatchInv(Step(s, Move(g, result)))
  {
    var t := Step(s, Move(g, result));
    var o := MoveTried(At(s, g).issue, g, result);
    if t != s {
      MoveEffect(s, g, result);
      assert PcsFit(s, g);
      Observe(s.log, o);
      hide Orderly, StatusOf, InTodo, Step, IssueFits, PcsFit;
      forall id ensures IssueFits(t, StatusOf(t.log, id), id) { MoveKeepsIssue(s, g, result, id); }
      forall h ensures PcsFit(t, h) { MoveKeepsPc(s, g, result, h); }
    }
  }

  lemma EditEffect(s: State, id: string, value: Issue)
    ensures var t := Step(s, Edit(id, value));
      && t.pcs == s.pcs
      && (forall i :: i != id ==> InTodo(t, i) == InTodo(s, i))
      && (if InTodo(t, id) then t.log == s.log + [Reopened(id)] else t.log == s.log)
  {
    hide IsTodo;
  }

  lemma EditKeepsIssue(s: State, id: string, value: Issue, i: string)
    requires IssueFits(s, StatusOf(s.log, i), i)
    ensures IssueFits(Step(s, Edit(id, value)), StatusOf(Step(s, Edit(id, value)).log, i), i)
  {
    StatusGrows(s.log, Reopened(id), i);
    EditEffect(s, id, value);
    hide StatusOf, InTodo, IsTodo, Step;
  }

  lemma EditKeepsPc(s: State, id: string, value: Issue, g: Goroutine)
    requires PcsFit(s, g)
    ensures PcsFit(Step(s, Edit(id, value)), g)
  {
    if !At(s, g).Done? { StatusGrows(s.log, Reopened(id), At(s, g).issue); }
    EditEffect(s, id, value);
    hide StatusOf, InTodo, IsTodo, Step;
  }

  lemma EditKeepsLatch(s: State, id: string, value: Issue)
    requires LatchInv(s)
    ensures LatchInv(Step(s, Edit(id, value)))
  {
    var t := Step(s, Edit(id, value));
    Observe(s.log, Reopened(id));
    EditEffect(s, id, value);
    hide Orderly, StatusOf, InTodo, Step, IssueFits, PcsFit;
    forall i ensures IssueFits(t, StatusOf(t.log, i), i) { EditKeepsIssue(s, id, value, i); }
    forall g ensures PcsFit(t, g) { EditKeepsPc(s, id, value, g); }
  }

  lemma StepKeepsLatch(s: State, e: Event)
    requires LatchInv(s) && LockInv(s)
    ensures LatchInv(Step(s, e))
  {
    if e.Dispatch? && e.ok && At(s, e.g).Resolved? {
      DispatchKeepsLatch(s, e.g);
    } else if e.Move? && At(s, e.g).Moving? {
      MoveKeepsLatch(s, e.g, e.result);
    } else if e.Edit? {
      EditKeepsLatch(s, e.issue, e.value);
    } else if e.Fetch? && At(s, e.g).Locked? {
      FetchKeepsLatch(s, e.g, e.ok);
    } else if !e.Move? && !e.Fetch? {
      hide LatchInv, LockInv;
      QuietStep(s, e);
    }
  }

  lemma {:induction false} RunKeepsLatch(events: seq<Event>)
    ensures LatchInv(Run(events))
  {
    if events != [] {
      RunKeepsLatch(events[..|events| - 1]);
      RunKeepsLocks(events[..|events| - 1]);
      StepKeepsLatch(Run(events[..|events| - 1]), events[|events| - 1]);
    }
  }

  // ---- two dispatches of one issue ----

  // Entry r is the move of g's own dispatch; nothing stands between it and the next pickup if it failed
  // or somebody reopened the issue after it.
  ghost predicate MoveAt(log: seq<Obs>, id: string, g: Goroutine, p: nat, r: int) {
    p < r < |log| && log[r].MoveTried? && log[r].issue == id && log[r].who == g
  }

  ghost predicate ReopenedSince(log: seq<Obs>, id: string, r: int)
    requires 0 <= r
  {
    exists x :: r < x < |log| && log[x] == Reopened(id)
  }

  ghost predicate Settled(log: seq<Obs>, id: string, g: Goroutine, p: nat) {
    || StatusOf(log, id) == Pending(g)
    || exists r :: MoveAt(log, id, g, p, r)
         && (Starts(log[r].result) ==> StatusOf(log, id).Latched? || ReopenedSince(log, id, r))
  }

  lemma ReopenedGrows(log: seq<Obs>, o: Obs, id: string, r: nat)
    requires r < |log|
    ensures ReopenedSince(log, id, r) || o == Reopened(id) ==> ReopenedSince(log + [o], id, r)
  {
    var more := log + [o];
    assert more[|log|] == o;
    if ReopenedSince(log, id, r) {
      var x :| r < x < |log| && log[x] == Reopened(id);
      assert more[x] == Reopened(id);
    }
  }

  lemma SettledGrows(log: seq<Obs>, o: Obs, id: string, g: Goroutine, p: nat)
    requires p < |log| && Settled(log, id, g, p) && Allowed(StatusOf(log, o.issue), o)
    ensures Settled(log + [o], id, g, p)
  {
    hide StatusOf, ReopenedSince;
    var more, st := log + [o], StatusOf(log, id);
    StatusGrows(log, o, id);
    if st == Pending(g) {
      if o.MoveTried? && o.issue == id { assert MoveAt(more, id, g, p, |log|); }
    } else {
      var r :| MoveAt(log, id, g, p, r) && (Starts(log[r].result) ==> st.Latched? || ReopenedSince(log, id, r));
      ReopenedGrows(log, o, id, r);
      assert more[r] == log[r] && MoveAt(more, id, g, p, r);
    }
  }

  lemma OrderlyPrefix(log: seq<Obs>, n: nat)
    requires Orderly(log) && n <= |log|
    ensures Orderly(log[..n])
  {
    hide StatusOf, Allowed;
    forall k | 0 <= k < n ensures Allowed(StatusOf(log[..n][..k], log[..n][k].issue), log[..n][k]) {
      assert log[..n][..k] == log[..k];
    }
  }

  lemma JustDispatched(log: seq<Obs>, id: string, g: Goroutine)
    requires log != [] && log[|log| - 1] == Dispatched(id, g)
    ensures StatusOf(log, id) == Pending(g)
  {}

  lemma {:induction false} DispatchSettles(log: seq<Obs>, id: string, g: Goroutine, p: nat)
    requires Orderly(log) && p < |log| && log[p] == Dispatched(id, g)
    ensures Settled(log, id, g, p)
  {
    var n := |log| - 1;
    if p == n {
      JustDispatched(log, id, g);
      hide StatusOf, Orderly;
    } else {
      var before, o := log[..n], log[n];
      OrderlyPrefix(log, n);
      assert Allowed(StatusOf(before, o.issue), o);
      assert before[p] == log[p] && before + [o] == log;
      hide StatusOf, Settled, Orderly, Allowed;
      DispatchSettles(before, id, g, p);
      SettledGrows(before, o, id, g, p);
    }
  }

  // Under every interleaving: between two dispatches of one issue, the first one's goroutine tried to
  // move the issue to In Progress, and if the issue was then in a started state, somebody else put it
  // back into a to-do state after that and before the second dispatch.
  lemma RedispatchNeedsReopening(events: seq<Event>, id: string, g: Goroutine, h: Goroutine, p: nat, q: nat)
    requires var log := Run(events).log; p < q < |log| && log[p] == Dispatched(id, g) && log[q] == Dispatched(id, h)
    ensures var before := Run(events).log[..q];
      exists r :: MoveAt(before, id, g, p, r) && (Starts(before[r].result) ==> ReopenedSince(before, id, r))
  {
    RunKeepsLatch(events);
    var log := Run(events).log;
    var before := log[..q];
    OrderlyPrefix(log, q);
    DispatchSettles(before, id, g, p);
    assert Allowed(StatusOf(before, id), log[q]);
  }
}
