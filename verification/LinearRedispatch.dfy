/** Exactly which results of the move to In Progress leave a dispatched Linear issue up for pickup. */
module LinearRedispatch {
  import opened Protocol
  import opened LinearPickup

  // Two dispatches of the issue with a move of this result between them, and nobody reopening it.
  ghost predicate RedispatchedAt(log: seq<Obs>, id: string, m: MoveResult, p: int, r: int, q: int) {
    && 0 <= p < r < q < |log|
    && log[p].Dispatched? && log[p].issue == id && log[q].Dispatched? && log[q].issue == id
    && log[r] == MoveTried(id, log[p].who, m)
    && forall x :: p < x < q ==> log[x] != Reopened(id)
  }

  ghost predicate Redispatched(events: seq<Event>, id: string, m: MoveResult) {
    exists p, r, q :: RedispatchedAt(Run(events).log, id, m, p, r, q)
  }

  // ---- a started issue is not dispatched again ----

  lemma JustMoved(log: seq<Obs>, id: string)
    requires log != [] && log[|log| - 1].MoveTried? && log[|log| - 1].issue == id && Starts(log[|log| - 1].result)
    ensures StatusOf(log, id).Latched?
  {}

  lemma AllowedAt(log: seq<Obs>, n: nat)
    requires Orderly(log) && n < |log|
    ensures Allowed(StatusOf(log[..n], log[n].issue), log[n])
  {}

  lemma LatchedGrows(log: seq<Obs>, o: Obs, id: string)
    requires StatusOf(log, id).Latched? && Allowed(StatusOf(log, o.issue), o) && o != Reopened(id)
    ensures StatusOf(log + [o], id).Latched?
  {
    StatusGrows(log, o, id);
    hide StatusOf;
  }

  // An issue moved to a started state stays latched while nobody reopens it.
  lemma {:induction false} StaysLatched(log: seq<Obs>, id: string, r: nat)
    requires Orderly(log) && r < |log| && log[r].MoveTried? && log[r].issue == id && Starts(log[r].result)
    requires forall x :: r < x < |log| ==> log[x] != Reopened(id)
    ensures StatusOf(log, id).Latched?
  {
    hide StatusOf, Orderly, Allowed, Starts;
    var n := |log| - 1;
    if r == n {
      JustMoved(log, id);
    } else {
      OrderlyPrefix(log, n);
      AllowedAt(log, n);
      StaysLatched(log[..n], id, r);
      LatchedGrows(log[..n], log[n], id);
      assert log[..n] + [log[n]] == log;
    }
  }

  lemma DispatchWasAllowed(log: seq<Obs>, id: string, q: nat)
    requires Orderly(log) && q < |log| && log[q].Dispatched? && log[q].issue == id
    ensures !StatusOf(log[..q], id).Latched?
  {
    AllowedAt(log, q);
    hide StatusOf, Orderly;
  }

  lemma StartedIsNotRedispatched(events: seq<Event>, id: string, m: MoveResult)
    requires Starts(m)
    ensures !Redispatched(events, id, m)
  {
    RunKeepsLatch(events);
    var log := Run(events).log;
    hide Run, StatusOf, Orderly;
    forall p, r, q | RedispatchedAt(log, id, m, p, r, q) ensures false {
      OrderlyPrefix(log, q);
      DispatchWasAllowed(log, id, q);
      assert forall x :: 0 <= x < q ==> log[..q][x] == log[x];
      StaysLatched(log[..q], id, r);
    }
  }

  // ---- any other is ----

  // Further events from a state.
  function From(s: State, events: seq<Event>): State {
    if events == [] then s else Step(From(s, events[..|events| - 1]), events[|events| - 1])
  }

  lemma {:induction false} RunFrom(a: seq<Event>, b: seq<Event>)
    ensures Run(a + b) == From(Run(a), b)
  {
    if b == [] {
      assert a + b == a;
    } else {
      assert (a + b)[..|a + b| - 1] == a + b[..|b| - 1];
      hide Step;
      RunFrom(a, b[..|b| - 1]);
    }
  }

  lemma FromSnoc(s: State, events: seq<Event>, e: Event)
    ensures From(s, events + [e]) == Step(From(s, events), e)
  {
    assert (events + [e])[..|events|] == events;
  }

  // One goroutine's way through the lock, and from there to a dispatch.
  function Enter(g: Goroutine, id: string): seq<Event> {
    [Spawn(g, id)] + [LockTable(g)] + [Look(g)] + [Store(g)] + [UnlockTable(g)] + [LockKey(g)]
  }

  function Pick(g: Goroutine): seq<Event> {
    [Fetch(g, true)] + [Find(g, false)] + [Resolve(g, true)] + [Dispatch(g, true)]
  }

  // Nobody holds anything, and the goroutine is new.
  predicate Idle(s: State, g: Goroutine) {
    s.tableHeld.None? && s.held == map[] && g !in s.pcs
  }

  // It holds the table's mutex for the issue.
  ghost predicate Entered(s: State, t: State, g: Goroutine, id: string) {
    && t.log == s.log && t.issues == s.issues && t.tableHeld.None?
    && t.pcs.Keys == s.pcs.Keys + {g} && t.pcs[g].Locked? && t.pcs[g].issue == id && t.held == map[t.pcs[g].mu := g]
  }

  lemma EntersTable(s: State, g: Goroutine, id: string)
    requires Idle(s, g)
    ensures var t := Step(Step(Step(s, Spawn(g, id)), LockTable(g)), Look(g));
      && t == s.(pcs := t.pcs, tableHeld := Some(g)) && t.pcs.Keys == s.pcs.Keys + {g}
      && t.pcs[g] == Looked(id, if id in s.table then Some(s.table[id]) else None)
  {}

  lemma LeavesTable(s: State, g: Goroutine)
    requires g in s.pcs && s.pcs[g].Looked? && s.held == map[]
    ensures var t := Step(Step(Step(s, Store(g)), UnlockTable(g)), LockKey(g));
      && t.log == s.log && t.issues == s.issues && t.tableHeld.None? && t.pcs.Keys == s.pcs.Keys
      && t.pcs[g].Locked? && t.pcs[g].issue == s.pcs[g].issue && t.held == map[t.pcs[g].mu := g]
  {}

  lemma Enters(s: State, g: Goroutine, id: string)
    requires Idle(s, g)
    ensures Entered(s, From(s, Enter(g, id)), g, id)
  {
    EnterUnrolls(s, g, id);
    EntersTable(s, g, id);
    hide From, Step;
    LeavesTable(Step(Step(Step(s, Spawn(g, id)), LockTable(g)), Look(g)), g);
  }

  lemma EnterUnrolls(s: State, g: Goroutine, id: string)
    ensures From(s, Enter(g, id)) == Step(Step(Step(Step(Step(Step(
      s, Spawn(g, id)), LockTable(g)), Look(g)), Store(g)), UnlockTable(g)), LockKey(g))
  {
    var e1 := [Spawn(g, id)];
    var e2 := e1 + [LockTable(g)];
    var e3 := e2 + [Look(g)];
    var e4 := e3 + [Store(g)];
    var e5 := e4 + [UnlockTable(g)];
    FromSnoc(s, [], Spawn(g, id));
    assert [] + [Spawn(g, id)] == e1;
    assert From(s, []) == s;
    hide Step, From;
    FromSnoc(s, e1, LockTable(g));
    FromSnoc(s, e2, Look(g));
    FromSnoc(s, e3, Store(g));
    FromSnoc(s, e4, UnlockTable(g));
    FromSnoc(s, e5, LockKey(g));
  }

  lemma PickUnrolls(s: State, g: Goroutine)
    ensures From(s, Pick(g)) ==
      Step(Step(Step(Step(s, Fetch(g, true)), Find(g, false)), Resolve(g, true)), Dispatch(g, true))
  {
    var e1 := [Fetch(g, true)];
    var e2 := e1 + [Find(g, false)];
    var e3 := e2 + [Resolve(g, true)];
    FromSnoc(s, [], Fetch(g, true));
    assert [] + [Fetch(g, true)] == e1;
    assert From(s, []) == s;
    hide Step, From;
    FromSnoc(s, e1, Find(g, false));
    FromSnoc(s, e2, Resolve(g, true));
    FromSnoc(s, e3, Dispatch(g, true));
  }

  lemma Picks(s: State, g: Goroutine, id: string)
    requires g in s.pcs && s.pcs[g].Locked? && s.pcs[g].issue == id && FreshIssue(s, id)
    ensures var t := From(s, Pick(g));
      && t.log == s.log + [Dispatched(id, g)] && t.issues == s.issues && t.tableHeld == s.tableHeld && t.held == s.held
      && t.pcs.Keys == s.pcs.Keys && t.pcs[g] == Moving(id, s.pcs[g].mu)
  {
    PickUnrolls(s, g);
    hide From, FreshIssue;
    var s1 := Step(s, Fetch(g, true));
    var s2 := Step(s1, Find(g, false));
    var s3 := Step(s2, Resolve(g, true));
    assert s1.pcs[g].Fresh? && s2.pcs[g].Unworked? && s3.pcs[g].Resolved?;
  }

  ghost predicate Dispatches(s: State, t: State, g: Goroutine, id: string) {
    && t.log == s.log + [Dispatched(id, g)] && t.issues == s.issues && t.tableHeld.None?
    && t.pcs.Keys == s.pcs.Keys + {g} && t.pcs[g].Moving? && t.pcs[g].issue == id && t.held == map[t.pcs[g].mu := g]
  }

  lemma PicksUp(s: State, g: Goroutine, id: string)
    requires Idle(s, g) && FreshIssue(s, id)
    ensures Dispatches(s, From(From(s, Enter(g, id)), Pick(g)), g, id)
  {
    Enters(s, g, id);
    Picks(From(s, Enter(g, id)), g, id);
    hide From;
  }

  // Afterwards its goroutine tries a move that starts nothing, and leaves.
  lemma MovesNothing(s: State, g: Goroutine, m: MoveResult, h: Goroutine)
    requires g in s.pcs && s.pcs[g].Moving? && s.held == map[s.pcs[g].mu := g] && s.tableHeld.None?
    requires !Starts(m) && h !in s.pcs
    ensures var t := Step(Step(s, Move(g, m)), Unlock(g));
      t.log == s.log + [MoveTried(s.pcs[g].issue, g, m)] && t.issues == s.issues && Idle(t, h)
  {}

  // Up for pickup; picked up; moved without effect; picked up again.
  function Twice(id: string, m: MoveResult): seq<Event> {
    [Edit(id, Issue(true, "unstarted"))] + Enter(0, id) + Pick(0) + [Move(0, m), Unlock(0)] + Enter(1, id) + Pick(1)
  }

  lemma TwiceUnrolls(id: string, m: MoveResult)
    ensures var s := Step(INITIAL, Edit(id, Issue(true, "unstarted")));
      var t := Step(Step(From(From(s, Enter(0, id)), Pick(0)), Move(0, m)), Unlock(0));
      Run(Twice(id, m)) == From(From(t, Enter(1, id)), Pick(1))
  {
    var e := [Edit(id, Issue(true, "unstarted"))];
    assert Run(e) == Step(INITIAL, e[0]);
    hide Step, Enter, Pick;
    RunFrom(e, Enter(0, id));
    RunFrom(e + Enter(0, id), Pick(0));
    var u := Run(e + Enter(0, id) + Pick(0));
    RunFrom(e + Enter(0, id) + Pick(0), [Move(0, m), Unlock(0)]);
    assert [Move(0, m)] + [Unlock(0)] == [Move(0, m), Unlock(0)] && [] + [Move(0, m)] == [Move(0, m)];
    FromSnoc(u, [], Move(0, m));
    FromSnoc(u, [Move(0, m)], Unlock(0));
    assert From(u, []) == u;
    RunFrom(e + Enter(0, id) + Pick(0) + [Move(0, m), Unlock(0)], Enter(1, id));
    RunFrom(e + Enter(0, id) + Pick(0) + [Move(0, m), Unlock(0)] + Enter(1, id), Pick(1));
    hide From, Run;
  }

  lemma TwiceRedispatches(id: string, m: MoveResult)
    requires !Starts(m)
    ensures Redispatched(Twice(id, m), id, m)
  {
    TwiceUnrolls(id, m);
    var s := Step(INITIAL, Edit(id, Issue(true, "unstarted")));
    assert Idle(s, 0) && FreshIssue(s, id) && s.log == [Reopened(id)] && s.pcs.Keys == {};
    PicksUp(s, 0, id);
    hide From, Step, Run, Twice, Enter, Pick;
    var u := From(From(s, Enter(0, id)), Pick(0));
    MovesNothing(u, 0, m, 1);
    var t := Step(Step(u, Move(0, m)), Unlock(0));
    PicksUp(t, 1, id);
    var log := Run(Twice(id, m)).log;
    assert log == [Reopened(id), Dispatched(id, 0), MoveTried(id, 0, m), Dispatched(id, 1)];
    assert RedispatchedAt(log, id, m, 1, 2, 3);
  }

  // For every result of the move: an issue can be dispatched again after it without anybody reopening it
  // if and only if the move left it as it was. Of the results that report no error, that is the one
  // where the team has no started state to move to.
  lemma RedispatchedExactly(id: string, m: MoveResult)
    ensures (exists events :: Redispatched(events, id, m)) <==> m == NoStartedState || m == MoveFailed(false)
  {
    if Starts(m) {
      forall events ensures !Redispatched(events, id, m) { StartedIsNotRedispatched(events, id, m); }
    } else {
      TwiceRedispatches(id, m);
    }
    hide Redispatched;
  }
}
