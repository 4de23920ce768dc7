/** What a Linear pickup checks before it dispatches. */
module LinearGuards {
  import opened Protocol
  import opened LinearPickup

  // The issue is labelled and in one of the states that mean "to do".
  ghost predicate WasFresh(s: State, id: string) {
    && id in s.issues && s.issues[id].labelled
    && s.issues[id].stateType in {"triage", "backlog", "unstarted"}
  }

  // One goroutine in its critical section: what the five answers and the issue make of it.
  lemma PickupExactly(s: State, g: Goroutine, fetched: bool, found: bool, resolved: bool, started: bool)
    requires g in s.pcs && s.pcs[g].Locked?
    ensures var id := s.pcs[g].issue;
      var t := Step(Step(Step(Step(s, Fetch(g, fetched)), Find(g, found)), Resolve(g, resolved)), Dispatch(g, started));
      var picked := fetched && WasFresh(s, id) && !found && resolved && started;
      && t.log == (if picked then s.log + [Dispatched(id, g)] else s.log)
      && t.issues == s.issues && t.held == s.held
      && t.pcs[g] == (if picked then Moving(id, s.pcs[g].mu) else Unlocking(id, s.pcs[g].mu))
  {
    var s1 := Step(s, Fetch(g, fetched));
    assert s1.pcs[g] == if fetched && WasFresh(s, s.pcs[g].issue) then Fresh(s.pcs[g].issue, s.pcs[g].mu)
                        else Unlocking(s.pcs[g].issue, s.pcs[g].mu);
    hide FreshIssue;
    var s2 := Step(s1, Find(g, found));
    var s3 := Step(s2, Resolve(g, resolved));
    assert s1.pcs[g].Fresh? || s1.pcs[g].Unlocking?;
    assert s2.pcs[g].Unworked? || s2.pcs[g].Unlocking?;
    assert s3.pcs[g].Resolved? || s3.pcs[g].Unlocking?;
  }

  // ---- under every interleaving ----

  predicate PastFetch(pc: PC) { pc.Fresh? || pc.Unworked? || pc.Resolved? || pc.Moving? }
  predicate PastFind(pc: PC) { pc.Unworked? || pc.Resolved? || pc.Moving? }
  predicate PastResolve(pc: PC) { pc.Resolved? || pc.Moving? }

  // The goroutine fetched the issue at event i, while holding its lock, and it was fresh.
  ghost predicate FetchedAt(events: seq<Event>, g: Goroutine, id: string, i: nat) {
    && i < |events| && events[i] == Fetch(g, true)
    && var s := Run(events[..i]); At(s, g).Locked? && At(s, g).issue == id && WasFresh(s, id)
  }

  // It then found no running workflow, knew a repository, and started one.
  ghost predicate FoundNone(events: seq<Event>, g: Goroutine, i: nat) {
    exists j :: i < j < |events| && events[j] == Find(g, false)
  }

  ghost predicate Knew(events: seq<Event>, g: Goroutine, i: nat) {
    exists j :: i < j < |events| && events[j] == Resolve(g, true)
  }

  ghost predicate Checked(events: seq<Event>, g: Goroutine, pc: PC, i: nat)
    requires PastFetch(pc)
  {
    && FetchedAt(events, g, pc.issue, i)
    && (PastFind(pc) ==> FoundNone(events, g, i))
    && (PastResolve(pc) ==> Knew(events, g, i))
  }

  ghost predicate AllChecked(events: seq<Event>, s: State) {
    forall g :: g in s.pcs && PastFetch(s.pcs[g]) ==> exists i: nat :: Checked(events, g, s.pcs[g], i)
  }

  // Everything dispatched had passed the checks.
  ghost predicate DispatchesChecked(events: seq<Event>, log: seq<Obs>) {
    forall q :: 0 <= q < |log| && log[q].Dispatched? ==>
      exists i: nat ::
        && FetchedAt(events, log[q].who, log[q].issue, i)
        && FoundNone(events, log[q].who, i) && Knew(events, log[q].who, i)
  }

  lemma FetchedGrows(events: seq<Event>, e: Event, g: Goroutine, id: string, i: nat)
    requires FetchedAt(events, g, id, i)
    ensures FetchedAt(events + [e], g, id, i)
  {
    hide Run;
    assert (events + [e])[..i] == events[..i] && (events + [e])[i] == events[i];
  }

  lemma AnswersGrow(events: seq<Event>, e: Event, g: Goroutine, i: nat)
    ensures FoundNone(events, g, i) ==> FoundNone(events + [e], g, i)
    ensures Knew(events, g, i) ==> Knew(events + [e], g, i)
    ensures i < |events| && e == Find(g, false) ==> FoundNone(events + [e], g, i)
    ensures i < |events| && e == Resolve(g, true) ==> Knew(events + [e], g, i)
  {
    var all := events + [e];
    assert forall j :: 0 <= j < |events| ==> all[j] == events[j];
    assert all[|events|] == e;
    if FoundNone(events, g, i) {
      var j :| i < j < |events| && events[j] == Find(g, false);
      assert all[j] == Find(g, false);
    }
    if Knew(events, g, i) {
      var j :| i < j < |events| && events[j] == Resolve(g, true);
      assert all[j] == Resolve(g, true);
    }
  }

  // How a goroutine gets past a check.
  lemma StepPasses(s: State, e: Event, g: Goroutine)
    requires g in Step(s, e).pcs && PastFetch(Step(s, e).pcs[g])
    ensures var pc := Step(s, e).pcs[g];
      || (g in s.pcs && pc == s.pcs[g])
      || (e == Fetch(g, true) && At(s, g).Locked? && At(s, g).issue == pc.issue && WasFresh(s, pc.issue) && pc.Fresh?)
      || (e == Find(g, false) && g in s.pcs && s.pcs[g].Fresh? && s.pcs[g].issue == pc.issue && pc.Unworked?)
      || (e == Resolve(g, true) && g in s.pcs && s.pcs[g].Unworked? && s.pcs[g].issue == pc.issue && pc.Resolved?)
      || (e == Dispatch(g, true) && g in s.pcs && s.pcs[g].Resolved? && s.pcs[g].issue == pc.issue && pc.Moving?)
  {}

  lemma StepDispatches(s: State, e: Event)
    ensures var t := Step(s, e);
      || t.log == s.log
      || (exists o :: t.log == s.log + [o] && !o.Dispatched?)
      || (e.Dispatch? && e.g in s.pcs && s.pcs[e.g].Resolved? && t.log == s.log + [Dispatched(s.pcs[e.g].issue, e.g)])
  {
    var t := Step(s, e);
    if t.log != s.log && !e.Dispatch? {
      assert t.log == s.log + [t.log[|s.log|]];
    }
  }

  lemma CheckedStep(events: seq<Event>, e: Event, g: Goroutine)
    requires AllChecked(events, Run(events))
    requires g in Step(Run(events), e).pcs && PastFetch(Step(Run(events), e).pcs[g])
    ensures exists i: nat :: Checked(events + [e], g, Step(Run(events), e).pcs[g], i)
  {
    var s, all := Run(events), events + [e];
    StepPasses(s, e, g);
    var pc := Step(s, e).pcs[g];
    hide Run, Step, WasFresh;
    if e == Fetch(g, true) && At(s, g).Locked? && pc.Fresh? {
      assert all[..|events|] == events && all[|events|] == e;
      assert FetchedAt(all, g, pc.issue, |events|);
      assert Checked(all, g, pc, |events|);
    } else {
      var i: nat :| Checked(events, g, s.pcs[g], i);
      CheckedGrows(events, e, g, s.pcs[g], pc, i);
      hide Checked;
    }
  }

  lemma CheckedGrows(events: seq<Event>, e: Event, g: Goroutine, before: PC, pc: PC, i: nat)
    requires PastFetch(before) && PastFetch(pc) && before.issue == pc.issue && Checked(events, g, before, i)
    requires
      || pc == before || (e == Find(g, false) && before.Fresh? && pc.Unworked?)
      || (e == Resolve(g, true) && before.Unworked? && pc.Resolved?) || (before.Resolved? && pc.Moving?)
    ensures Checked(events + [e], g, pc, i)
  {
    FetchedGrows(events, e, g, pc.issue, i);
    AnswersGrow(events, e, g, i);
    hide FoundNone, Knew, Run, WasFresh;
  }

  lemma DispatchStep(events: seq<Event>, e: Event)
    requires AllChecked(events, Run(events)) && DispatchesChecked(events, Run(events).log)
    ensures DispatchesChecked(events + [e], Step(Run(events), e).log)
  {
    var s, all := Run(events), events + [e];
    var log := Step(s, e).log;
    StepDispatches(s, e);
    hide Run, Step, FetchedAt, FoundNone, Knew;
    forall q | 0 <= q < |log| && log[q].Dispatched?
      ensures exists i: nat ::
        FetchedAt(all, log[q].who, log[q].issue, i) && FoundNone(all, log[q].who, i) && Knew(all, log[q].who, i)
    {
      var g := log[q].who;
      if q < |s.log| {
        assert log[q] == s.log[q];
        var i: nat :| FetchedAt(events, g, log[q].issue, i) && FoundNone(events, g, i) && Knew(events, g, i);
        FetchedGrows(events, e, g, log[q].issue, i);
        AnswersGrow(events, e, g, i);
      } else {
        var i: nat :| Checked(events, g, s.pcs[g], i);
        FetchedGrows(events, e, g, log[q].issue, i);
        AnswersGrow(events, e, g, i);
      }
    }
  }

  lemma {:induction false} RunChecks(events: seq<Event>)
    ensures AllChecked(events, Run(events)) && DispatchesChecked(events, Run(events).log)
  {
    if events != [] {
      var before, e := events[..|events| - 1], events[|events| - 1];
      RunChecks(before);
      assert before + [e] == events;
      var s := Run(before);
      assert Run(events) == Step(s, e);
      hide Run, Step, Checked, PastFetch;
      forall g | g in Step(s, e).pcs && PastFetch(Step(s, e).pcs[g])
        ensures exists i: nat :: Checked(events, g, Step(s, e).pcs[g], i)
      {
        CheckedStep(before, e, g);
      }
      DispatchStep(before, e);
    }
  }

  // Under every interleaving, each dispatch was of an issue that its goroutine had fetched under the
  // issue's lock, carrying the label and in a to-do state, for which it had found no running workflow
  // and a repository.
  lemma DispatchedWasFresh(events: seq<Event>, q: nat)
    requires q < |Run(events).log| && Run(events).log[q].Dispatched?
    ensures var o := Run(events).log[q];
      exists i: nat :: FetchedAt(events, o.who, o.issue, i) && FoundNone(events, o.who, i) && Knew(events, o.who, i)
  {
    RunChecks(events);
  }
}
