/** The clone on a session's volume over all the guests that work on it, one after the other: what a
    settled report says about the remote branch. */
module GuestVolume {
  import opened Protocol
  import opened Supervisor

  // A guest boots over the volume, replacing any earlier one, or the present guest runs a turn.
  datatype VolumeEvent = Boot(mode: Mode) | RunTurn(env: TurnEnv)

  // The present guest after the events; at first there is none.
  function Life(r: Repo, events: seq<VolumeEvent>): Guest {
    if events == [] then Guest(Resume, false, r, true)
    else
      var g := Life(r, events[..|events| - 1]);
      match events[|events| - 1]
      case Boot(mode) => Guest(mode, false, g.repo, false)
      case RunTurn(env) => if g.ended then g else Turn(g, env).0
  }

  // A turn in this mode makes a commit, whatever then happens to it.
  predicate Commits(mode: Mode, env: TurnEnv) {
    env.agentOk && NeedsInputFor(mode, env).None? && env.diffOk && (env.tracked || env.untracked) && env.commitOk
  }

  // ... and gets it to the remote.
  predicate Pushes(env: TurnEnv) { env.revParseOk && env.pushOk }

  ghost predicate CommitsAt(r: Repo, events: seq<VolumeEvent>, i: nat)
    requires i < |events|
  {
    var g := Life(r, events[..i]);
    events[i].RunTurn? && !g.ended && Commits(g.mode, events[i].env)
  }

  // The i-th event made the last commit.
  ghost predicate LastCommit(r: Repo, events: seq<VolumeEvent>, i: nat) {
    i < |events| && CommitsAt(r, events, i) && forall j: nat :: i < j < |events| ==> !CommitsAt(r, events, j)
  }

  ghost predicate LastCommitLanded(r: Repo, events: seq<VolumeEvent>) {
    forall i: nat :: LastCommit(r, events, i) ==> Pushes(events[i].env)
  }

  lemma TurnPushes(g: Guest, env: TurnEnv)
    requires g.repo.pushed <= g.repo.commits
    ensures var h := Turn(g, env).0;
      && h.repo.pushed <= h.repo.commits
      && (h.repo.pushed == h.repo.commits <==>
            if Commits(g.mode, env) then Pushes(env) else g.repo.pushed == g.repo.commits)
  {}

  lemma SameCommits(r: Repo, events: seq<VolumeEvent>, e: VolumeEvent, i: nat)
    requires i < |events|
    ensures CommitsAt(r, events + [e], i) <==> CommitsAt(r, events, i)
  {
    hide Life;
    assert (events + [e])[..i] == events[..i];
  }

  lemma LandedGrows(r: Repo, events: seq<VolumeEvent>, e: VolumeEvent)
    ensures LastCommitLanded(r, events + [e]) <==>
      if CommitsAt(r, events + [e], |events|) then Pushes(e.env) else LastCommitLanded(r, events)
  {
    var all, n := events + [e], |events|;
    forall i | 0 <= i < n ensures CommitsAt(r, all, i) <==> CommitsAt(r, events, i) { SameCommits(r, events, e, i); }
    hide CommitsAt, Pushes;
    assert forall i :: 0 <= i < n ==> all[i] == events[i];
    if CommitsAt(r, all, n) {
      assert LastCommit(r, all, n);
    } else {
      assert forall i: nat :: LastCommit(r, all, i) <==> LastCommit(r, events, i);
    }
  }

  // Over any guests, turns and failures on a volume whose commits were all pushed: they still are if and
  // only if the last commit's own turn got it pushed.
  lemma {:induction false} PushedExactly(r: Repo, events: seq<VolumeEvent>)
    requires r.pushed == r.commits
    ensures var h := Life(r, events).repo;
      h.pushed <= h.commits && (h.pushed == h.commits <==> LastCommitLanded(r, events))
  {
    if events != [] {
      var n := |events| - 1;
      var before, e := events[..n], events[n];
      PushedExactly(r, before);
      assert before + [e] == events;
      LandedGrows(r, before, e);
      hide LastCommitLanded, Turn, Commits, Pushes;
      if e.RunTurn? { TurnPushes(Life(r, before), e.env); }
    }
  }

  // What a settled report says about the remote, whatever guests came before: everything is on it if and
  // only if the turn changed something, or the last commit before it had been pushed.
  lemma SettledIsPushedExactly(r: Repo, events: seq<VolumeEvent>, env: TurnEnv)
    requires r.pushed == r.commits && !Life(r, events).ended
    ensures var g := Life(r, events);
      var (h, e) := Turn(g, env);
      SettledEvent(e) ==>
        && Life(r, events + [RunTurn(env)]) == h
        && (h.repo.pushed == h.repo.commits <==> env.tracked || env.untracked || LastCommitLanded(r, events))
  {
    PushedExactly(r, events);
    SettledTurnIsPushed(Life(r, events), env);
    assert (events + [RunTurn(env)])[..|events|] == events;
    hide Turn, LastCommitLanded;
  }

  const ALL_OK := TurnEnv(true, false, false, None, "", 0.0, true, true, true, true, true, true, Some(7), true)

  // It happens: a guest's push fails, the clone stays on the volume, and the next guest, which changes
  // nothing, reports a push while the commit is on no remote branch.
  lemma SettledButUnpushed(mode: Mode, next: Mode)
    requires mode != Plan && next != Plan
    ensures var failed, idle := ALL_OK.(tracked := true, pushOk := false), ALL_OK;
      var g := Life(Repo(0, 0, false, false, 0), [Boot(mode), RunTurn(failed), Boot(next)]);
      var (h, e) := Turn(g, idle);
      !g.ended && SettledEvent(e) && h.repo.commits == 1 && h.repo.pushed == 0
  {
    var r, failed := Repo(0, 0, false, false, 0), ALL_OK.(tracked := true, pushOk := false);
    var e1 := [Boot(mode)];
    var e2 := [Boot(mode), RunTurn(failed)];
    var e3 := [Boot(mode), RunTurn(failed), Boot(next)];
    assert e1[..0] == [] && e2[..1] == e1 && e3[..2] == e2;
    assert Life(r, e1) == Guest(mode, false, r, false);
    assert Life(r, e2).repo == r.(commits := 1);
  }
}
