/** The orphan-VM reaper: list the host's VMs, ask which sessions are still expected, and destroy the
    rest once they are older than a grace period. Times are nanoseconds on one clock. */
module Reaper {
  import opened Protocol
  import SessionId

  // One VM as the host lists it; `startedAt` is in whole seconds.
  datatype VM = VM(session: string, startedAt: int)

  // One answer of the workflow listing: an error, or a page and whether a further page follows.
  datatype Response = QueryError | Page(ids: seq<string>, more: bool)

  const SECOND: int := 1_000_000_000
  const DEFAULT_GRACE: int := 180 * SECOND

  function Unix(t: int): int { t / SECOND }

  // int64(d.Seconds()): truncated towards zero.
  function Seconds(d: int): int {
    if d < 0 then -(-d / SECOND) else d / SECOND
  }

  // The truncation: towards zero, by less than a second.
  lemma SecondsTruncate(d: int)
    ensures d >= 0 ==> Seconds(d) * 1_000_000_000 <= d < (Seconds(d) + 1) * 1_000_000_000
    ensures d < 0 ==> (Seconds(d) - 1) * 1_000_000_000 < d <= Seconds(d) * 1_000_000_000
  {}

  function EffectiveGrace(configured: int): int {
    if configured <= 0 then DEFAULT_GRACE else configured
  }

  // ---- collecting the expected sessions ----

  predicate Ends(r: Response) { r.QueryError? || !r.more }

  ghost predicate Terminates(responses: seq<Response>) {
    exists j :: 0 <= j < |responses| && Ends(responses[j])
  }

  // The answers that are asked for: up to the first error or last page.
  predicate Asked(responses: seq<Response>, j: int) {
    0 <= j < |responses| && forall i :: 0 <= i < j ==> !Ends(responses[i])
  }

  predicate OnPage(responses: seq<Response>, j: int, s: string) {
    Asked(responses, j) && responses[j].Page? && s in responses[j].ids
  }

  /** Collects every page, or nothing: one failed query fails the whole collection. */
  method ExpectedSessions(responses: seq<Response>) returns (r: Option<set<string>>)
    requires Terminates(responses)
    ensures r.None? <==> exists j :: Asked(responses, j) && responses[j].QueryError?
    ensures r.Some? ==>
      forall s :: s in r.value <==>
        SessionId.Valid(s) && exists j :: OnPage(responses, j, s)
  {
    hide SessionId.Valid;
    var sessions: set<string> := {};
    var i := 0;
    while true
      invariant Asked(responses, i)
      invariant forall s :: s in sessions <==>
        SessionId.Valid(s) && exists j :: j < i && OnPage(responses, j, s)
      decreases |responses| - i
    {
      var resp := responses[i];
      if resp.QueryError? { return None; }
      sessions := Insert(sessions, resp.ids);
      if !resp.more {
        assert Ends(responses[i]) && forall s :: OnPage(responses, i, s) <==> s in resp.ids;
        return Some(sessions);
      }
      assert forall s :: OnPage(responses, i, s) <==> s in resp.ids;
      i := i + 1;
    }
  }

  // The ids that are not session-shaped are ignored.
  method Insert(before: set<string>, ids: seq<string>) returns (after: set<string>)
    ensures forall s :: s in after <==> s in before || (SessionId.Valid(s) && s in ids)
  {
    hide SessionId.Valid;
    after := before;
    for k := 0 to |ids|
      invariant forall s :: s in after <==> s in before || (SessionId.Valid(s) && s in ids[..k])
    {
      assert ids[..k + 1] == ids[..k] + [ids[k]];
      if SessionId.Valid(ids[k]) { after := after + {ids[k]}; }
    }
    assert ids[..|ids|] == ids;
  }

  // ---- the orphans ----

  predicate IsOrphan(vm: VM, expected: set<string>, grace: int, now: int) {
    vm.session !in expected && Unix(now) - vm.startedAt >= grace
  }

  function Orphans(actual: seq<VM>, expected: set<string>, grace: int, now: int): seq<string> {
    if actual == [] then []
    else
      var before, vm := Orphans(actual[..|actual| - 1], expected, grace, now), actual[|actual| - 1];
      if IsOrphan(vm, expected, grace, now) then before + [vm.session] else before
  }

  lemma {:induction false} OrphansAre(actual: seq<VM>, expected: set<string>, grace: int, now: int)
    ensures forall s :: s in Orphans(actual, expected, grace, now) <==>
      exists vm :: vm in actual && vm.session == s && IsOrphan(vm, expected, grace, now)
  {
    if actual != [] {
      var before, vm := actual[..|actual| - 1], actual[|actual| - 1];
      OrphansAre(before, expected, grace, now);
      assert actual == before + [vm];
      hide IsOrphan;
      forall s | exists v :: v in actual && v.session == s && IsOrphan(v, expected, grace, now)
        ensures s in Orphans(actual, expected, grace, now)
      {
        var v :| v in actual && v.session == s && IsOrphan(v, expected, grace, now);
        if v in before { assert s in Orphans(before, expected, grace, now); }
      }
    }
  }

  // A VM is old when its age, from the full second it is stamped with to the last full second, is at
  // least the grace period without its fraction of a second.
  predicate Old(vm: VM, grace: int, now: int) {
    now - now % 1_000_000_000 - vm.startedAt * 1_000_000_000 >=
      if grace >= 0 then grace - grace % 1_000_000_000 else grace + -grace % 1_000_000_000
  }

  lemma OrphanIsOld(vm: VM, expected: set<string>, grace: int, now: int)
    ensures IsOrphan(vm, expected, Seconds(grace), now) <==> vm.session !in expected && Old(vm, grace, now)
  {
    assert (if grace >= 0 then grace - grace % SECOND else grace + -grace % SECOND) == Seconds(grace) * SECOND;
    assert now - now % SECOND == Unix(now) * SECOND;
  }

  // The grace period is three minutes unless a positive one is configured.
  predicate OldEnough(vm: VM, configured: int, now: int) {
    Old(vm, if configured > 0 then configured else 180_000_000_000, now)
  }

  method FindOrphans(actual: seq<VM>, expected: set<string>, grace: int, now: int) returns (orphans: seq<string>)
    ensures orphans == Orphans(actual, expected, Seconds(grace), now)
    ensures forall s :: s in orphans <==>
      exists vm :: vm in actual && vm.session == s && s !in expected && Old(vm, grace, now)
  {
    orphans := [];
    for i := 0 to |actual|
      invariant orphans == Orphans(actual[..i], expected, Seconds(grace), now)
    {
      assert actual[..i + 1][..i] == actual[..i];
      var vm := actual[i];
      if vm.session in expected { continue; }
      if Unix(now) - vm.startedAt < Seconds(grace) { continue; }
      orphans := orphans + [vm.session];
    }
    assert actual[..|actual|] == actual;
    OrphansAre(actual, expected, Seconds(grace), now);
    forall vm: VM
      ensures IsOrphan(vm, expected, Seconds(grace), now) <==> vm.session !in expected && Old(vm, grace, now)
    {
      OrphanIsOld(vm, expected, grace, now);
    }
    hide IsOrphan, Old, Seconds;
  }

  // ---- one pass ----

  ghost predicate QueryFails(responses: seq<Response>) {
    exists j :: Asked(responses, j) && responses[j].QueryError?
  }

  // What ExpectedSessions returns when no query failed.
  ghost predicate Collected(responses: seq<Response>, expected: set<string>) {
    !QueryFails(responses) &&
    forall s :: s in expected <==> SessionId.Valid(s) && exists j :: OnPage(responses, j, s)
  }

  ghost predicate Found(
      listing: Option<seq<VM>>, responses: seq<Response>, grace: int, now: int, orphans: seq<string>) {
    listing.Some? && exists expected ::
      Collected(responses, expected) && orphans == Orphans(listing.value, expected, Seconds(EffectiveGrace(grace)), now)
  }

  // No page that was asked for has the session.
  ghost predicate Unclaimed(responses: seq<Response>, s: string) {
    SessionId.Valid(s) ==> forall j :: !OnPage(responses, j, s)
  }

  // One of the session's listed VMs is unclaimed and old enough.
  ghost predicate Reapable(listing: seq<VM>, responses: seq<Response>, grace: int, now: int, s: string) {
    exists vm :: vm in listing && vm.session == s && Unclaimed(responses, s) && OldEnough(vm, grace, now)
  }

  // What a pass finds, without reference to how it looks.
  lemma FoundAreReapable(listing: seq<VM>, responses: seq<Response>, grace: int, now: int, orphans: seq<string>)
    requires Found(Some(listing), responses, grace, now, orphans)
    ensures forall s :: s in orphans <==> Reapable(listing, responses, grace, now, s)
  {
    var secs := Seconds(EffectiveGrace(grace));
    var expected :| Collected(responses, expected) && orphans == Orphans(listing, expected, secs, now);
    OrphansAre(listing, expected, secs, now);
    hide SessionId.Valid, Orphans, IsOrphan, Old;
    forall vm: VM ensures vm.session !in expected <==> Unclaimed(responses, vm.session) {}
    forall vm: VM
      ensures IsOrphan(vm, expected, secs, now) <==>
        Unclaimed(responses, vm.session) && OldEnough(vm, grace, now)
    {
      OrphanIsOld(vm, expected, EffectiveGrace(grace), now);
    }
  }

  // To the nanosecond of the real boot: nothing younger than the grace period less two seconds is
  // reaped, and everything unclaimed that outlived it by a second is.
  lemma ReapedByAge(vm: VM, boot: int, configured: int, now: int)
    requires vm.startedAt * 1_000_000_000 <= boot < (vm.startedAt + 1) * 1_000_000_000
    ensures var grace := if configured > 0 then configured else 180_000_000_000;
      && (OldEnough(vm, configured, now) ==> now - boot > grace - 2_000_000_000)
      && (now - boot >= grace + 1_000_000_000 ==> OldEnough(vm, configured, now))
  {}

  /** Fails closed: an error listing the VMs or querying the workflows finds nothing. */
  method FindOrphanVMs(listing: Option<seq<VM>>, responses: seq<Response>, grace: int, now: int)
    returns (orphans: Option<seq<string>>)
    requires Terminates(responses)
    ensures orphans.None? <==> listing.None? || QueryFails(responses)
    ensures orphans.Some? ==> Found(listing, responses, grace, now, orphans.value)
    ensures orphans.Some? ==>
      forall s :: s in orphans.value <==> Reapable(listing.value, responses, grace, now, s)
  {
    if listing.None? { return None; }
    var expected := ExpectedSessions(responses);
    if expected.None? { return None; }
    assert Collected(responses, expected.value);
    var found := FindOrphans(listing.value, expected.value, EffectiveGrace(grace), now);
    FoundAreReapable(listing.value, responses, grace, now, found);
    return Some(found);
  }

  // A destroy activity, after its retries; a failed one may still have stopped the VM.
  datatype Outcome = Destroyed | FailedButGone | FailedStanding

  function Succeeded(orphans: seq<string>, outcome: string -> Outcome): seq<string> {
    if orphans == [] then []
    else
      var before, s := Succeeded(orphans[..|orphans| - 1], outcome), orphans[|orphans| - 1];
      if outcome(s).Destroyed? then before + [s] else before
  }

  lemma {:induction false} SucceededAre(orphans: seq<string>, outcome: string -> Outcome)
    ensures forall s :: s in Succeeded(orphans, outcome) <==> s in orphans && outcome(s).Destroyed?
  {
    if orphans != [] {
      var n := |orphans| - 1;
      SucceededAre(orphans[..n], outcome);
      assert orphans == orphans[..n] + [orphans[n]];
    }
  }

  function Left(standing: set<string>, orphans: seq<string>, outcome: string -> Outcome): set<string> {
    set s | s in standing && (s in orphans ==> outcome(s).FailedStanding?)
  }

  /** The host's VMs as the reaper's destroys change them. */
  class Fleet {
    var standing: set<string>

    constructor (vms: set<string>)
      ensures standing == vms
    {
      standing := vms;
    }

    method DestroyVM(s: string, outcome: Outcome) returns (ok: bool)
      modifies this
      ensures standing == if outcome.FailedStanding? then old(standing) else old(standing) - {s}
      ensures ok == outcome.Destroyed?
    {
      if !outcome.FailedStanding? { standing := standing - {s}; }
      return outcome.Destroyed?;
    }

    /** One run of the reaper workflow: destroys exactly the orphans it found, going on after a failed
        destroy; finds nothing and destroys nothing on an error. */
    method Reconcile(
        listing: Option<seq<VM>>, responses: seq<Response>, grace: int, now: int, outcome: string -> Outcome)
      returns (reaped: Option<seq<string>>)
      requires Terminates(responses)
      modifies this
      ensures reaped.None? <==> listing.None? || QueryFails(responses)
      ensures reaped.None? ==> standing == old(standing)
      ensures reaped.Some? ==> exists orphans ::
        && Found(listing, responses, grace, now, orphans)
        && standing == Left(old(standing), orphans, outcome)
        && reaped.value == Succeeded(orphans, outcome)
      ensures reaped.Some? ==> forall s :: s in standing <==>
        s in old(standing) && !(Reapable(listing.value, responses, grace, now, s) && !outcome(s).FailedStanding?)
      ensures reaped.Some? ==> forall s :: s in reaped.value <==>
        Reapable(listing.value, responses, grace, now, s) && outcome(s).Destroyed?
    {
      var found := FindOrphanVMs(listing, responses, grace, now);
      if found.None? { return None; }
      var orphans := found.value;
      var done: seq<string> := [];
      ghost var before := standing;
      hide Found, Terminates, QueryFails, Reapable;
      for i := 0 to |orphans|
        invariant standing == Left(before, orphans[..i], outcome) && done == Succeeded(orphans[..i], outcome)
      {
        assert orphans[..i + 1][..i] == orphans[..i];
        var ok := DestroyVM(orphans[i], outcome(orphans[i]));
        if !ok { continue; }
        done := done + [orphans[i]];
      }
      assert orphans[..|orphans|] == orphans;
      SucceededAre(orphans, outcome);
      return Some(done);
    }
  }

  // After a pass whose every destroy succeeded, each listed VM still standing is expected or younger
  // than the grace period, and each VM that is gone was a listed orphan.
  lemma CleanPass(
      listing: seq<VM>, expected: set<string>, grace: int, now: int, standing: set<string>, outcome: string -> Outcome)
    requires forall s :: s in Orphans(listing, expected, grace, now) ==> outcome(s).Destroyed?
    ensures var left := Left(standing, Orphans(listing, expected, grace, now), outcome);
      && (forall vm :: vm in listing && vm.session in left ==>
            vm.session in expected || Unix(now) - vm.startedAt < grace)
      && (forall s :: s in standing && s !in left ==>
            exists vm :: vm in listing && vm.session == s && IsOrphan(vm, expected, grace, now))
  {
    OrphansAre(listing, expected, grace, now);
    forall vm | vm in listing && vm.session in Left(standing, Orphans(listing, expected, grace, now), outcome)
      ensures vm.session in expected || Unix(now) - vm.startedAt < grace
    {
      assert IsOrphan(vm, expected, grace, now) ==> vm.session in Orphans(listing, expected, grace, now);
    }
  }

  // ---- timed safety ----

  datatype Workflow = Workflow(start: int, end: Option<int>)

  predicate RunningAt(w: Workflow, t: int) {
    w.start <= t && (w.end.Some? ==> t < w.end.value)
  }

  // One pass against the world: when each listed VM really booted, when the VMs were listed, when the
  // paging started, and the clock reading the ages are computed with.
  datatype Scenario = Scenario(
    world: map<string, Workflow>, boots: map<string, int>, listing: seq<VM>, responses: seq<Response>,
    tList: int, tQuery: int, tNow: int)

  // A VM boots no earlier than its workflow and is stamped in whole seconds; every workflow that
  // started `lag` before the paging and is still running when the ages are computed is on some page;
  // the paging takes at most `delay`.
  ghost predicate Admissible(sc: Scenario, lag: int, delay: int) {
    && 0 <= sc.tList <= sc.tQuery <= sc.tNow <= sc.tQuery + delay
    && Terminates(sc.responses)
    && (forall vm :: vm in sc.listing ==>
          && vm.session in sc.boots && vm.startedAt == Unix(sc.boots[vm.session])
          && 0 <= sc.boots[vm.session] <= sc.tList
          && (vm.session in sc.world ==> sc.world[vm.session].start <= sc.boots[vm.session]))
    && (forall s :: s in sc.world ==> SessionId.Valid(s))
    && (!QueryFails(sc.responses) ==>
          forall s :: s in sc.world && sc.world[s].start + lag <= sc.tQuery && RunningAt(sc.world[s], sc.tNow) ==>
            exists j :: OnPage(sc.responses, j, s))
  }

  // No VM whose workflow is running when it is destroyed, at whatever later time, is destroyed.
  ghost predicate Safe(lag: int, delay: int, grace: int) {
    forall sc: Scenario, orphans: seq<string>, s: string, t: int ::
      (&& Admissible(sc, lag, delay)
       && Found(Some(sc.listing), sc.responses, grace, sc.tNow, orphans)
       && s in orphans && s in sc.world && sc.tNow <= t)
      ==> !RunningAt(sc.world[s], t)
  }

  // The condition on the three periods: visibility is immediate, or the lag, the paging and one second
  // of truncation fit into the whole seconds of the grace period (to the nanosecond).
  predicate GraceCovers(lag: int, delay: int, configured: int) {
    var grace := if configured > 0 then configured else 180_000_000_000;
    lag == 0 || lag + delay + 1_000_000_000 <= grace - grace % 1_000_000_000 + 1
  }

  lemma GraceCoversSeconds(lag: int, delay: int, grace: int)
    ensures GraceCovers(lag, delay, grace) <==>
      lag == 0 || lag + delay + SECOND <= Seconds(EffectiveGrace(grace)) * SECOND + 1
  {
    var g := EffectiveGrace(grace);
    assert g - g % SECOND == Seconds(g) * SECOND;
  }

  lemma OrphanIsNotRunning(sc: Scenario, lag: int, delay: int, grace: int, orphans: seq<string>, s: string, t: int)
    requires 0 <= lag && 0 <= delay && GraceCovers(lag, delay, grace)
    requires Admissible(sc, lag, delay) && Found(Some(sc.listing), sc.responses, grace, sc.tNow, orphans)
    requires s in orphans && s in sc.world && sc.tNow <= t
    ensures !RunningAt(sc.world[s], t)
  {
    var secs := Seconds(EffectiveGrace(grace));
    var expected :| Collected(sc.responses, expected) && orphans == Orphans(sc.listing, expected, secs, sc.tNow);
    OrphansAre(sc.listing, expected, secs, sc.tNow);
    var vm :| vm in sc.listing && vm.session == s && IsOrphan(vm, expected, secs, sc.tNow);
    var w, boot := sc.world[s], sc.boots[s];
    assert w.start <= boot <= sc.tList;
    GraceCoversSeconds(lag, delay, grace);
    AgeBound(boot, sc.tNow, lag + delay, secs);
    assert w.start + lag <= sc.tQuery;
    assert RunningAt(w, t) ==> RunningAt(w, sc.tNow);
  }

  // A VM whose age in whole seconds has reached the grace period really is that old, up to one second.
  lemma AgeBound(boot: int, now: int, gap: int, secs: int)
    requires Unix(now) - Unix(boot) >= secs
    ensures gap + SECOND <= secs * SECOND + 1 ==> now - boot >= gap
  {}

  // One VM whose workflow has not surfaced yet, booted a nanosecond before a full second and looked at
  // as late as lag and delay allow.
  function LateSurfacing(s: string, lag: int, delay: int): Scenario {
    var boot := SECOND - 1;
    Scenario(map[s := Workflow(boot, None)], map[s := boot], [VM(s, 0)], [Page([], false)],
             boot, boot + lag - 1, boot + lag - 1 + delay)
  }

  lemma LateSurfacingIsReaped(s: string, lag: int, delay: int, grace: int)
    requires SessionId.Valid(s) && 1 <= lag && 0 <= delay && !GraceCovers(lag, delay, grace)
    ensures var sc := LateSurfacing(s, lag, delay);
      && Admissible(sc, lag, delay)
      && Found(Some(sc.listing), sc.responses, grace, sc.tNow, [s])
      && RunningAt(sc.world[s], sc.tNow)
  {
    var sc := LateSurfacing(s, lag, delay);
    hide SessionId.Valid;
    GraceCoversSeconds(lag, delay, grace);
    var secs := Seconds(EffectiveGrace(grace));
    assert Ends(sc.responses[0]);
    assert Collected(sc.responses, {});
    assert Unix(sc.tNow) >= secs;
    assert Orphans(sc.listing, {}, secs, sc.tNow) == [s] by {
      assert sc.listing[..0] == [];
      assert IsOrphan(sc.listing[0], {}, secs, sc.tNow);
    }
  }

  // The reaper never destroys the VM of a running workflow, in any pass, if and only if the grace
  // period covers the lag and the paging.
  lemma SafeExactlyWhenGraceCovers(lag: int, delay: int, grace: int)
    requires 0 <= lag && 0 <= delay
    ensures Safe(lag, delay, grace) <==> GraceCovers(lag, delay, grace)
  {
    if GraceCovers(lag, delay, grace) {
      forall sc: Scenario, orphans: seq<string>, s: string, t: int
        | Admissible(sc, lag, delay) && Found(Some(sc.listing), sc.responses, grace, sc.tNow, orphans)
          && s in orphans && s in sc.world && sc.tNow <= t
        ensures !RunningAt(sc.world[s], t)
      {
        OrphanIsNotRunning(sc, lag, delay, grace, orphans, s, t);
      }
    } else {
      var s := "s_00000000000000000000000000";
      assert SessionId.Valid(s);
      LateSurfacingIsReaped(s, lag, delay, grace);
      var sc := LateSurfacing(s, lag, delay);
      assert s in [s] && s in sc.world;
    }
  }

  // A fraction of a second in the grace period counts for nothing: periods that would fit the exact
  // duration can still be unsafe.
  lemma FractionOfGraceIsLost()
    ensures var lag, delay, grace := 1_800_000_000, 100_000_000, 2_900_000_000;
      lag + delay + SECOND <= grace && !Safe(lag, delay, grace)
  {
    SafeExactlyWhenGraceCovers(1_800_000_000, 100_000_000, 2_900_000_000);
  }
}
