/** What the VM manager keeps over every run of launches, destroys and VM exits with failing
    collaborators. */
module ManagerLaws {
  import opened Protocol
  import opened Network
  import opened Manager
  import SessionId

  datatype Step =
    | LaunchStep(req: LaunchRequest, launch: LaunchEnv)
    | DestroyStep(id: string, purge: bool, destroy: DestroyEnv)
    | Exit(pid: int)   // a VM ends by itself

  // The state directory lists every session, and a booted VM has a new pid.
  predicate Possible(h: Host, s: Step) {
    s.LaunchStep? ==>
      && (forall id :: id in h.store ==> id in s.launch.listing)
      && (s.launch.boot.Some? ==> s.launch.boot.value > 0 && s.launch.boot.value !in h.procs)
  }

  ghost function Apply(cfg: Config, h: Host, s: Step): Host {
    if !Possible(h, s) then h
    else
      match s
      case LaunchStep(req, env) => Launch(cfg, h, req, env).0
      case DestroyStep(id, purge, env) => Destroy(h, id, purge, env).0
      case Exit(pid) => h.(procs := h.procs - {pid})
  }

  ghost function Run(cfg: Config, h: Host, steps: seq<Step>): Host {
    if steps == [] then h else Apply(cfg, Run(cfg, h, steps[..|steps| - 1]), steps[|steps| - 1])
  }

  // No launch misses another session's record.
  predicate SeesOthers(h: Host, s: Step) {
    s.LaunchStep? ==> forall id :: id in h.store && id in s.launch.unreadable ==> id == s.req.session
  }

  ghost predicate SeesOthersThroughout(cfg: Config, h: Host, steps: seq<Step>) {
    steps == [] ||
    (SeesOthersThroughout(cfg, h, steps[..|steps| - 1])
     && SeesOthers(Run(cfg, h, steps[..|steps| - 1]), steps[|steps| - 1]))
  }

  // ---- capacity and disjoint blocks ----

  // The record's addresses are block k of the pool.
  ghost predicate OnBlock(cfg: Config, rec: VMRecord, k: nat) {
    && cfg.subnet.Prefix4?
    && k < Blocks(cfg.subnet.bits)
    && rec.guestIP == Base(Masked(cfg.subnet.addr, cfg.subnet.bits), k) + 2
    && rec.hostIP == Base(Masked(cfg.subnet.addr, cfg.subnet.bits), k) + 1
  }

  ghost predicate Placed(cfg: Config, id: string, rec: VMRecord) {
    SessionId.Valid(id) && rec.session == id && exists k :: OnBlock(cfg, rec, k)
  }

  function Capacity(cfg: Config): nat { if cfg.maxVMs < 0 then 0 else cfg.maxVMs }

  ghost predicate Fleet(cfg: Config, store: map<string, VMRecord>) {
    && |store| <= Capacity(cfg)
    && (forall id :: id in store ==> Placed(cfg, id, store[id]))
    && (forall a, b :: a in store && b in store && a != b ==> store[a].guestIP != store[b].guestIP)
  }

  ghost predicate DisjointBlocks(a: VMRecord, b: VMRecord) {
    // a block is the four addresses from one below the host's to one above the guest's
    a.guestIP + 1 < b.hostIP - 1 || b.guestIP + 1 < a.hostIP - 1
  }

  lemma DifferentGuestsAreDisjoint(cfg: Config, a: VMRecord, b: VMRecord, i: nat, j: nat)
    requires OnBlock(cfg, a, i) && OnBlock(cfg, b, j) && a.guestIP != b.guestIP
    ensures DisjointBlocks(a, b)
  {
    hide Masked, Blocks;
    assert i != j;
  }

  lemma {:induction false} ReadableSeesAll(
      store: map<string, VMRecord>, listing: seq<string>, unreadable: set<string>, id: string)
    requires id in store && id in listing && id !in unreadable && SessionId.Valid(id)
    ensures store[id] in Readable(store, listing, unreadable)
  {
    hide SessionId.Valid;
    var n := |listing| - 1;
    if id != listing[n] { ReadableSeesAll(store, listing[..n], unreadable, id); }
  }

  lemma {:induction false} ReadableCounts(
      store: map<string, VMRecord>, listing: seq<string>, unreadable: set<string>, ids: set<string>)
    requires forall id :: id in ids ==> id in store && id in listing && id !in unreadable && SessionId.Valid(id)
    ensures |ids| <= |Readable(store, listing, unreadable)|
  {
    hide SessionId.Valid;
    if listing == [] {
      assert ids == {};
    } else {
      var n := |listing| - 1;
      ReadableCounts(store, listing[..n], unreadable, ids - {listing[n]});
      if listing[n] !in ids { assert ids - {listing[n]} == ids; }
    }
  }

  lemma RemoveKeepsFleet(cfg: Config, store: map<string, VMRecord>, id: string)
    requires Fleet(cfg, store)
    ensures Fleet(cfg, store - {id})
  {
    hide Placed;
    var after := store - {id};
    assert after.Keys == store.Keys - {id};
    if id in store { assert |after.Keys| == |store.Keys| - 1; } else { assert after.Keys == store.Keys; }
  }

  // ---- which launches are harmless ----

  // The host on which a launch that has to boot picks its block: a dead record of its own is cleared.
  ghost predicate HasToBoot(h: Host, req: LaunchRequest, env: LaunchEnv) {
    && SessionId.Valid(req.session) && !req.forbiddenKey
    && !(Get(h, req.session, req.session in env.unreadable).Found? && h.store[req.session].pid in h.procs)
  }

  function Cleared(h: Host, req: LaunchRequest, env: LaunchEnv): Host {
    if Get(h, req.session, req.session in env.unreadable).Found?
    then ClearStale(h, h.store[req.session], req.session, env) else h
  }

  // The block the allocator finds over the records it can read.
  ghost function Found(cfg: Config, h: Host, req: LaunchRequest, env: LaunchEnv): Allocation
    requires SessionId.Valid(req.session)
  {
    FirstFit(SessionId.TapName(req.session), cfg.subnet, cfg.anchor,
             InUse(Readable(h.store, env.listing, env.unreadable)))
  }

  // The launch gets as far as writing a record.
  ghost predicate Writes(cfg: Config, h: Host, req: LaunchRequest, env: LaunchEnv)
    requires SessionId.Valid(req.session)
  {
    && env.listOk && |Readable(h.store, env.listing, env.unreadable)| < cfg.maxVMs && env.rootfsOk
    && env.volume.VolumeReady? && Found(cfg, h, req, env).Allocated? && env.tap.TapUp? && env.boot.Some?
    && (env.put.Stored? || env.put.recordWritten)
  }

  predicate RoomFor(cfg: Config, h: Host, id: string) {
    id in h.store || |h.store| < Capacity(cfg)
  }

  // A record it cannot read, of another session, has the block it found.
  ghost predicate Collides(cfg: Config, h: Host, req: LaunchRequest, env: LaunchEnv)
    requires SessionId.Valid(req.session) && Found(cfg, h, req, env).Allocated?
  {
    exists id :: id in h.store && id in env.unreadable && id != req.session
      && h.store[id].guestIP == Found(cfg, h, req, env).net.guestIP
  }

  ghost predicate HarmlessPlace(cfg: Config, h: Host, req: LaunchRequest, env: LaunchEnv)
    requires SessionId.Valid(req.session)
  {
    Writes(cfg, h, req, env) ==> RoomFor(cfg, h, req.session) && !Collides(cfg, h, req, env)
  }

  ghost predicate Harmless(cfg: Config, h: Host, s: Step) {
    s.LaunchStep? && Possible(h, s) && HasToBoot(h, s.req, s.launch) ==>
      HarmlessPlace(cfg, Cleared(h, s.req, s.launch), s.req, s.launch)
  }

  ghost predicate HarmlessThroughout(cfg: Config, h: Host, steps: seq<Step>) {
    steps == [] ||
    (HarmlessThroughout(cfg, h, steps[..|steps| - 1])
     && Harmless(cfg, Run(cfg, h, steps[..|steps| - 1]), steps[|steps| - 1]))
  }

  ghost predicate FleetThroughout(cfg: Config, h: Host, steps: seq<Step>) {
    Fleet(cfg, Run(cfg, h, steps).store) && (steps == [] || FleetThroughout(cfg, h, steps[..|steps| - 1]))
  }

  // A new record keeps the fleet exactly when there is room for it and no other record has its address.
  lemma PutExactly(cfg: Config, store: map<string, VMRecord>, rec: VMRecord)
    requires Fleet(cfg, store) && Placed(cfg, rec.session, rec)
    ensures Fleet(cfg, store[rec.session := rec]) <==>
      && (rec.session in store || |store| < Capacity(cfg))
      && forall id :: id in store && id != rec.session ==> store[id].guestIP != rec.guestIP
  {
    hide Placed;
    var after := store[rec.session := rec];
    assert after.Keys == store.Keys + {rec.session};
    assert forall id :: id in store && id != rec.session ==> after[id] == store[id];
    assert after[rec.session] == rec;
  }

  // The record a launch writes is on the block the allocator found, which no readable record has.
  lemma FoundIsFree(cfg: Config, h: Host, req: LaunchRequest, env: LaunchEnv, rec: VMRecord)
    requires SessionId.Valid(req.session) && Found(cfg, h, req, env).Allocated? && env.boot.Some?
    requires rec == RecordOf(cfg, req, env, Found(cfg, h, req, env).net, env.boot.value)
    requires forall id :: id in h.store ==> SessionId.Valid(id) && id in env.listing
    ensures Placed(cfg, req.session, rec)
    ensures forall id :: id in h.store && id !in env.unreadable ==> h.store[id].guestIP != rec.guestIP
  {
    var list := Readable(h.store, env.listing, env.unreadable);
    hide Masked, Blocks, Readable, SessionId.Valid, FirstFit, InUse;
    var k := AllocatedBlock(SessionId.TapName(req.session), cfg.subnet, cfg.anchor, InUse(list));
    assert OnBlock(cfg, rec, k);
    forall id | id in h.store && id !in env.unreadable ensures h.store[id].guestIP != rec.guestIP {
      ReadableSeesAll(h.store, env.listing, env.unreadable, id);
      InUseHas(list, h.store[id]);
    }
  }

  lemma WritesOrKeeps(cfg: Config, h: Host, req: LaunchRequest, env: LaunchEnv)
    requires SessionId.Valid(req.session)
    ensures var store := Place(cfg, h, req, env).0.store;
      if Writes(cfg, h, req, env)
      then store == h.store[req.session := RecordOf(cfg, req, env, Found(cfg, h, req, env).net, env.boot.value)]
      else store == h.store
  {
    hide Readable, SessionId.Valid, FirstFit, InUse;
  }

  // Placing a VM keeps the fleet exactly when it is harmless.
  lemma PlaceExactly(cfg: Config, h: Host, req: LaunchRequest, env: LaunchEnv)
    requires Fleet(cfg, h.store) && SessionId.Valid(req.session)
    requires forall id :: id in h.store ==> id in env.listing
    ensures Fleet(cfg, Place(cfg, h, req, env).0.store) <==> HarmlessPlace(cfg, h, req, env)
  {
    assert forall id :: id in h.store ==> Placed(cfg, id, h.store[id]);
    WritesOrKeeps(cfg, h, req, env);
    hide Fleet, Place, Readable, SessionId.Valid, Found;
    if Writes(cfg, h, req, env) {
      var rec := RecordOf(cfg, req, env, Found(cfg, h, req, env).net, env.boot.value);
      FoundIsFree(cfg, h, req, env, rec);
      PutExactly(cfg, h.store, rec);
    }
  }

  lemma InUseHas(list: seq<VMRecord>, rec: VMRecord)
    requires rec in list
    ensures V4(rec.guestIP) in InUse(list)
  {
    var i :| 0 <= i < |list| && list[i] == rec;
    assert InUse(list)[i] == V4(rec.guestIP);
  }

  lemma AllocatedBlock(tap: string, subnet: Subnet, dns: string, inUse: seq<Parsed>) returns (k: nat)
    requires FirstFit(tap, subnet, dns, inUse).Allocated?
    ensures subnet.Prefix4?
    ensures FirstFree(Masked(subnet.addr, subnet.bits), subnet.bits, inUse, k)
    ensures FirstFit(tap, subnet, dns, inUse).net == NetAt(Masked(subnet.addr, subnet.bits), k, tap, dns)
  {
    assert subnet.Prefix4?;
    SomeBlockIsFree(subnet.addr, subnet.bits, inUse);
    k :| FirstFree(Masked(subnet.addr, subnet.bits), subnet.bits, inUse, k);
    FirstFitIs(tap, subnet, dns, inUse, k);
  }

  // Every step keeps the fleet sound if and only if it is harmless, whatever fails.
  lemma StepExactly(cfg: Config, h: Host, s: Step)
    requires Fleet(cfg, h.store)
    ensures Fleet(cfg, Apply(cfg, h, s).store) <==> Harmless(cfg, h, s)
  {
    hide Fleet, Place, HarmlessPlace, SessionId.Valid;
    if Possible(h, s) {
      match s
      case LaunchStep(req, env) =>
        RemoveKeepsFleet(cfg, h.store, req.session);
        if HasToBoot(h, req, env) { PlaceExactly(cfg, Cleared(h, req, env), req, env); }
      case DestroyStep(id, purge, env) => RemoveKeepsFleet(cfg, h.store, id);
      case Exit(pid) =>
    }
  }

  // Over whole runs: the fleet is sound in every state if and only if every launch was harmless when made.
  lemma {:induction false} RunExactly(cfg: Config, h: Host, steps: seq<Step>)
    requires Fleet(cfg, h.store)
    ensures FleetThroughout(cfg, h, steps) <==> HarmlessThroughout(cfg, h, steps)
  {
    hide Fleet, Harmless, Apply;
    if steps != [] {
      var before := steps[..|steps| - 1];
      RunExactly(cfg, h, before);
      if FleetThroughout(cfg, h, before) { StepExactly(cfg, Run(cfg, h, before), steps[|steps| - 1]); }
    }
  }

  // A launch that sees every other session's record is harmless: it has counted them all and avoided
  // their blocks.
  lemma SeeingIsHarmless(cfg: Config, h: Host, s: Step)
    requires Fleet(cfg, h.store) && SeesOthers(h, s)
    ensures Harmless(cfg, h, s)
  {
    if s.LaunchStep? && Possible(h, s) && HasToBoot(h, s.req, s.launch) {
      var g := Cleared(h, s.req, s.launch);
      assert forall id :: id in h.store ==> Placed(cfg, id, h.store[id]);
      hide Fleet, Readable, SessionId.Valid, Found;
      if Writes(cfg, g, s.req, s.launch) && s.req.session !in g.store {
        ReadableCounts(g.store, s.launch.listing, s.launch.unreadable, g.store.Keys);
      }
    }
  }

  // A launch in which everything succeeds, of a session without a record, keeps a sound fleet sound if
  // and only if the host is below capacity and no unreadable record has the block found over the rest.
  lemma SmoothLaunchExactly(cfg: Config, h: Host, req: LaunchRequest, env: LaunchEnv)
    requires Fleet(cfg, h.store) && Possible(h, LaunchStep(req, env)) && Smooth(env)
    requires SessionId.Valid(req.session) && !req.forbiddenKey && req.session !in h.store
    requires |Readable(h.store, env.listing, env.unreadable)| < cfg.maxVMs && Found(cfg, h, req, env).Allocated?
    ensures Fleet(cfg, Launch(cfg, h, req, env).0.store) <==>
      |h.store| < Capacity(cfg) && !Collides(cfg, h, req, env)
  {
    hide Fleet, Place, Readable, SessionId.Valid, Found, Collides;
    StepExactly(cfg, h, LaunchStep(req, env));
  }

  // What a sound fleet means: at most maxVMs records, each on a block of the pool, no two on overlapping
  // blocks.
  ghost predicate Sound(cfg: Config, store: map<string, VMRecord>) {
    && |store| <= Capacity(cfg)
    && (forall id :: id in store ==> exists k :: OnBlock(cfg, store[id], k))
    && (forall a, b :: a in store && b in store && a != b ==> DisjointBlocks(store[a], store[b]))
  }

  lemma FleetMeansSound(cfg: Config, store: map<string, VMRecord>)
    requires Fleet(cfg, store)
    ensures Sound(cfg, store)
  {
    forall id | id in store ensures exists k :: OnBlock(cfg, store[id], k) { assert Placed(cfg, id, store[id]); }
    forall a, b | a in store && b in store && a != b ensures DisjointBlocks(store[a], store[b]) {
      assert Placed(cfg, a, store[a]) && Placed(cfg, b, store[b]);
      var i, j :| OnBlock(cfg, store[a], i) && OnBlock(cfg, store[b], j);
      DifferentGuestsAreDisjoint(cfg, store[a], store[b], i, j);
    }
  }

  // In every state reached from an empty host the fleet is sound, whatever fails along the way, as long
  // as every launch was harmless; in particular if no launch was blind to another session's record.
  lemma FleetIsSound(cfg: Config, steps: seq<Step>)
    requires HarmlessThroughout(cfg, EMPTY_HOST, steps) || SeesOthersThroughout(cfg, EMPTY_HOST, steps)
    ensures Sound(cfg, Run(cfg, EMPTY_HOST, steps).store)
  {
    RunExactly(cfg, EMPTY_HOST, steps);
    if SeesOthersThroughout(cfg, EMPTY_HOST, steps) { SeeingThroughout(cfg, EMPTY_HOST, steps); }
    FleetMeansSound(cfg, Run(cfg, EMPTY_HOST, steps).store);
  }

  lemma {:induction false} SeeingThroughout(cfg: Config, h: Host, steps: seq<Step>)
    requires Fleet(cfg, h.store) && SeesOthersThroughout(cfg, h, steps)
    ensures HarmlessThroughout(cfg, h, steps) && Fleet(cfg, Run(cfg, h, steps).store)
  {
    hide Fleet, Harmless, Apply, SeesOthers;
    if steps != [] {
      var before := steps[..|steps| - 1];
      SeeingThroughout(cfg, h, before);
      SeeingIsHarmless(cfg, Run(cfg, h, before), steps[|steps| - 1]);
      StepExactly(cfg, Run(cfg, h, before), steps[|steps| - 1]);
    }
  }

  // ---- no untracked VM ----

  // Every running VM is the one its session's record names.
  ghost predicate Tracked(h: Host) {
    forall p :: p in h.procs ==> h.procs[p] in h.store && h.store[h.procs[p]].pid == p
  }

  // The driver's kills take effect.
  predicate Kills(s: Step) {
    match s
    case LaunchStep(_, env) => env.staleStops && env.orphansStop && env.undoStops
    case DestroyStep(_, _, env) => env.stops
    case Exit(_) => true
  }

  ghost predicate OwnRecords(h: Host) {
    forall id :: id in h.store ==> h.store[id].session == id
  }

  lemma BootKeepsTracked(cfg: Config, h: Host, req: LaunchRequest, env: LaunchEnv, net: GuestNet)
    requires Tracked(h) && OwnRecords(h) && env.orphansStop && env.undoStops
    ensures Tracked(Boot(cfg, h, req, env, net).0) && OwnRecords(Boot(cfg, h, req, env, net).0)
  {}

  lemma PlaceKeepsTracked(cfg: Config, h: Host, req: LaunchRequest, env: LaunchEnv)
    requires Tracked(h) && OwnRecords(h) && env.orphansStop && env.undoStops && SessionId.Valid(req.session)
    ensures Tracked(Place(cfg, h, req, env).0) && OwnRecords(Place(cfg, h, req, env).0)
  {
    hide Readable, SessionId.Valid, Boot, FirstFit;
    var list := Readable(h.store, env.listing, env.unreadable);
    var a := FirstFit(SessionId.TapName(req.session), cfg.subnet, cfg.anchor, InUse(list));
    if a.Allocated? { BootKeepsTracked(cfg, WithVolume(h, req.session, env.volume), req, env, a.net); }
  }

  lemma ApplyKeepsTracked(cfg: Config, h: Host, s: Step)
    requires Tracked(h) && OwnRecords(h) && Kills(s)
    ensures Tracked(Apply(cfg, h, s)) && OwnRecords(Apply(cfg, h, s))
  {
    hide Place, SessionId.Valid;
    if Possible(h, s) {
      match s
      case LaunchStep(req, env) =>
        if SessionId.Valid(req.session) {
          var got := Get(h, req.session, req.session in env.unreadable);
          PlaceKeepsTracked(cfg, if got.Found? then ClearStale(h, got.rec, req.session, env) else h, req, env);
        }
      case DestroyStep(id, purge, env) =>
      case Exit(pid) =>
    }
  }

  // If the driver's kills take effect, no launch or destroy, successful or failed, ever leaves a running
  // VM without the record that names it; so a session never has two running VMs.
  lemma {:induction false} NoUntrackedVM(cfg: Config, steps: seq<Step>)
    requires forall i :: 0 <= i < |steps| ==> Kills(steps[i])
    ensures var h := Run(cfg, EMPTY_HOST, steps);
      && Tracked(h) && OwnRecords(h)
      && forall p, q :: p in h.procs && q in h.procs && h.procs[p] == h.procs[q] ==> p == q
  {
    if steps != [] {
      NoUntrackedVM(cfg, steps[..|steps| - 1]);
      ApplyKeepsTracked(cfg, Run(cfg, EMPTY_HOST, steps[..|steps| - 1]), steps[|steps| - 1]);
    }
  }

  // A destroy of a running session whose kill does not take effect leaves an untracked VM exactly when
  // its record was removed.
  lemma UnstoppedDestroy(h: Host, id: string, purge: bool, env: DestroyEnv)
    requires Tracked(h) && SessionId.Valid(id) && id in h.store && h.store[id].session == id
    requires !env.unreadable && h.store[id].pid in h.procs && h.procs[h.store[id].pid] == id
    ensures !Tracked(Destroy(h, id, purge, env).0) <==>
            !env.stops && (env.delete.Deleted? || env.delete.recordGone)
  {
    var g := Destroy(h, id, purge, env).0;
    if !env.stops { assert h.store[id].pid in g.procs; }
    hide SessionId.Valid;
  }

  // ---- idempotent launch, durable workspaces ----

  ghost predicate Runs(h: Host, rec: VMRecord) {
    rec.session in h.store && h.store[rec.session] == rec && rec.pid in h.procs && h.procs[rec.pid] == rec.session
  }

  // A launch that reports a VM leaves it running under its record, unless it found a dead record whose
  // pid belongs to another session's VM.
  lemma LaunchRuns(cfg: Config, h: Host, req: LaunchRequest, env: LaunchEnv)
    requires Launch(cfg, h, req, env).1.Running? && OwnRecords(h)
    requires req.session in h.store && h.store[req.session].pid in h.procs ==>
               h.procs[h.store[req.session].pid] == req.session
    ensures Runs(Launch(cfg, h, req, env).0, Launch(cfg, h, req, env).1.rec)
    ensures Launch(cfg, h, req, env).1.rec.session == req.session
  {
    hide Readable, SessionId.Valid, FirstFit;
  }

  // A step that neither destroys that VM, nor is its exit, nor a launch of its session that cannot read
  // its record; and no dead record of another session carries its pid.
  predicate Spares(h: Host, s: Step, rec: VMRecord) {
    match s
    case LaunchStep(req, env) =>
      if req.session == rec.session then req.session !in env.unreadable
      else req.session in h.store ==> h.store[req.session].pid != rec.pid
    case DestroyStep(id, _, _) => id != rec.session && (id in h.store ==> h.store[id].pid != rec.pid)
    case Exit(pid) => pid != rec.pid
  }

  ghost predicate SparesThroughout(cfg: Config, h: Host, steps: seq<Step>, rec: VMRecord) {
    steps == [] ||
    (SparesThroughout(cfg, h, steps[..|steps| - 1], rec)
     && Spares(Run(cfg, h, steps[..|steps| - 1]), steps[|steps| - 1], rec))
  }

  lemma PlaceSpares(cfg: Config, h: Host, req: LaunchRequest, env: LaunchEnv, rec: VMRecord)
    requires SessionId.Valid(req.session) && req.session != rec.session && rec.pid != 0 && Runs(h, rec)
    requires env.boot.Some? ==> env.boot.value != rec.pid
    ensures Runs(Place(cfg, h, req, env).0, rec)
  {
    hide Readable, SessionId.Valid, FirstFit;
  }

  lemma SparedStepRuns(cfg: Config, h: Host, s: Step, rec: VMRecord)
    requires Runs(h, rec) && OwnRecords(h) && rec.pid != 0 && Spares(h, s, rec)
    ensures Runs(Apply(cfg, h, s), rec) && OwnRecords(Apply(cfg, h, s))
  {
    StepOwnsRecords(cfg, h, s);
    hide Place, SessionId.Valid;
    if Possible(h, s) && s.LaunchStep? && s.req.session != rec.session && HasToBoot(h, s.req, s.launch) {
      PlaceSpares(cfg, Cleared(h, s.req, s.launch), s.req, s.launch, rec);
    }
  }

  lemma PlaceOwnsRecords(cfg: Config, h: Host, req: LaunchRequest, env: LaunchEnv)
    requires OwnRecords(h) && SessionId.Valid(req.session)
    ensures OwnRecords(Place(cfg, h, req, env).0)
  {
    WritesOrKeeps(cfg, h, req, env);
    hide Place, Writes, Found, SessionId.Valid;
  }

  lemma StepOwnsRecords(cfg: Config, h: Host, s: Step)
    requires OwnRecords(h)
    ensures OwnRecords(Apply(cfg, h, s))
  {
    hide Place, SessionId.Valid;
    if s.LaunchStep? && HasToBoot(h, s.req, s.launch) {
      PlaceOwnsRecords(cfg, Cleared(h, s.req, s.launch), s.req, s.launch);
    }
  }

  lemma {:induction false} SparedRunRuns(cfg: Config, h: Host, steps: seq<Step>, rec: VMRecord)
    requires Runs(h, rec) && OwnRecords(h) && rec.pid != 0 && SparesThroughout(cfg, h, steps, rec)
    ensures Runs(Run(cfg, h, steps), rec) && OwnRecords(Run(cfg, h, steps))
  {
    if steps != [] {
      hide Apply, Spares, Runs, OwnRecords;
      SparedRunRuns(cfg, h, steps[..|steps| - 1], rec);
      SparedStepRuns(cfg, Run(cfg, h, steps[..|steps| - 1]), steps[|steps| - 1], rec);
    }
  }

  // Once a session's VM runs under its record, every later launch of the session returns that record and
  // changes nothing, over any steps in between that spare the VM: no second boot.
  lemma RelaunchIsIdempotent(
      cfg: Config, h: Host, rec: VMRecord, steps: seq<Step>, again: LaunchRequest, env: LaunchEnv)
    requires Runs(h, rec) && OwnRecords(h) && rec.pid != 0 && SparesThroughout(cfg, h, steps, rec)
    requires SessionId.Valid(rec.session)
    requires again.session == rec.session && !again.forbiddenKey && again.session !in env.unreadable
    ensures Launch(cfg, Run(cfg, h, steps), again, env) == (Run(cfg, h, steps), Running(rec))
  {
    SparedRunRuns(cfg, h, steps, rec);
    hide Place, SessionId.Valid, SparesThroughout, Run;
  }

  // Workspaces survive everything but a purging destroy of their own session.
  lemma WorkspacesOnlyPurged(cfg: Config, h: Host, s: Step, id: string)
    requires id in h.workspaces && id !in Apply(cfg, h, s).workspaces
    ensures s.DestroyStep? && s.purge && s.id == id && s.destroy.volumeDestroyed
  {
    hide Readable, SessionId.Valid, FirstFit;
  }

  lemma LaunchKeepsWorkspaces(cfg: Config, h: Host, req: LaunchRequest, env: LaunchEnv)
    ensures h.workspaces <= Launch(cfg, h, req, env).0.workspaces
  {
    hide Readable, SessionId.Valid, FirstFit;
  }

  // ---- the condition on reading records is needed ----

  // Every collaborator succeeds.
  predicate Smooth(env: LaunchEnv) {
    env.listOk && env.rootfsOk && env.volume.VolumeReady? && env.tap.TapUp? && env.boot.Some? && env.put.Stored?
  }

  lemma {:induction false} NothingReadable(store: map<string, VMRecord>, listing: seq<string>, unreadable: set<string>)
    requires forall id :: id in store ==> id in unreadable
    ensures Readable(store, listing, unreadable) == []
  {
    if listing != [] { NothingReadable(store, listing[..|listing| - 1], unreadable); }
  }

  lemma FirstBlock(tap: string, subnet: Subnet, dns: string)
    requires subnet.Prefix4? && subnet.bits <= 30
    ensures FirstFit(tap, subnet, dns, []).Allocated?
    ensures FirstFit(tap, subnet, dns, []).net.guestIP == Masked(subnet.addr, subnet.bits) + 2
  {
    var pool := Masked(subnet.addr, subnet.bits);
    BlockBounds(pool, subnet.bits, subnet.addr, 0);
    hide Masked;
    assert FirstFree(pool, subnet.bits, [], 0);
    FirstFitIs(tap, subnet, dns, [], 0);
  }

  // With no readable record a launch places its VM on the pool's first block.
  lemma BlindLaunch(cfg: Config, h: Host, req: LaunchRequest, env: LaunchEnv)
    requires cfg.subnet.Prefix4? && cfg.subnet.bits <= 30 && cfg.maxVMs > 0
    requires SessionId.Valid(req.session) && !req.forbiddenKey && Smooth(env)
    requires req.session !in h.store && forall id :: id in h.store ==> id in env.unreadable
    ensures var (g, r) := Launch(cfg, h, req, env);
      && r.Running? && r.rec.guestIP == Masked(cfg.subnet.addr, cfg.subnet.bits) + 2
      && g.store == h.store[req.session := r.rec]
  {
    NothingReadable(h.store, env.listing, env.unreadable);
    assert InUse([]) == [];
    FirstBlock(SessionId.TapName(req.session), cfg.subnet, cfg.anchor);
    hide Masked, Readable, SessionId.Valid, FirstFit;
  }

  // Both ways of going wrong happen: two launches in which everything succeeds, the second while the
  // first one's record cannot be read, put two sessions on the same block, even on a host for one VM.
  lemma UnreadableRecordSharesBlock(
      cfg: Config, req: LaunchRequest, env: LaunchEnv, req': LaunchRequest, env': LaunchEnv)
    requires cfg.subnet.Prefix4? && cfg.subnet.bits <= 30 && cfg.maxVMs > 0
    requires SessionId.Valid(req.session) && !req.forbiddenKey && Smooth(env)
    requires SessionId.Valid(req'.session) && !req'.forbiddenKey && Smooth(env')
    requires req.session != req'.session && req.session in env'.unreadable
    ensures var store := Launch(cfg, Launch(cfg, EMPTY_HOST, req, env).0, req', env').0.store;
      && req.session in store && req'.session in store && |store| == 2
      && store[req.session].guestIP == store[req'.session].guestIP
  {
    hide Launch, SessionId.Valid, Smooth;
    BlindLaunch(cfg, EMPTY_HOST, req, env);
    BlindLaunch(cfg, Launch(cfg, EMPTY_HOST, req, env).0, req', env');
  }

  // ---- the host anchor ----

  ghost predicate BelowAnchor(store: map<string, VMRecord>) {
    forall id :: id in store ==> store[id].guestIP + 1 < HOST_ANCHOR
  }

  lemma PlaceStaysBelowAnchor(cfg: Config, h: Host, req: LaunchRequest, env: LaunchEnv)
    requires cfg.subnet == DEFAULT_SUBNET && cfg.maxVMs <= DEFAULT_MAX_VMS
    requires BelowAnchor(h.store) && SessionId.Valid(req.session)
    ensures BelowAnchor(Place(cfg, h, req, env).0.store)
  {
    WritesOrKeeps(cfg, h, req, env);
    hide Place, Readable, SessionId.Valid, InUse, FirstFit, Masked;
    if Writes(cfg, h, req, env) {
      var inUse := InUse(Readable(h.store, env.listing, env.unreadable));
      var k := AllocatedBlock(SessionId.TapName(req.session), cfg.subnet, cfg.anchor, inUse);
      assert |inUse| < DEFAULT_MAX_VMS by { InUseSize(Readable(h.store, env.listing, env.unreadable)); }
      AnchorIsNeverHandedOut(inUse, k);
    }
  }

  lemma InUseSize(list: seq<VMRecord>)
    ensures |InUse(list)| == |list|
  {}

  // Under the default subnet and capacity no record, in any state the host can reach, has a block that
  // reaches the anchor address, whatever fails and whatever a launch cannot read.
  lemma {:induction false} AnchorIsNeverOnABlock(cfg: Config, steps: seq<Step>)
    requires cfg.subnet == DEFAULT_SUBNET && cfg.maxVMs <= DEFAULT_MAX_VMS
    ensures BelowAnchor(Run(cfg, EMPTY_HOST, steps).store)
  {
    if steps != [] {
      var before, s := steps[..|steps| - 1], steps[|steps| - 1];
      AnchorIsNeverOnABlock(cfg, before);
      var h := Run(cfg, EMPTY_HOST, before);
      hide Place, SessionId.Valid, Run;
      if s.LaunchStep? && HasToBoot(h, s.req, s.launch) {
        PlaceStaysBelowAnchor(cfg, Cleared(h, s.req, s.launch), s.req, s.launch);
      }
      assert BelowAnchor(Apply(cfg, h, s).store);
    }
  }
}
