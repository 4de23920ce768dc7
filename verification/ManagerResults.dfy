/** What a launch or a destroy answers, and what it leaves on the host, read off the host before and after. */
module ManagerResults {
  import opened Protocol
  import opened Network
  import opened Manager
  import opened ManagerLaws
  import SessionId

  // ---- destroy ----

  // The session has a record that can be read.
  predicate Known(h: Host, id: string, unreadable: bool) { id in h.store && !unreadable }

  // When each result is returned.
  ghost predicate DestroyAnswers(h: Host, id: string, purge: bool, env: DestroyEnv, r: DestroyResult) {
    var forgets := id !in h.store || (!env.unreadable && env.delete.Deleted?);
    var volumeStays := purge && id in h.workspaces && !env.volumeDestroyed;
    && (r == DestroyInvalid <==> !SessionId.Valid(id))
    && (r == DestroyUnreadable <==> SessionId.Valid(id) && id in h.store && env.unreadable)
    && (r == DestroyStateFailed <==> SessionId.Valid(id) && Known(h, id, env.unreadable) && !env.delete.Deleted?)
    && (r == DestroyWorkspaceFailed <==> SessionId.Valid(id) && forgets && volumeStays)
    && (r == Destroyed <==> SessionId.Valid(id) && forgets && !volumeStays)
  }

  // What is true afterwards: the session is forgotten, purged if asked for, and stopped if the driver's
  // kill worked.
  ghost predicate DestroyAchieves(h: Host, id: string, purge: bool, env: DestroyEnv, g: Host, r: DestroyResult) {
    && (r == Destroyed ==> id !in g.store && (purge ==> id !in g.workspaces))
    && (SessionId.Valid(id) && Known(h, id, env.unreadable) ==>
          var rec := h.store[id];
          && (env.tapGone ==> rec.tap !in g.taps)
          && (env.stops ==> forall p :: p in g.procs ==> p != rec.pid && g.procs[p] != rec.session)
          && (env.delete.Deleted? || env.delete.recordGone ==> id !in g.store))
  }

  // What it leaves alone: every other record and volume, and what has nothing to do with the record.
  ghost predicate DestroySpares(h: Host, id: string, purge: bool, env: DestroyEnv, g: Host, r: DestroyResult) {
    && g.boots == h.boots
    && g.store.Keys <= h.store.Keys && (forall x :: x in h.store && x != id ==> x in g.store)
    && (forall x :: x in g.store ==> g.store[x] == h.store[x])
    && g.workspaces <= h.workspaces && (forall x :: x in h.workspaces && x != id ==> x in g.workspaces)
    && (!purge ==> g.workspaces == h.workspaces)
    && g.taps <= h.taps && g.procs.Keys <= h.procs.Keys && (forall p :: p in g.procs ==> g.procs[p] == h.procs[p])
    && (r == DestroyInvalid || r == DestroyUnreadable ==> g == h)
    && (forall t :: t in h.taps && t !in g.taps ==> id in h.store && t == h.store[id].tap)
    && (forall p :: p in h.procs && p !in g.procs ==>
          id in h.store && (p == h.store[id].pid || h.procs[p] == h.store[id].session))
  }

  lemma DestroyIs(h: Host, id: string, purge: bool, env: DestroyEnv)
    ensures var (g, r) := Destroy(h, id, purge, env);
      && DestroyAnswers(h, id, purge, env, r)
      && DestroyAchieves(h, id, purge, env, g, r)
      && DestroySpares(h, id, purge, env, g, r)
  {
    hide SessionId.Valid;
  }

  // ---- launch ----

  // The session's own VM is up and can be seen to be.
  predicate Up(h: Host, req: LaunchRequest, env: LaunchEnv) {
    Known(h, req.session, req.session in env.unreadable) && h.store[req.session].pid in h.procs
  }

  // The store the launch goes on with: without a dead record of the session that could be removed.
  function Swept(h: Host, req: LaunchRequest, env: LaunchEnv): map<string, VMRecord> {
    if Known(h, req.session, req.session in env.unreadable) && (env.staleDelete.Deleted? || env.staleDelete.recordGone)
    then h.store - {req.session} else h.store
  }

  ghost function Block(cfg: Config, h: Host, req: LaunchRequest, env: LaunchEnv): Allocation
    requires SessionId.Valid(req.session)
  {
    FirstFit(SessionId.TapName(req.session), cfg.subnet, cfg.anchor,
             InUse(Readable(Swept(h, req, env), env.listing, env.unreadable)))
  }

  // A launch gets past the checks before the allocation; `full` is the capacity check.
  predicate Ready(env: LaunchEnv, full: bool) {
    env.listOk && !full && env.rootfsOk && env.volume.VolumeReady?
  }

  // When each result is returned: the first thing that goes wrong, in order, or a running VM.
  ghost predicate LaunchAnswers(cfg: Config, h: Host, req: LaunchRequest, env: LaunchEnv, r: LaunchResult) {
    var valid, id := SessionId.Valid(req.session), req.session;
    var boots := valid && !req.forbiddenKey && !Up(h, req, env);
    var full := |Readable(Swept(h, req, env), env.listing, env.unreadable)| >= cfg.maxVMs;
    var placed := boots && Ready(env, full) && Block(cfg, h, req, env).Allocated?;
    && (r == LaunchFailed(InvalidSession) <==> !valid)
    && (r == LaunchFailed(ForbiddenMMDS) <==> valid && req.forbiddenKey)
    && (r == LaunchFailed(ListFailed) <==> boots && !env.listOk)
    && (r == LaunchFailed(AtCapacity) <==> boots && env.listOk && full)
    && (r == LaunchFailed(RootfsFailed) <==> boots && env.listOk && !full && !env.rootfsOk)
    && (r == LaunchFailed(WorkspaceFailed) <==>
          boots && env.listOk && !full && env.rootfsOk && !env.volume.VolumeReady?)
    && (r.LaunchFailed? && r.error.AllocateFailed? <==>
          boots && Ready(env, full) && Block(cfg, h, req, env).Refused?)
    && (r.LaunchFailed? && r.error.AllocateFailed? ==> Block(cfg, h, req, env) == Refused(r.error.cause))
    && (r == LaunchFailed(TapFailed) <==> placed && !env.tap.TapUp?)
    && (r == LaunchFailed(DriverFailed) <==> placed && env.tap.TapUp? && env.boot.None?)
    && (r == LaunchFailed(StateFailed) <==> placed && env.tap.TapUp? && env.boot.Some? && !env.put.Stored?)
    && (r.Running? <==>
          (valid && !req.forbiddenKey && Up(h, req, env))
          || (placed && env.tap.TapUp? && env.boot.Some? && env.put.Stored?))
  }

  // The record of a VM that was booted is what was asked for, with two vCPUs and 4 GiB where nothing
  // was, on a block of its own, under the driver's pid.
  predicate BootedAs(cfg: Config, req: LaunchRequest, env: LaunchEnv, rec: VMRecord) {
    && rec.session == req.session && rec.imageSHA == req.imageSHA
    && rec.vcpus == (if req.vcpus > 0 then req.vcpus else 2)
    && rec.memMiB == (if req.memMiB > 0 then req.memMiB else 4096)
    && rec.workspace == cfg.workspacesDir + "/" + req.session + ".ext4"
    && rec.chroot == env.chroot && env.boot == Some(rec.pid) && rec.startedAt == env.now
    && SessionId.Valid(req.session) && rec.tap == "tap" + req.session[2..14]
    && rec.hostIP % 4 == 1 && rec.guestIP == rec.hostIP + 1
  }

  // A launch that answers with a VM: the one that was up, and nothing changes; or a new one, recorded and
  // running on its tap and volume, and alone if the driver could kill the session's strays.
  ghost predicate LaunchAchieves(cfg: Config, h: Host, req: LaunchRequest, env: LaunchEnv, g: Host, r: LaunchResult) {
    r.Running? ==>
      if Up(h, req, env) then g == h && r.rec == h.store[req.session]
      else
        && BootedAs(cfg, req, env, r.rec)
        && req.session in g.store && g.store[req.session] == r.rec
        && r.rec.pid in g.procs && g.procs[r.rec.pid] == req.session
        && r.rec.tap in g.taps && req.session in g.workspaces && g.boots == h.boots + 1
        && (env.orphansStop ==> forall p :: p in g.procs && g.procs[p] == req.session ==> p == r.rec.pid)
  }

  // A launch that fails leaves no process and no tap of its own behind if the clean-up it tries works; a
  // record only if writing it failed half-way.
  ghost predicate LaunchCleansUp(cfg: Config, h: Host, req: LaunchRequest, env: LaunchEnv, g: Host, r: LaunchResult) {
    r.LaunchFailed? ==>
      && (r == LaunchFailed(InvalidSession) || r == LaunchFailed(ForbiddenMMDS) ==> g == h)
      && (g.boots == h.boots + (if r == LaunchFailed(StateFailed) then 1 else 0))
      && (r != LaunchFailed(StateFailed) || env.undoStops ==> g.procs.Keys <= h.procs.Keys)
      && (TapCleaned(env, r) ==> g.taps <= h.taps)
      && (req.session in g.store && req.session !in h.store ==>
            r == LaunchFailed(StateFailed) && env.put == PutFailed(true))
  }

  // No tap was added, or the one that was is deleted again.
  predicate TapCleaned(env: LaunchEnv, r: LaunchResult) {
    && (r == LaunchFailed(TapFailed) ==> env.tap.TapNotAdded?)
    && (r == LaunchFailed(DriverFailed) ==> env.bootTapGone)
    && (r == LaunchFailed(StateFailed) ==> env.undoTapGone)
  }

  // Before anything else a dead record of the session is swept away, with its process and tap.
  ghost predicate LaunchSweeps(h: Host, req: LaunchRequest, env: LaunchEnv, g: Host, r: LaunchResult) {
    var dead := SessionId.Valid(req.session) && !req.forbiddenKey && !Up(h, req, env)
      && Known(h, req.session, req.session in env.unreadable);
    dead && r.LaunchFailed? ==>
      && ((r == LaunchFailed(StateFailed) && env.put == PutFailed(true)) || g.store == Swept(h, req, env))
      && (env.staleStops && r != LaunchFailed(StateFailed) ==>
            forall p :: p in g.procs ==> p != h.store[req.session].pid && g.procs[p] != h.store[req.session].session)
      && (env.staleTapGone && !r.error.TapFailed? && !r.error.DriverFailed? && !r.error.StateFailed? ==>
            h.store[req.session].tap !in g.taps)
  }

  ghost predicate OtherRecords(h: Host, g: Host, id: string) {
    forall x :: x != id ==> (x in g.store <==> x in h.store) && (x in h.store ==> g.store[x] == h.store[x])
  }

  // It never touches another session's record or volume, and takes down no other tap or process: only the
  // session's own, those of its dead record, and what has the pid of the VM it could not record.
  ghost predicate LaunchSpares(h: Host, req: LaunchRequest, env: LaunchEnv, g: Host) {
    var known := Known(h, req.session, req.session in env.unreadable);
    && OtherRecords(h, g, req.session)
    && h.workspaces <= g.workspaces <= h.workspaces + {req.session}
    && (forall t :: t in h.taps && t !in g.taps ==>
          && SessionId.Valid(req.session)
          && (t == SessionId.TapName(req.session) || (known && t == h.store[req.session].tap)))
    && (forall p :: p in h.procs && p !in g.procs ==>
          || h.procs[p] == req.session || p == 0 || env.boot == Some(p)
          || (known && (p == h.store[req.session].pid || h.procs[p] == h.store[req.session].session)))
    && (forall p :: p in h.procs && p in g.procs ==> g.procs[p] == h.procs[p] || env.boot == Some(p))
  }

  // What placing a VM takes down.
  ghost predicate PlaceSparesOthers(h: Host, req: LaunchRequest, env: LaunchEnv, tap: string, g: Host) {
    && OtherRecords(h, g, req.session)
    && h.workspaces <= g.workspaces <= h.workspaces + {req.session}
    && (forall t :: t in h.taps && t !in g.taps ==> t == tap)
    && (forall p :: p in h.procs && p !in g.procs ==> h.procs[p] == req.session || p == 0 || env.boot == Some(p))
    && (forall p :: p in g.procs ==> (p in h.procs && g.procs[p] == h.procs[p]) || env.boot == Some(p))
  }

  lemma BootSpares(cfg: Config, h: Host, req: LaunchRequest, env: LaunchEnv, net: GuestNet)
    ensures PlaceSparesOthers(h, req, env, net.tap, Boot(cfg, h, req, env, net).0)
  {
    assert forall pid :: RecordOf(cfg, req, env, net, pid).session == req.session;
    hide RecordOf;
  }

  lemma PlaceSparesRest(cfg: Config, h: Host, req: LaunchRequest, env: LaunchEnv)
    requires SessionId.Valid(req.session)
    ensures PlaceSparesOthers(h, req, env, SessionId.TapName(req.session), Place(cfg, h, req, env).0)
  {
    var inUse := InUse(Readable(h.store, env.listing, env.unreadable));
    var a := FirstFit(SessionId.TapName(req.session), cfg.subnet, cfg.anchor, inUse);
    hide SessionId.Valid, SessionId.TapName, Readable, FirstFit, InUse, Boot;
    if a.Allocated? {
      FirstFitIsPointToPoint(SessionId.TapName(req.session), cfg.subnet, cfg.anchor, inUse);
      BootSpares(cfg, WithVolume(h, req.session, env.volume), req, env, a.net);
    }
  }

  // The state of the host that is not Readable's or the allocator's business.
  lemma PlaceIs(cfg: Config, h: Host, req: LaunchRequest, env: LaunchEnv)
    requires SessionId.Valid(req.session)
    ensures var (g, r) := Place(cfg, h, req, env);
      && (r.Running? ==>
            && req.session in g.store && g.store[req.session] == r.rec && r.rec.pid in g.procs
            && g.procs[r.rec.pid] == req.session && r.rec.tap in g.taps && req.session in g.workspaces
            && g.boots == h.boots + 1
            && (env.orphansStop ==> forall p :: p in g.procs && g.procs[p] == req.session ==> p == r.rec.pid))
      && LaunchCleansUp(cfg, h, req, env, g, r)
  {
    hide SessionId.Valid, Readable, FirstFit, InUse;
  }

  lemma PlaceFails(cfg: Config, h: Host, req: LaunchRequest, env: LaunchEnv)
    requires SessionId.Valid(req.session) && Place(cfg, h, req, env).1.LaunchFailed?
    ensures var (g, r) := Place(cfg, h, req, env);
      && r != LaunchFailed(InvalidSession) && r != LaunchFailed(ForbiddenMMDS)
      && ((r == LaunchFailed(StateFailed) && env.put == PutFailed(true)) || g.store == h.store)
      && (r != LaunchFailed(StateFailed) ==> forall p :: p in g.procs ==> p in h.procs && g.procs[p] == h.procs[p])
      && (!r.error.TapFailed? && !r.error.DriverFailed? && !r.error.StateFailed? ==> g.taps == h.taps)
  {
    hide SessionId.Valid, Readable, FirstFit, InUse, RecordOf;
  }

  lemma PlaceAnswers(cfg: Config, h: Host, req: LaunchRequest, env: LaunchEnv)
    requires SessionId.Valid(req.session)
    ensures var list := Readable(h.store, env.listing, env.unreadable);
      var a := FirstFit(SessionId.TapName(req.session), cfg.subnet, cfg.anchor, InUse(list));
      var (full, r) := (|list| >= cfg.maxVMs, Place(cfg, h, req, env).1);
      r == if !env.listOk then LaunchFailed(ListFailed) else if full then LaunchFailed(AtCapacity)
           else if !env.rootfsOk then LaunchFailed(RootfsFailed)
           else if !env.volume.VolumeReady? then LaunchFailed(WorkspaceFailed)
           else if a.Refused? then LaunchFailed(AllocateFailed(a.error))
           else if !env.tap.TapUp? then LaunchFailed(TapFailed)
           else if env.boot.None? then LaunchFailed(DriverFailed)
           else if !env.put.Stored? then LaunchFailed(StateFailed)
           else Running(RecordOf(cfg, req, env, a.net, env.boot.value))
  {
    hide SessionId.Valid, Readable, FirstFit, InUse;
  }

  lemma RecordIs(cfg: Config, req: LaunchRequest, env: LaunchEnv, inUse: seq<Parsed>)
    requires SessionId.Valid(req.session) && env.boot.Some?
    requires FirstFit(SessionId.TapName(req.session), cfg.subnet, cfg.anchor, inUse).Allocated?
    ensures BootedAs(cfg, req, env, RecordOf(cfg, req, env,
      FirstFit(SessionId.TapName(req.session), cfg.subnet, cfg.anchor, inUse).net, env.boot.value))
  {
    FirstFitIsPointToPoint(SessionId.TapName(req.session), cfg.subnet, cfg.anchor, inUse);
    hide FirstFit;
  }

  lemma FirstFitIsPointToPoint(tap: string, subnet: Subnet, dns: string, inUse: seq<Parsed>)
    requires FirstFit(tap, subnet, dns, inUse).Allocated?
    ensures PointToPoint(FirstFit(tap, subnet, dns, inUse).net, tap, dns)
  {
    assert subnet.Prefix4?;
    var pool := Masked(subnet.addr, subnet.bits);
    SomeBlockIsFree(subnet.addr, subnet.bits, inUse);
    var k :| FirstFree(pool, subnet.bits, inUse, k);
    FirstFitIs(tap, subnet, dns, inUse, k);
    hide FirstFit, Masked, Blocks;
    NetIsPointToPoint(subnet.addr, subnet.bits, k, tap, dns);
  }

  lemma LaunchResultIs(cfg: Config, h: Host, req: LaunchRequest, env: LaunchEnv)
    ensures LaunchAnswers(cfg, h, req, env, Launch(cfg, h, req, env).1)
  {
    hide SessionId.Valid, Place, Readable, FirstFit, InUse, RecordOf;
    if SessionId.Valid(req.session) && !req.forbiddenKey && !Up(h, req, env) {
      var c := Cleared(h, req, env);
      assert c.store == Swept(h, req, env);
      PlaceAnswers(cfg, c, req, env);
    }
  }

  lemma LaunchHostIs(cfg: Config, h: Host, req: LaunchRequest, env: LaunchEnv)
    ensures var (g, r) := Launch(cfg, h, req, env);
      LaunchCleansUp(cfg, h, req, env, g, r)
  {
    hide SessionId.Valid, Place, Readable;
    if SessionId.Valid(req.session) && !req.forbiddenKey && !Up(h, req, env) {
      var c := Cleared(h, req, env);
      PlaceIs(cfg, c, req, env);
      if Place(cfg, c, req, env).1.LaunchFailed? { PlaceFails(cfg, c, req, env); }
    }
  }

  // What sweeping a dead record away takes down.
  ghost predicate SweepSpares(h: Host, req: LaunchRequest, env: LaunchEnv, c: Host) {
    var known := Known(h, req.session, req.session in env.unreadable);
    && OtherRecords(h, c, req.session)
    && c.workspaces == h.workspaces
    && (forall t :: t in h.taps && t !in c.taps ==> known && t == h.store[req.session].tap)
    && (forall p :: p in h.procs && p !in c.procs ==>
          known && (p == h.store[req.session].pid || h.procs[p] == h.store[req.session].session))
    && (forall p :: p in c.procs ==> p in h.procs && c.procs[p] == h.procs[p])
  }

  lemma SweepingSpares(h: Host, req: LaunchRequest, env: LaunchEnv)
    ensures SweepSpares(h, req, env, Cleared(h, req, env))
  {}

  lemma SparesTogether(h: Host, req: LaunchRequest, env: LaunchEnv, c: Host, g: Host)
    requires SessionId.Valid(req.session) && SweepSpares(h, req, env, c)
    requires PlaceSparesOthers(c, req, env, SessionId.TapName(req.session), g)
    ensures LaunchSpares(h, req, env, g)
  {
    hide SessionId.Valid, SessionId.TapName, Known;
  }

  lemma LaunchSparesOthers(cfg: Config, h: Host, req: LaunchRequest, env: LaunchEnv)
    ensures LaunchSpares(h, req, env, Launch(cfg, h, req, env).0)
  {
    hide SessionId.Valid, Place;
    if SessionId.Valid(req.session) && !req.forbiddenKey && !Up(h, req, env) {
      var c := Cleared(h, req, env);
      assert Launch(cfg, h, req, env).0 == Place(cfg, c, req, env).0;
      SweepingSpares(h, req, env);
      PlaceSparesRest(cfg, c, req, env);
      SparesTogether(h, req, env, c, Place(cfg, c, req, env).0);
      hide Launch, LaunchSpares, SweepSpares, PlaceSparesOthers, Cleared;
    } else {
      assert Launch(cfg, h, req, env).0 == h;
    }
  }

  lemma LaunchSweepsFirst(cfg: Config, h: Host, req: LaunchRequest, env: LaunchEnv)
    ensures var (g, r) := Launch(cfg, h, req, env); LaunchSweeps(h, req, env, g, r)
  {
    hide SessionId.Valid, Place, Readable;
    if SessionId.Valid(req.session) && !req.forbiddenKey && !Up(h, req, env) {
      var c := Cleared(h, req, env);
      if Place(cfg, c, req, env).1.LaunchFailed? { PlaceFails(cfg, c, req, env); }
    }
  }

  lemma LaunchVMIs(cfg: Config, h: Host, req: LaunchRequest, env: LaunchEnv)
    ensures var (g, r) := Launch(cfg, h, req, env); LaunchAchieves(cfg, h, req, env, g, r)
  {
    hide SessionId.Valid, Place, Readable, FirstFit, InUse, RecordOf, BootedAs, LaunchCleansUp, LaunchSpares;
    if SessionId.Valid(req.session) && !req.forbiddenKey && !Up(h, req, env) {
      var c := Cleared(h, req, env);
      assert c.store == Swept(h, req, env) && c.boots == h.boots;
      PlaceIs(cfg, c, req, env);
      PlaceAnswers(cfg, c, req, env);
      var inUse := InUse(Readable(c.store, env.listing, env.unreadable));
      if env.boot.Some? && Block(cfg, h, req, env).Allocated? { RecordIs(cfg, req, env, inUse); }
    }
  }

  // Every launch, whatever fails.
  lemma LaunchIs(cfg: Config, h: Host, req: LaunchRequest, env: LaunchEnv)
    ensures var (g, r) := Launch(cfg, h, req, env);
      && LaunchAnswers(cfg, h, req, env, r)
      && LaunchAchieves(cfg, h, req, env, g, r)
      && LaunchCleansUp(cfg, h, req, env, g, r) && LaunchSpares(h, req, env, g) && LaunchSweeps(h, req, env, g, r)
  {
    LaunchResultIs(cfg, h, req, env);
    LaunchHostIs(cfg, h, req, env);
    LaunchSparesOthers(cfg, h, req, env);
    LaunchSweepsFirst(cfg, h, req, env);
    LaunchVMIs(cfg, h, req, env);
    hide Launch, LaunchAnswers, LaunchAchieves, LaunchCleansUp, LaunchSpares, LaunchSweeps;
  }

  // The list a launch works from: exactly the readable records of session directories.
  lemma {:induction false} ReadableExactly(
      store: map<string, VMRecord>, listing: seq<string>, unreadable: set<string>, rec: VMRecord)
    ensures rec in Readable(store, listing, unreadable) <==>
      exists id :: id in listing && SessionId.Valid(id) && id in store && id !in unreadable && store[id] == rec
  {
    if listing != [] {
      hide SessionId.Valid;
      var before, last := listing[..|listing| - 1], listing[|listing| - 1];
      ReadableExactly(store, before, unreadable, rec);
      assert listing == before + [last];
    }
  }
}
