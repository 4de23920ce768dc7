/** The host's VM manager: launch, destroy and list under one mutex, over a state store, a VM driver,
    taps and workspace volumes that may each fail. */
module Manager {
  import opened Protocol
  import opened Network
  import SessionId

  datatype VMRecord = VMRecord(
    session: string, imageSHA: string, tap: string, chroot: string, workspace: string,
    guestIP: Addr, hostIP: Addr, vcpus: int, memMiB: int, pid: int, startedAt: int)

  datatype Config = Config(subnet: Subnet, anchor: string, maxVMs: int, workspacesDir: string)

  // A launch over these records does not reach a search that never ends (Network.EndlessExactly).
  ghost predicate SearchEnds(cfg: Config, list: seq<VMRecord>) {
    cfg.subnet.Prefix4? && cfg.subnet.bits == 0 && |list| < cfg.maxVMs ==>
      !AllUsed(Masked(cfg.subnet.addr, 0), Blocks(0), InUse(list))
  }

  // A launch that has to boot gets as far as the allocator, if there is room.
  predicate ReachesSearch(env: LaunchEnv) {
    env.listOk && env.rootfsOk && env.volume.VolumeReady?
  }

  // No configuration with a capacity of at most 2^30 can reach one.
  lemma CapacityEndsSearch(cfg: Config, list: seq<VMRecord>)
    requires cfg.maxVMs <= Blocks(0)
    ensures SearchEnds(cfg, list)
  {
    if cfg.subnet.Prefix4? && |list| < cfg.maxVMs { RoomMeansFree(Masked(cfg.subnet.addr, 0), 0, InUse(list)); }
  }

  // What the manager acts on: the state directory, running VM processes with their session, tap devices,
  // workspace volumes; and how many VMs were ever booted.
  datatype Host = Host(
    store: map<string, VMRecord>, procs: map<int, string>, taps: set<string>, workspaces: set<string>, boots: nat)

  const EMPTY_HOST: Host := Host(map[], map[], {}, {}, 0)

  datatype LaunchRequest = LaunchRequest(session: string, imageSHA: string, vcpus: int, memMiB: int, forbiddenKey: bool)

  datatype LaunchError =
    | InvalidSession | ForbiddenMMDS | ListFailed | AtCapacity | RootfsFailed | WorkspaceFailed
    | AllocateFailed(cause: AllocError) | TapFailed | DriverFailed | StateFailed

  datatype LaunchResult = Running(rec: VMRecord) | LaunchFailed(error: LaunchError)

  datatype DestroyResult = Destroyed | DestroyInvalid | DestroyUnreadable | DestroyStateFailed | DestroyWorkspaceFailed

  // ---- how collaborators may answer ----

  // os.RemoveAll: an error may or may not have removed the record.
  datatype StoreDelete = Deleted | DeleteFailed(recordGone: bool)

  // Put writes vm.json first; a later flat file may fail with the record already in place.
  datatype StorePut = Stored | PutFailed(recordWritten: bool)

  // Ensure reuses an existing volume; a failure may leave a new one behind.
  datatype EnsureVolume = VolumeReady | VolumeFailed(created: bool)

  datatype CreateTap = TapUp | TapAddedOnly | TapNotAdded(staleGone: bool)

  datatype LaunchEnv = LaunchEnv(
    unreadable: set<string>,              // records whose vm.json cannot be read at this moment
    listing: seq<string>, listOk: bool,   // the state directory's entries
    staleStops: bool, staleTapGone: bool, staleDelete: StoreDelete,
    rootfsOk: bool, volume: EnsureVolume, tap: CreateTap,
    orphansStop: bool, boot: Option<int>, chroot: string, bootTapGone: bool,
    put: StorePut, undoStops: bool, undoTapGone: bool, now: int)

  datatype DestroyEnv = DestroyEnv(
    unreadable: bool, stops: bool, tapGone: bool, delete: StoreDelete, volumeDestroyed: bool)

  datatype Lookup = Found(rec: VMRecord) | NotFound | Unreadable

  function Get(h: Host, id: string, unreadable: bool): Lookup {
    if id !in h.store then NotFound else if unreadable then Unreadable else Found(h.store[id])
  }

  // The readable records of the listed session directories, in listing order.
  function Readable(store: map<string, VMRecord>, listing: seq<string>, unreadable: set<string>): seq<VMRecord> {
    if listing == [] then []
    else
      var before, id := Readable(store, listing[..|listing| - 1], unreadable), listing[|listing| - 1];
      if SessionId.Valid(id) && id in store && id !in unreadable then before + [store[id]] else before
  }

  function InUse(list: seq<VMRecord>): seq<Parsed> {
    seq(|list|, i requires 0 <= i < |list| => V4(list[i].guestIP))
  }

  // Killing the recorded pid and every other process of the session.
  function Without(procs: map<int, string>, pid: int, id: string): map<int, string> {
    map p | p in procs && p != pid && procs[p] != id :: procs[p]
  }

  function TapAfterDelete(taps: set<string>, tap: string, gone: bool): set<string> {
    if gone then taps - {tap} else taps
  }

  function AfterDelete(store: map<string, VMRecord>, id: string, d: StoreDelete): map<string, VMRecord> {
    if d.Deleted? || d.recordGone then store - {id} else store
  }

  function AfterPut(store: map<string, VMRecord>, rec: VMRecord, p: StorePut): map<string, VMRecord> {
    if p.Stored? || p.recordWritten then store[rec.session := rec] else store
  }

  function OrDefault(v: int, def: int): int { if v <= 0 then def else v }

  // ---- the operations as functions of the host ----

  function ClearStale(h: Host, rec: VMRecord, id: string, env: LaunchEnv): Host {
    h.(procs := if env.staleStops then Without(h.procs, rec.pid, rec.session) else h.procs,
       taps := TapAfterDelete(h.taps, rec.tap, env.staleTapGone),
       store := AfterDelete(h.store, id, env.staleDelete))
  }

  function TapsAfterCreate(taps: set<string>, tap: string, outcome: CreateTap): set<string> {
    if outcome.TapNotAdded? then TapAfterDelete(taps, tap, outcome.staleGone) else taps + {tap}
  }

  function RecordOf(cfg: Config, req: LaunchRequest, env: LaunchEnv, net: GuestNet, pid: int): VMRecord {
    VMRecord(req.session, req.imageSHA, net.tap, env.chroot, cfg.workspacesDir + "/" + req.session + ".ext4",
             net.guestIP, net.hostIP, OrDefault(req.vcpus, 2), OrDefault(req.memMiB, 4096), pid, env.now)
  }

  function Boot(cfg: Config, h: Host, req: LaunchRequest, env: LaunchEnv, net: GuestNet): (Host, LaunchResult) {
    var id := req.session;
    var taps := TapsAfterCreate(h.taps, net.tap, env.tap);
    if !env.tap.TapUp? then (h.(taps := taps), LaunchFailed(TapFailed))
    else
      var procs := if env.orphansStop then Without(h.procs, 0, id) else h.procs;
      if env.boot.None? then
        (h.(procs := procs, taps := TapAfterDelete(taps, net.tap, env.bootTapGone)), LaunchFailed(DriverFailed))
      else
        var pid := env.boot.value;
        var rec := RecordOf(cfg, req, env, net, pid);
        var store := AfterPut(h.store, rec, env.put);
        if env.put.Stored? then
          (h.(store := store, procs := procs[pid := id], taps := taps, boots := h.boots + 1), Running(rec))
        else
          (h.(store := store, procs := if env.undoStops then Without(procs[pid := id], pid, id) else procs[pid := id],
              taps := TapAfterDelete(taps, net.tap, env.undoTapGone), boots := h.boots + 1), LaunchFailed(StateFailed))
  }

  function WithVolume(h: Host, id: string, volume: EnsureVolume): Host {
    if volume.VolumeFailed? && !volume.created then h else h.(workspaces := h.workspaces + {id})
  }

  ghost function Place(cfg: Config, h: Host, req: LaunchRequest, env: LaunchEnv): (Host, LaunchResult)
    requires SessionId.Valid(req.session)
  {
    var list := Readable(h.store, env.listing, env.unreadable);
    if !env.listOk then (h, LaunchFailed(ListFailed))
    else if |list| >= cfg.maxVMs then (h, LaunchFailed(AtCapacity))
    else if !env.rootfsOk then (h, LaunchFailed(RootfsFailed))
    else
      var g := WithVolume(h, req.session, env.volume);
      if env.volume.VolumeFailed? then (g, LaunchFailed(WorkspaceFailed))
      else
        var a := FirstFit(SessionId.TapName(req.session), cfg.subnet, cfg.anchor, InUse(list));
        if a.Refused? then (g, LaunchFailed(AllocateFailed(a.error))) else Boot(cfg, g, req, env, a.net)
  }

  // Launch: an already running session is returned as it is; a record that cannot be read counts as absent.
  ghost function Launch(cfg: Config, h: Host, req: LaunchRequest, env: LaunchEnv): (Host, LaunchResult) {
    if !SessionId.Valid(req.session) then (h, LaunchFailed(InvalidSession))
    else if req.forbiddenKey then (h, LaunchFailed(ForbiddenMMDS))
    else
      var got := Get(h, req.session, req.session in env.unreadable);
      if got.Found? && got.rec.pid in h.procs then (h, Running(got.rec))
      else Place(cfg, if got.Found? then ClearStale(h, got.rec, req.session, env) else h, req, env)
  }

  function DestroyVolume(h: Host, id: string, ok: bool): Host {
    if ok then h.(workspaces := h.workspaces - {id}) else h
  }

  function Destroy(h: Host, id: string, purge: bool, env: DestroyEnv): (Host, DestroyResult) {
    if !SessionId.Valid(id) then (h, DestroyInvalid)
    else
      var volumeGone := id !in h.workspaces || env.volumeDestroyed;
      var purged := if volumeGone then Destroyed else DestroyWorkspaceFailed;
      match Get(h, id, env.unreadable)
      case NotFound => if purge then (DestroyVolume(h, id, volumeGone), purged) else (h, Destroyed)
      case Unreadable => (h, DestroyUnreadable)
      case Found(rec) =>
        var g := h.(procs := if env.stops then Without(h.procs, rec.pid, rec.session) else h.procs,
                    taps := TapAfterDelete(h.taps, rec.tap, env.tapGone),
                    store := AfterDelete(h.store, id, env.delete));
        if !env.delete.Deleted? then (g, DestroyStateFailed)
        else if purge then (DestroyVolume(g, id, volumeGone), purged) else (g, Destroyed)
  }
}
