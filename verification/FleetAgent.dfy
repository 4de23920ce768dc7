/** The manager object of the host agent: it changes the host in place, call by call, under its mutex. */
module FleetAgent {
  import opened Protocol
  import opened Network
  import opened Manager
  import Laws = ManagerLaws
  import Results = ManagerResults
  import SessionId

  /** The manager object over the host state it changes. */
  class VMManager {
    const cfg: Config
    var store: map<string, VMRecord>
    var procs: map<int, string>
    var taps: set<string>
    var workspaces: set<string>
    ghost var boots: nat

    ghost function Snap(): Host reads this {
      Host(store, procs, taps, workspaces, boots)
    }

    // Every running VM is named by its session's record.
    ghost predicate NoStrays() reads this {
      Laws.Tracked(Snap()) && Laws.OwnRecords(Snap())
    }

    // What the laws of the step functions say about this object's next call.
    lemma LaunchKeeps(req: LaunchRequest, env: LaunchEnv)
      ensures var s, t := Laws.LaunchStep(req, env), Launch(cfg, Snap(), req, env).0;
        && (Laws.Possible(Snap(), s) && Laws.Fleet(cfg, store) ==>
              (Laws.Fleet(cfg, t.store) <==> Laws.Harmless(cfg, Snap(), s)))
        && (Laws.Possible(Snap(), s) && Laws.Kills(s) && NoStrays() ==> Laws.Tracked(t) && Laws.OwnRecords(t))
        && workspaces <= t.workspaces
    {
      var s := Laws.LaunchStep(req, env);
      Laws.LaunchKeepsWorkspaces(cfg, Snap(), req, env);
      hide Launch, Laws.Fleet, Laws.Harmless, Laws.Tracked, Laws.OwnRecords;
      if Laws.Possible(Snap(), s) && Laws.Fleet(cfg, store) { Laws.StepExactly(cfg, Snap(), s); }
      if Laws.Possible(Snap(), s) && Laws.Kills(s) && NoStrays() { Laws.ApplyKeepsTracked(cfg, Snap(), s); }
    }

    lemma DestroyKeeps(id: string, purge: bool, env: DestroyEnv)
      ensures var t := Destroy(Snap(), id, purge, env).0;
        && (Laws.Fleet(cfg, store) ==> Laws.Fleet(cfg, t.store))
        && (env.stops && NoStrays() ==> Laws.Tracked(t) && Laws.OwnRecords(t))
        && (t.workspaces == workspaces || (purge && t.workspaces == workspaces - {id}))
    {
      var s := Laws.DestroyStep(id, purge, env);
      if Laws.Fleet(cfg, store) { Laws.StepExactly(cfg, Snap(), s); }
      if env.stops && NoStrays() { Laws.ApplyKeepsTracked(cfg, Snap(), s); }
      hide Laws.Fleet, Laws.Tracked, Laws.OwnRecords, SessionId.Valid;
    }

    constructor (c: Config, h: Host)
      ensures cfg == c && Snap() == h
    {
      cfg := c;
      store, procs, taps, workspaces, boots := h.store, h.procs, h.taps, h.workspaces, h.boots;
    }

    method Lookup(id: string, unreadable: bool) returns (r: Lookup)
      ensures r == Get(Snap(), id, unreadable)
    {
      if id !in store { return NotFound; }
      if unreadable { return Unreadable; }
      return Found(store[id]);
    }

    // StateStore.List: unreadable records and other directories are skipped.
    method ListRecords(listing: seq<string>, unreadable: set<string>) returns (list: seq<VMRecord>)
      ensures list == Readable(store, listing, unreadable)
    {
      list := [];
      for i := 0 to |listing|
        invariant list == Readable(store, listing[..i], unreadable)
      {
        assert listing[..i + 1][..i] == listing[..i];
        if !SessionId.Valid(listing[i]) { continue; }
        var got := Lookup(listing[i], listing[i] in unreadable);
        if !got.Found? { continue; }
        list := list + [got.rec];
      }
      assert listing[..|listing|] == listing;
    }

    method DriverDestroy(rec: VMRecord, stops: bool)
      modifies this`procs
      ensures procs == if stops then Without(old(procs), rec.pid, rec.session) else old(procs)
    {
      if stops { procs := Without(procs, rec.pid, rec.session); }
    }

    method DeleteTap(tap: string, gone: bool)
      modifies this`taps
      ensures taps == TapAfterDelete(old(taps), tap, gone)
    {
      if gone { taps := taps - {tap}; }
    }

    method StoreDelete(id: string, d: StoreDelete)
      modifies this`store
      ensures store == AfterDelete(old(store), id, d)
    {
      if d.Deleted? || d.recordGone { store := store - {id}; }
    }

    method LaunchVM(req: LaunchRequest, env: LaunchEnv) returns (r: LaunchResult)
      requires Laws.HasToBoot(Snap(), req, env) && ReachesSearch(env) ==>
                 SearchEnds(cfg, Readable(Laws.Cleared(Snap(), req, env).store, env.listing, env.unreadable))
      modifies this
      ensures (Snap(), r) == Launch(cfg, old(Snap()), req, env)
      ensures Laws.Possible(old(Snap()), Laws.LaunchStep(req, env)) && Laws.Fleet(cfg, old(store)) ==>
                (Laws.Fleet(cfg, store) <==> Laws.Harmless(cfg, old(Snap()), Laws.LaunchStep(req, env)))
      ensures Laws.Possible(old(Snap()), Laws.LaunchStep(req, env)) && Laws.Kills(Laws.LaunchStep(req, env)) ==>
                old(NoStrays()) ==> NoStrays()
      ensures old(workspaces) <= workspaces
      ensures Results.LaunchAnswers(cfg, old(Snap()), req, env, r)
      ensures Results.LaunchAchieves(cfg, old(Snap()), req, env, Snap(), r)
      ensures Results.LaunchCleansUp(cfg, old(Snap()), req, env, Snap(), r)
      ensures Results.LaunchSpares(old(Snap()), req, env, Snap())
      ensures Results.LaunchSweeps(old(Snap()), req, env, Snap(), r)
    {
      LaunchKeeps(req, env);
      Results.LaunchIs(cfg, Snap(), req, env);
      hide Results.LaunchAnswers, Results.LaunchAchieves, Results.LaunchCleansUp, Results.LaunchSpares,
        Results.LaunchSweeps;
      hide Place, Readable, SessionId.Valid, SearchEnds, Laws.Fleet, Laws.Harmless, Laws.Tracked, Laws.OwnRecords;
      if !SessionId.Valid(req.session) { return LaunchFailed(InvalidSession); }
      if req.forbiddenKey { return LaunchFailed(ForbiddenMMDS); }
      var got := Lookup(req.session, req.session in env.unreadable);
      if got.Found? {
        if got.rec.pid in procs { return Running(got.rec); }
        DriverDestroy(got.rec, env.staleStops);
        DeleteTap(got.rec.tap, env.staleTapGone);
        StoreDelete(req.session, env.staleDelete);
      }
      r := PlaceVM(req, env);
    }

    method PlaceVM(req: LaunchRequest, env: LaunchEnv) returns (r: LaunchResult)
      requires SessionId.Valid(req.session)
      requires ReachesSearch(env) ==> SearchEnds(cfg, Readable(store, env.listing, env.unreadable))
      modifies this
      ensures (Snap(), r) == Place(cfg, old(Snap()), req, env)
    {
      hide Boot, Readable, SessionId.Valid, FirstFit, Pow2;
      if !env.listOk { return LaunchFailed(ListFailed); }
      var list := ListRecords(env.listing, env.unreadable);
      if |list| >= cfg.maxVMs { return LaunchFailed(AtCapacity); }
      if !env.rootfsOk { return LaunchFailed(RootfsFailed); }
      if env.volume.VolumeReady? || env.volume.created { workspaces := workspaces + {req.session}; }
      if env.volume.VolumeFailed? { return LaunchFailed(WorkspaceFailed); }
      var inUse := InUse(list);
      var a := Allocate(SessionId.TapName(req.session), cfg.subnet, cfg.anchor, inUse);
      if a.Refused? { return LaunchFailed(AllocateFailed(a.error)); }
      r := BootVM(req, env, a.net);
    }

    method BootVM(req: LaunchRequest, env: LaunchEnv, net: GuestNet) returns (r: LaunchResult)
      modifies this
      ensures (Snap(), r) == Boot(cfg, old(Snap()), req, env, net)
    {
      if env.tap.TapNotAdded? { DeleteTap(net.tap, env.tap.staleGone); } else { taps := taps + {net.tap}; }
      if !env.tap.TapUp? { return LaunchFailed(TapFailed); }
      if env.orphansStop { procs := Without(procs, 0, req.session); }
      if env.boot.None? {
        DeleteTap(net.tap, env.bootTapGone);
        return LaunchFailed(DriverFailed);
      }
      procs := procs[env.boot.value := req.session];
      boots := boots + 1;
      var rec := RecordOf(cfg, req, env, net, env.boot.value);
      if env.put.Stored? || env.put.recordWritten { store := store[rec.session := rec]; }
      if env.put.PutFailed? {
        DriverDestroy(rec, env.undoStops);
        DeleteTap(net.tap, env.undoTapGone);
        return LaunchFailed(StateFailed);
      }
      return Running(rec);
    }

    method DestroyVM(id: string, purge: bool, env: DestroyEnv) returns (r: DestroyResult)
      modifies this
      ensures (Snap(), r) == Destroy(old(Snap()), id, purge, env)
      ensures Laws.Fleet(cfg, old(store)) ==> Laws.Fleet(cfg, store)
      ensures env.stops ==> old(NoStrays()) ==> NoStrays()
      ensures workspaces == old(workspaces) || (purge && workspaces == old(workspaces) - {id})
      ensures Results.DestroyAnswers(old(Snap()), id, purge, env, r)
      ensures Results.DestroyAchieves(old(Snap()), id, purge, env, Snap(), r)
      ensures Results.DestroySpares(old(Snap()), id, purge, env, Snap(), r)
    {
      DestroyKeeps(id, purge, env);
      Results.DestroyIs(Snap(), id, purge, env);
      hide Results.DestroyAnswers, Results.DestroyAchieves, Results.DestroySpares;
      hide Laws.Fleet, Laws.Tracked, Laws.OwnRecords;
      if !SessionId.Valid(id) { return DestroyInvalid; }
      var got := Lookup(id, env.unreadable);
      match got {
        case NotFound =>
          if purge { r := Purge(id, env); return; }
          return Destroyed;
        case Unreadable => return DestroyUnreadable;
        case Found(rec) =>
          DriverDestroy(rec, env.stops);
          DeleteTap(rec.tap, env.tapGone);
          StoreDelete(id, env.delete);
          if !env.delete.Deleted? { return DestroyStateFailed; }
          if purge { r := Purge(id, env); return; }
          return Destroyed;
      }
    }

    method Purge(id: string, env: DestroyEnv) returns (r: DestroyResult)
      modifies this`workspaces
      ensures var gone := id !in old(workspaces) || env.volumeDestroyed;
        && workspaces == (if gone then old(workspaces) - {id} else old(workspaces))
        && r == if gone then Destroyed else DestroyWorkspaceFailed
    {
      if id !in workspaces { return Destroyed; }
      if !env.volumeDestroyed { return DestroyWorkspaceFailed; }
      workspaces := workspaces - {id};
      return Destroyed;
    }
  }
}
