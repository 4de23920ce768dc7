/** The guest's keep-alive loop, its command handlers and VM restarts, interleaved in any order over one
    durable steering queue. Append and Drain are single steps; so is the non-blocking wake send. */
module GuestLoop {
  import opened Protocol
  import opened SteeringQueue

  // Subscribed: commands arrive, the workspace is not mounted yet. Mounted: booting. Holding: a batch
  // is in hand, its turn not started. Woken: the wake token is taken, the queue not yet drained.
  datatype Phase = Subscribed | Mounted | Holding | Turning | Selecting | Woken | Ended

  datatype Guest = Guest(
    mode: Mode, phase: Phase, file: Option<string>,
    token: bool,             // the wake channel's one slot
    handlers: nat,           // message handlers between their append and their send
    inHand: seq<string>,     // drained for a turn that has not started
    // history
    covered: bool,           // this guest's queue was empty at mount, or has been drained by it
    received: seq<string>,   // appended to the mounted queue, across guests
    taken: seq<string>,      // drained from it
    handed: seq<string>,     // given to a turn
    shadowed: seq<string>,   // appended before the workspace was mounted over the queue's path
    dropped: bool)           // a guest died with a batch in hand

  datatype Event =
    | Message(text: string, append: AppendEnv)   // a handler runs up to its send
    | Send                                       // a handler sends the wake token and returns
    | Mount(ok: bool)
    | FirstTurn(ok: bool, drain: DrainEnv)       // the rest of the boot, then firstTurnSpec
    | Begin                                      // the turn starts with the batch in hand
    | TurnDone(ok: bool)
    | Wake
    | WakeDrain(drain: DrainEnv)
    | Idle(tunnel: bool)
    | Abort
    | Restart(mode: Mode)                        // the VM dies, whatever it was doing, and a new guest boots

  // A resume or plan guest drains the queue for its first turn; an initial or execute guest does not.
  predicate DrainsFirst(mode: Mode) { mode == Resume || mode == Plan }

  function Boot(file: Option<string>, mode: Mode): Guest {
    Guest(mode, Subscribed, file, false, 0, [], false, [], [], [], [], false)
  }

  function Receive(g: Guest, text: string, env: AppendEnv): Guest {
    if g.phase == Subscribed then
      g.(handlers := g.handlers + 1, shadowed := g.shadowed + if Appends(env) then [text] else [])
    else
      g.(handlers := g.handlers + 1, file := Appended(g.file, text, env),
         received := g.received + if Appends(env) then [text] else [])
  }

  // Draining for a turn; the caller decides what an error means.
  function Take(g: Guest, env: DrainEnv): Guest {
    var (got, after) := Drained(g.file, env);
    if got.None? then g.(file := after)
    else g.(file := after, inHand := got.value, taken := g.taken + got.value, covered := true)
  }

  // An event that the phase does not allow changes nothing.
  function Step(g: Guest, e: Event): Guest {
    match e
    case Message(text, append) => if g.phase == Ended then g else Receive(g, text, append)
    case Send => if g.handlers == 0 then g else g.(handlers := g.handlers - 1, token := true)
    case Mount(ok) =>
      if g.phase != Subscribed then g
      else if !ok then g.(phase := Ended)
      else g.(phase := Mounted, covered := Decoded(g.file) == Some([]))
    case FirstTurn(ok, drain) =>
      if g.phase != Mounted then g
      else if !ok then g.(phase := Ended)
      else if DrainsFirst(g.mode) then Take(g, drain).(phase := Holding)
      else g.(phase := Holding)
    case Begin => if g.phase != Holding then g else g.(phase := Turning, handed := g.handed + g.inHand, inHand := [])
    case TurnDone(ok) => if g.phase != Turning then g else g.(phase := if ok then Selecting else Ended)
    case Wake => if g.phase != Selecting || !g.token then g else g.(phase := Woken, token := false)
    case WakeDrain(drain) =>
      if g.phase != Woken then g
      else
        var h := Take(g, drain);
        h.(phase := if Drained(g.file, drain).0.None? then Ended else if h.inHand == [] then Selecting else Holding)
    case Idle(tunnel) => if g.phase != Selecting || tunnel then g else g.(phase := Ended)
    case Abort => if g.phase != Selecting then g else g.(phase := Ended)
    case Restart(mode) =>
      g.(mode := mode, phase := Subscribed, token := false, handlers := 0, inHand := [], covered := false,
         dropped := g.dropped || g.inHand != [])
  }

  function Run(g: Guest, events: seq<Event>): Guest {
    if events == [] then g else Step(Run(g, events[..|events| - 1]), events[|events| - 1])
  }

  // ---- no message is lost, reordered or repeated ----

  ghost predicate Conserves(g: Guest, start: seq<string>, queued: seq<string>) {
    && Holds(g.file, queued)
    && start + g.received == g.taken + queued
    && (!g.dropped ==> g.taken == g.handed + g.inHand)
    && (g.phase != Holding ==> g.inHand == [])
  }

  function QueuedAfter(g: Guest, e: Event, queued: seq<string>): seq<string> {
    match e
    case Message(text, append) =>
      if g.phase != Ended && g.phase != Subscribed && Appends(append) then queued + [text] else queued
    case FirstTurn(ok, drain) =>
      if g.phase == Mounted && ok && DrainsFirst(g.mode) && Drained(g.file, drain).0.Some? then [] else queued
    case WakeDrain(drain) => if g.phase == Woken && Drained(g.file, drain).0.Some? then [] else queued
    case _ => queued
  }

  lemma StepConserves(g: Guest, e: Event, start: seq<string>, queued: seq<string>)
    requires Conserves(g, start, queued)
    ensures Conserves(Step(g, e), start, QueuedAfter(g, e, queued))
  {
    hide Holds, Drained, Appended;
    match e
    case Message(text, append) =>
      AppendHolds(g.file, queued, text, append);
      assert start + (g.received + [text]) == start + g.received + [text];
      assert g.taken + (queued + [text]) == g.taken + queued + [text];
    case FirstTurn(ok, drain) => DrainHolds(g.file, queued, drain);
    case WakeDrain(drain) => DrainHolds(g.file, queued, drain);
    case Begin => assert g.handed + g.inHand + [] == g.handed + g.inHand;
    case _ =>
  }

  lemma {:induction false} RunConserves(g: Guest, events: seq<Event>, start: seq<string>) returns (queued: seq<string>)
    requires Conserves(g, start, start)
    ensures Conserves(Run(g, events), start, queued)
  {
    if events == [] { return start; }
    var before := events[..|events| - 1];
    queued := RunConserves(g, before, start);
    StepConserves(Run(g, before), events[|events| - 1], start, queued);
    queued := QueuedAfter(Run(g, before), events[|events| - 1], queued);
  }

  // Under every interleaving: what was queued at the start and received since is exactly what was
  // drained followed by what the file decodes to; and unless a guest died with a batch in hand, all
  // that was drained went to a turn, in order, but for the batch in hand.
  lemma MessagesAreConserved(file: Option<string>, start: seq<string>, mode: Mode, events: seq<Event>)
    requires Holds(file, start)
    ensures var g := Run(Boot(file, mode), events);
      && Decoded(g.file).Some?
      && start + g.received == g.taken + Decoded(g.file).value
      && (!g.dropped ==> start + g.received == g.handed + g.inHand + Decoded(g.file).value)
  {
    var queued := RunConserves(Boot(file, mode), events, start);
    HoldsDecodes(Run(Boot(file, mode), events).file, queued);
  }

  // ---- no lost wake-up ----

  // The queue of a covered guest is empty, or somebody is about to look at it.
  ghost predicate Noticed(g: Guest) {
    g.covered && g.phase != Ended && Decoded(g.file) != Some([]) ==> g.token || g.handlers > 0 || g.phase == Woken
  }

  lemma StepNotices(g: Guest, e: Event)
    requires Noticed(g)
    ensures Noticed(Step(g, e))
  {
    hide DecodeLines;
  }

  lemma {:induction false} RunNotices(g: Guest, events: seq<Event>)
    requires Noticed(g)
    ensures Noticed(Run(g, events))
  {
    if events != [] {
      RunNotices(g, events[..|events| - 1]);
      StepNotices(Run(g, events[..|events| - 1]), events[|events| - 1]);
    }
  }

  // A guest whose queue was empty at mount or that has drained it never sleeps on a message: at the
  // select a nonempty queue has a wake token pending, or a handler about to send one.
  lemma NoLostWakeup(file: Option<string>, mode: Mode, events: seq<Event>)
    ensures var g := Run(Boot(file, mode), events);
      g.phase == Selecting && g.covered && Decoded(g.file) != Some([]) ==> g.token || g.handlers > 0
  {
    RunNotices(Boot(file, mode), events);
  }

  // ---- what each guest event is for ----

  // A guest ends exactly when its boot, a turn or a later drain fails, it is aborted, or it idles with no
  // human in its tunnel; a restart brings one back, and nothing else does.
  lemma StepEnds(g: Guest, e: Event)
    ensures Step(g, e).phase == Ended <==>
      match e
      case Mount(ok) => g.phase == Ended || (g.phase == Subscribed && !ok)
      case FirstTurn(ok, _) => g.phase == Ended || (g.phase == Mounted && !ok)
      case TurnDone(ok) => g.phase == Ended || (g.phase == Turning && !ok)
      case WakeDrain(drain) =>
        g.phase == Ended || (g.phase == Woken && g.file.Some?
                             && (!drain.readOk || !drain.removeOk || Decoded(g.file).None?))
      case Idle(tunnel) => g.phase == Ended || (g.phase == Selecting && !tunnel)
      case Abort => g.phase == Ended || g.phase == Selecting
      case Restart(_) => false
      case _ => g.phase == Ended
  {
    hide DecodeLines;
  }

  // The wake token is set by a handler's send and taken by a wake, and by nothing else; a restart drops
  // it with the handlers, boots in the mode asked for, and loses only a batch in hand.
  lemma StepSignals(g: Guest, e: Event)
    ensures var h := Step(g, e);
      && (h.token <==>
            (e.Send? && g.handlers > 0) || (g.token && !e.Restart? && !(e.Wake? && g.phase == Selecting)))
      && h.handlers ==
           (if e.Restart? then 0 else if e.Send? && g.handlers > 0 then g.handlers - 1
            else if e.Message? && g.phase != Ended then g.handlers + 1 else g.handlers)
      && (e.Wake? ==> (h.phase == Woken <==> g.phase == Woken || (g.phase == Selecting && g.token)))
      && h.mode == (if e.Restart? then e.mode else g.mode)
      && (e.Restart? ==> h.phase == Subscribed && h.file == g.file && h.received == g.received && h.taken == g.taken)
      && (h.dropped <==> g.dropped || (e.Restart? && g.inHand != []))
  {
    hide DecodeLines, Decoded, Drained, Appended;
  }

  // A turn starts with exactly the batch in hand; and a woken guest takes the whole queue, and starts a
  // turn if and only if there was something in it.
  lemma TurnsGetTheQueue(g: Guest, e: Event)
    ensures var h := Step(g, e);
      && (h.handed != g.handed <==> e.Begin? && g.phase == Holding && g.inHand != [])
      && (e.Begin? && g.phase == Holding ==> h.handed == g.handed + g.inHand && h.inHand == [] && h.phase == Turning)
      && (e.WakeDrain? && g.phase == Woken && h.phase != Ended ==>
            && Decoded(g.file).Some? && h.inHand == Decoded(g.file).value && Decoded(h.file) == Some([])
            && (h.phase == Holding <==> h.inHand != []) && (h.phase == Selecting <==> h.inHand == []))
      && (e.FirstTurn? && g.phase == Mounted && e.ok ==>
            && h.phase == Holding
            && (if g.mode == Initial || g.mode == Execute || (g.file.Some? && (!e.drain.readOk || !e.drain.removeOk))
                then h.inHand == g.inHand && h.file == g.file
                else Decoded(g.file).Some? ==> h.inHand == Decoded(g.file).value && Decoded(h.file) == Some([])))
  {
    assert g.inHand != [] ==> g.handed + g.inHand != g.handed;
    hide DecodeLines;
  }

  // The i-th event lets the guest see its whole queue: it mounts an empty one, or drains it.
  ghost predicate Covers(g: Guest, events: seq<Event>, i: nat)
    requires i < |events|
  {
    var h, e := Run(g, events[..i]), events[i];
    || (e.Mount? && e.ok && h.phase == Subscribed && Decoded(h.file) == Some([]))
    || (e.FirstTurn? && e.ok && h.phase == Mounted && (h.mode == Resume || h.mode == Plan)
        && Drained(h.file, e.drain).0.Some?)
    || (e.WakeDrain? && h.phase == Woken && Drained(h.file, e.drain).0.Some?)
  }

  // A guest is covered exactly when such an event came since the last restart.
  ghost predicate CoveredBy(g: Guest, events: seq<Event>) {
    exists i: nat :: i < |events| && Covers(g, events, i) && forall j :: i < j < |events| ==> !events[j].Restart?
  }

  lemma CoverGrows(g: Guest, events: seq<Event>, e: Event)
    ensures CoveredBy(g, events + [e]) <==> Covers(g, events + [e], |events|) || (CoveredBy(g, events) && !e.Restart?)
  {
    var all, n := events + [e], |events|;
    assert forall j :: 0 <= j < n ==> all[j] == events[j];
    forall i: nat | i < n ensures Covers(g, all, i) <==> Covers(g, events, i) { assert all[..i] == events[..i]; }
    hide Covers;
    if CoveredBy(g, events) && !e.Restart? {
      var i: nat :| i < n && Covers(g, events, i) && forall j :: i < j < n ==> !events[j].Restart?;
      assert Covers(g, all, i);
    }
    if CoveredBy(g, all) && !Covers(g, all, n) {
      var i: nat :| i < |all| && Covers(g, all, i) && forall j :: i < j < |all| ==> !all[j].Restart?;
      assert i < n && all[n] == e;
      assert Covers(g, events, i);
    }
  }

  // A guest is not covered before its mount.
  ghost predicate FreshUncovered(g: Guest) { g.phase == Subscribed ==> !g.covered }

  lemma StepCovers(g: Guest, e: Event)
    requires FreshUncovered(g)
    ensures FreshUncovered(Step(g, e))
    ensures Step(g, e).covered <==>
      || (e.Mount? && e.ok && g.phase == Subscribed && Decoded(g.file) == Some([]))
      || (e.FirstTurn? && e.ok && g.phase == Mounted && (g.mode == Resume || g.mode == Plan)
          && Drained(g.file, e.drain).0.Some?)
      || (e.WakeDrain? && g.phase == Woken && Drained(g.file, e.drain).0.Some?)
      || (g.covered && !e.Restart?)
  {
    hide DecodeLines, Decoded, Drained;
  }

  lemma {:induction false} CoveredExactly(file: Option<string>, mode: Mode, events: seq<Event>)
    ensures var g := Run(Boot(file, mode), events);
      FreshUncovered(g) && (g.covered <==> CoveredBy(Boot(file, mode), events))
  {
    if events != [] {
      var before, e := events[..|events| - 1], events[|events| - 1];
      var b := Boot(file, mode);
      CoveredExactly(file, mode, before);
      assert before + [e] == events && events[..|before|] == before;
      CoverGrows(b, before, e);
      StepCovers(Run(b, before), e);
      hide Step, CoveredBy, Boot;
    }
  }

  // So no wake-up is lost, read off the events: since the last restart the guest mounted an empty queue
  // or drained it, and then at the select a nonempty queue has a token, or a handler about to send one.
  lemma NoLostWakeupSince(file: Option<string>, mode: Mode, events: seq<Event>)
    requires CoveredBy(Boot(file, mode), events)
    ensures var g := Run(Boot(file, mode), events);
      g.phase == Selecting && Decoded(g.file) != Some([]) ==> g.token || g.handlers > 0
  {
    CoveredExactly(file, mode, events);
    NoLostWakeup(file, mode, events);
  }

  // ---- where that stops ----

  function FirstRound(drain: DrainEnv): seq<Event> {
    [Mount(true), FirstTurn(true, drain), Begin, TurnDone(true)]
  }

  lemma RunFirstRound(g: Guest, drain: DrainEnv)
    ensures Run(g, FirstRound(drain)) ==
      Step(Step(Step(Step(g, Mount(true)), FirstTurn(true, drain)), Begin), TurnDone(true))
  {
    var es := FirstRound(drain);
    assert es[..3] == [Mount(true), FirstTurn(true, drain), Begin];
    assert es[..3][..2] == [Mount(true), FirstTurn(true, drain)];
    assert es[..3][..2][..1] == [Mount(true)];
    assert es[..3][..2][..1][..0] == [];
    assert Run(g, es[..3][..2][..1]) == Step(g, Mount(true));
    assert Run(g, es[..3][..2]) == Step(Step(g, Mount(true)), FirstTurn(true, drain));
  }

  // A guest that hears nothing in its first round reaches the select with messages waiting and nothing
  // to wake it exactly when messages were waiting and it did not drain them: it was launched in initial
  // or execute mode, or the first drain failed (its error is ignored).
  lemma StaleQueueSleeps(file: Option<string>, start: seq<string>, mode: Mode, drain: DrainEnv)
    requires Holds(file, start)
    ensures var g := Run(Boot(file, mode), FirstRound(drain));
      && g.phase == Selecting && !g.token && g.handlers == 0
      && (Decoded(g.file) != Some([]) <==> start != [] && (!DrainsFirst(mode) || !drain.readOk || !drain.removeOk))
  {
    RunFirstRound(Boot(file, mode), drain);
    HoldsDecodes(file, start);
    hide DecodeLines;
  }

  // Every message whose append succeeded, in order, whichever directory it went to.
  function AppendedBy(g: Guest, events: seq<Event>): seq<string> {
    if events == [] then []
    else
      var before, e := events[..|events| - 1], events[|events| - 1];
      AppendedBy(g, before) +
      if e.Message? && Appends(e.append) && Run(g, before).phase != Ended then [e.text] else []
  }

  lemma StepAppends(g: Guest, e: Event)
    ensures var h := Step(g, e);
      var more := if e.Message? && Appends(e.append) && g.phase != Ended then [e.text] else [];
      || (h.received == g.received + more && h.shadowed == g.shadowed)
      || (more != [] && h.received == g.received && h.shadowed == g.shadowed + more)
  {
    hide Appended, Drained, Decoded, Appends;
  }

  lemma {:induction false} AppendedSplit(g: Guest, events: seq<Event>)
    requires g.received == [] && g.shadowed == []
    ensures var h := Run(g, events);
      && |AppendedBy(g, events)| == |h.received| + |h.shadowed|
      && (h.shadowed == [] ==> AppendedBy(g, events) == h.received)
  {
    if events != [] {
      AppendedSplit(g, events[..|events| - 1]);
      StepAppends(Run(g, events[..|events| - 1]), events[|events| - 1]);
      hide Step, Appends;
    }
  }

  // Of those, the ones that came before a mount.
  function EarlyBy(g: Guest, events: seq<Event>): seq<string> {
    if events == [] then []
    else
      var before, e := events[..|events| - 1], events[|events| - 1];
      EarlyBy(g, before) +
      if e.Message? && e.append.mkdirOk && e.append.openOk && e.append.writeOk && Run(g, before).phase == Subscribed
      then [e.text] else []
  }

  lemma StepShadows(g: Guest, e: Event)
    ensures var h := Step(g, e);
      var early := e.Message? && e.append.mkdirOk && e.append.openOk && e.append.writeOk && g.phase == Subscribed;
      && h.shadowed == (if early then g.shadowed + [e.text] else g.shadowed)
      && (e.Message? && g.phase == Subscribed ==> h.file == g.file && h.received == g.received)
  {
    hide Appended, Drained, Decoded;
    assert g.shadowed + [] == g.shadowed;
  }

  // A message is hidden exactly when it is appended between the subscription and the mount.
  lemma {:induction false} ShadowedExactly(g: Guest, events: seq<Event>)
    requires g.shadowed == []
    ensures Run(g, events).shadowed == EarlyBy(g, events)
  {
    if events != [] {
      ShadowedExactly(g, events[..|events| - 1]);
      StepShadows(Run(g, events[..|events| - 1]), events[|events| - 1]);
      hide Step;
    }
  }

  // Commands are subscribed before the workspace is mounted. A message appended in between is written
  // where the mount then hides it, so the queue accounts for every appended message exactly when none
  // was appended in that window.
  lemma ConservedUnlessShadowed(file: Option<string>, start: seq<string>, mode: Mode, events: seq<Event>)
    requires Holds(file, start)
    ensures var b := Boot(file, mode);
      var g := Run(b, events);
      && Decoded(g.file).Some?
      && (start + AppendedBy(b, events) == g.taken + Decoded(g.file).value <==> g.shadowed == [])
  {
    var b := Boot(file, mode);
    MessagesAreConserved(file, start, mode, events);
    AppendedSplit(b, events);
    assert |start + AppendedBy(b, events)| == |start + Run(b, events).received| + |Run(b, events).shadowed|;
  }
}
