/**
 * A comm inside an event loop that also runs any number of other events.
 *
 * A step is a step of the loop; when it fires an event of the comm, the handler
 * runs and its requests go to the loop. The owner, or any other code, may call
 * the comm's API at any point.
 */
module CommWorld {
  import opened Seqs
  import Fde
  import opened FdeLists
  import opened FdeKernel
  import opened Comm
  import opened CommInvariants
  import opened CommTraces

  type Loop = Fde.Loop

  datatype World = World(loop: Loop, k: Core)

  datatype WLabel = Step(l: Fde.Label, i: Input) | Api(cmd: UserCmd)

  // ------------------------------------------------------------------
  // The ten events of the comm
  // ------------------------------------------------------------------

  function Index(ev: Ev): (r: nat)
    ensures r < 10 && EvAt(r) == ev
  {
    match ev
    case EvRead => 0
    case EvReadCb => 1
    case EvWrite => 2
    case EvWriteCb => 3
    case EvCleanup => 4
    case EvAccept => 5
    case EvConnect => 6
    case EvConnectStart => 7
    case EvUdpRead => 8
    case EvUdpWrite => 9
  }

  function EvAt(i: nat): Ev
    requires i < 10
  {
    if i == 0 then EvRead else if i == 1 then EvReadCb else if i == 2 then EvWrite
    else if i == 3 then EvWriteCb else if i == 4 then EvCleanup else if i == 5 then EvAccept
    else if i == 6 then EvConnect else if i == 7 then EvConnectStart
    else if i == 8 then EvUdpRead else EvUdpWrite
  }

  lemma IndexOfEvAt(i: nat)
    requires i < 10
    ensures Index(EvAt(i)) == i
  {
  }

  function Id(base: nat, ev: Ev): Fde.EventId {
    base + Index(ev)
  }

  predicate Owned(base: nat, e: Fde.EventId) {
    base <= e < base + 10
  }

  function EvOf(base: nat, e: Fde.EventId): (r: Ev)
    requires Owned(base, e)
    ensures Id(base, r) == e
  {
    IndexOfEvAt(e - base);
    EvAt(e - base)
  }

  function KindOf(ev: Ev): Fde.Kind {
    if IsCallback(ev) then Fde.Callback
    else if ReadSide(ev) then Fde.Io(Fde.ReadFilter)
    else Fde.Io(Fde.WriteFilter)
  }

  /** An event as comm_create makes it. */
  predicate Shaped(x: Fde.Event, ev: Ev, fd: int) {
    && x.kind == KindOf(ev)
    && (!IsCallback(ev) ==> x.fd == fd && x.persist == IsPersistent(ev))
  }

  ghost predicate LiveEvent(s: Loop, base: nat, fd: int, on: On, ev: Ev) {
    && Id(base, ev) in s.events
    && Shaped(s.events[Id(base, ev)], ev, fd)
    && s.events[Id(base, ev)].active == Has(on, ev)
  }

  /** The loop holds the comm's events, active exactly as the comm believes. */
  ghost predicate Synced(s: Loop, fd: int, on: On) {
    && on.base + 10 <= s.nextId
    && (forall ev :: LiveEvent(s, on.base, fd, on, ev))
  }

  /** No other event of the loop watches the comm's descriptor. */
  ghost predicate OwnsFd(s: Loop, base: nat, fd: int) {
    forall e :: e in s.events && !Owned(base, e) && s.events[e].kind.Io? ==> s.events[e].fd != fd
  }

  ghost predicate Gone(s: Loop, base: nat) {
    base + 10 <= s.nextId && forall e :: Owned(base, e) ==> e !in s.events
  }

  // ------------------------------------------------------------------
  // Steps
  // ------------------------------------------------------------------

  function CmdOf(base: nat, act: Act): Fde.Cmd {
    match act
    case Arm(ev) => Fde.Add(Id(base, ev))
    case Disarm(ev) => Fde.Delete(Id(base, ev))
    case Release(ev) => Fde.Free(Id(base, ev))
  }

  function ExecAct(s: Loop, base: nat, act: Act): Loop {
    if Fde.CmdOk(s, CmdOf(base, act)) then Fde.Do(s, CmdOf(base, act)) else s
  }

  function Exec(s: Loop, base: nat, acts: seq<Act>): Loop {
    if acts == [] then s
    else ExecAct(Exec(s, base, acts[..|acts| - 1]), base, acts[|acts| - 1])
  }

  /** The event whose callback this step runs, if any. */
  predicate Fires(s: Loop, l: Fde.Label) {
    l.FireCb? || (l.Deliver? && Fde.IsActive(s, l.e))
  }

  function Target(c: Fde.Cmd): Fde.EventId
    requires !c.Create?
  {
    c.e
  }

  predicate Enabled(w: World, wl: WLabel) {
    var base := w.k.port.on.base;
    match wl
    case Api(cmd) => !w.k.f.freed && Allowed(w.k.f, cmd)
    case Step(l, _) =>
      && Fde.Enabled(w.loop, l)
      && (l.Call? ==> if l.cmd.Create? then l.cmd.kind.Io? && !w.k.f.freed ==> l.cmd.fd != w.k.port.on.fd
                      else !Owned(base, Target(l.cmd)))
  }

  predicate RunsHandler(w: World, l: Fde.Label) {
    Fires(w.loop, l) && !w.k.f.freed && Owned(w.k.port.on.base, l.e)
  }

  /** One step; a label that is not enabled changes nothing. */
  function Next(w: World, wl: WLabel): World {
    var base := w.k.port.on.base;
    if !Enabled(w, wl) then w else match wl
    case Api(cmd) =>
      var k := DoCmd(w.k.(port := NewPort(w.k.port.on)), cmd);
      World(Exec(w.loop, base, k.port.acts), k)
    case Step(l, i) =>
      if RunsHandler(w, l) then
        var ev := EvOf(base, l.e);
        var k := Dispatch(Fired(w.k, ev), ev, i);
        World(Exec(Fde.Next(w.loop, l), base, k.port.acts), k)
      else
        World(Fde.Next(w.loop, l), w.k)
  }

  predicate Valid(w: World, ls: seq<WLabel>)
    decreases |ls|
  {
    ls == [] || (Valid(w, ls[..|ls| - 1]) && Enabled(Run(w, ls[..|ls| - 1]), ls[|ls| - 1]))
  }

  function Run(w: World, ls: seq<WLabel>): World
    decreases |ls|
  {
    if ls == [] then w else Next(Run(w, ls[..|ls| - 1]), ls[|ls| - 1])
  }

  // ------------------------------------------------------------------
  // Keeping comm and loop in step
  // ------------------------------------------------------------------

  lemma IdsDiffer(base: nat, a: Ev, b: Ev)
    ensures Id(base, a) == Id(base, b) ==> a == b
    ensures Owned(base, Id(base, a))
  {
    assert EvAt(Index(a)) == a && EvAt(Index(b)) == b;
  }

  lemma TurnHas(on: On, ev: Ev, b: bool, other: Ev)
    ensures Has(Turn(on, ev, b), other) == if other == ev then b else Has(on, other)
    ensures Turn(on, ev, b).base == on.base && Turn(on, ev, b).fd == on.fd && Turn(on, ev, b).closeCb == on.closeCb
  {
  }

  /** Adding and deleting only switch the event itself. */
  lemma AddChanges(s: Loop, e: Fde.EventId)
    requires e in s.events && !s.events[e].kind.Timer?
    ensures Fde.AddEvent(s, e).events ==
      s.events[e := s.events[e].(active := true, genid := Fde.AddEvent(s, e).events[e].genid)]
    ensures Fde.AddEvent(s, e).nextId == s.nextId && Fde.AddEvent(s, e).phase == s.phase
    ensures Fde.AddEvent(s, e).genid == s.genid
  {
    hide Fde.Push;
  }

  lemma DeleteChanges(s: Loop, e: Fde.EventId)
    requires e in s.events
    ensures Fde.DeleteEvent(s, e).events == s.events[e := s.events[e].(active := false)]
    ensures Fde.DeleteEvent(s, e).nextId == s.nextId && Fde.DeleteEvent(s, e).phase == s.phase
    ensures Fde.DeleteEvent(s, e).genid == s.genid
  {
    hide Fde.Push, Remove;
  }

  /** `t` is `s` with the event `ev` of the comm switched. */
  ghost predicate Switched(s: Loop, t: Loop, base: nat, ev: Ev, b: bool) {
    var e := Id(base, ev);
    && e in s.events && e in t.events && t.nextId == s.nextId
    && t.events == s.events[e := s.events[e].(active := b, genid := t.events[e].genid)]
  }

  lemma SwitchedSyncs(s: Loop, t: Loop, fd: int, on: On, ev: Ev, b: bool)
    requires Synced(s, fd, on) && OwnsFd(s, on.base, fd) && Switched(s, t, on.base, ev, b)
    ensures Synced(t, fd, Turn(on, ev, b))
    ensures OwnsFd(t, on.base, fd)
  {
    hide Turn, Has;
    TurnHas(on, ev, b, ev);
    IdsDiffer(on.base, ev, ev);
    forall x ensures LiveEvent(t, on.base, fd, Turn(on, ev, b), x) {
      assert LiveEvent(s, on.base, fd, on, x);
      IdsDiffer(on.base, x, ev);
      TurnHas(on, ev, b, x);
    }
  }

  lemma ActSwitches(s: Loop, fd: int, on: On, act: Act)
    requires Synced(s, fd, on) && CleanAct(on, act)
    ensures Switched(s, ExecAct(s, on.base, act), on.base, act.ev, act.Arm?)
    ensures Fde.CmdOk(s, CmdOf(on.base, act))
    ensures ExecAct(s, on.base, act) == Fde.Do(s, CmdOf(on.base, act))
    ensures ExecAct(s, on.base, act).phase == s.phase && ExecAct(s, on.base, act).genid == s.genid
  {
    var e := Id(on.base, act.ev);
    assert LiveEvent(s, on.base, fd, on, act.ev);
    if act.Arm? { AddChanges(s, e); } else { DeleteChanges(s, e); }
    hide Fde.AddEvent, Fde.DeleteEvent, RivalOn, Has;
  }

  lemma ExecActSyncs(s: Loop, fd: int, on: On, act: Act)
    requires Sound(s) && Synced(s, fd, on) && OwnsFd(s, on.base, fd) && CleanAct(on, act)
    ensures Synced(ExecAct(s, on.base, act), fd, After(on, act))
    ensures OwnsFd(ExecAct(s, on.base, act), on.base, fd)
    ensures Sound(ExecAct(s, on.base, act))
  {
    ActSwitches(s, fd, on, act);
    hide Synced, OwnsFd, Sound, ExecAct, Switched, Turn, CleanAct;
    SwitchedSyncs(s, ExecAct(s, on.base, act), fd, on, act.ev, act.Arm?);
    NextKeepsSound(s, Fde.Call(CmdOf(on.base, act)));
  }

  lemma {:induction false} OnAfterBase(on: On, acts: seq<Act>)
    ensures OnAfter(on, acts).base == on.base && OnAfter(on, acts).fd == on.fd
    ensures OnAfter(on, acts).closeCb == on.closeCb
    decreases |acts|
  {
    hide Turn;
    if acts != [] {
      OnAfterBase(on, acts[..|acts| - 1]);
      TurnHas(OnAfter(on, acts[..|acts| - 1]), acts[|acts| - 1].ev, acts[|acts| - 1].Arm?, EvRead);
    }
  }

  /** Running the requests of a live comm keeps comm and loop in step. */
  lemma {:induction false} ExecSyncs(s: Loop, fd: int, on: On, acts: seq<Act>)
    requires Sound(s) && Synced(s, fd, on) && OwnsFd(s, on.base, fd) && CleanAfter(on, acts)
    ensures Synced(Exec(s, on.base, acts), fd, OnAfter(on, acts))
    ensures OwnsFd(Exec(s, on.base, acts), on.base, fd)
    ensures Sound(Exec(s, on.base, acts))
    decreases |acts|
  {
    hide Synced, OwnsFd, Sound, ExecAct, After, CleanAct;
    if acts != [] {
      var rest, act := acts[..|acts| - 1], acts[|acts| - 1];
      ExecSyncs(s, fd, on, rest);
      OnAfterBase(on, rest);
      ExecActSyncs(Exec(s, on.base, rest), fd, OnAfter(on, rest), act);
    }
  }

  // ------------------------------------------------------------------
  // The end of a comm
  // ------------------------------------------------------------------

  /** What a freed comm leaves behind. */
  ghost predicate EndInv(k: Core) {
    && k.f.freed && CloseReady(k.f) && k.f.cleanup && !k.lost
    && Balanced(k.f, k.trace) && SliceSent(k.w, k.trace)
    && AcceptedFrames(k.trace) == ReportedFrames(k.trace)
    && CleanupsQueued(k.trace) == 1
    && CloseCalls(k.trace) == One(k.port.start.closeCb)
  }

  function Releases(evs: seq<Ev>): (r: seq<Act>)
    ensures |r| == |evs| && forall i :: 0 <= i < |evs| ==> r[i] == Release(evs[i])
  {
    seq(|evs|, i requires 0 <= i < |evs| => Release(evs[i]))
  }

  lemma {:induction false} ReleaseAllActs(k: Core, evs: seq<Ev>)
    ensures ReleaseAll(k, evs).port.acts == k.port.acts + Releases(evs)
    decreases |evs|
  {
    if evs == [] {
      assert k.port.acts + Releases(evs) == k.port.acts;
    } else {
      hide Asks, After;
      var act := Release(evs[0]);
      ReleaseAllActs(Asks(k, act, After(k.port.on, act), false), evs[1..]);
      assert k.port.acts + [act] + Releases(evs[1..]) == k.port.acts + Releases(evs);
    }
  }

  lemma {:induction false} ReleaseAllEnds(k: Core, evs: seq<Ev>)
    requires EndInv(k)
    ensures EndInv(ReleaseAll(k, evs))
    decreases |evs|
  {
    if evs != [] {
      hide Asks, After;
      var act := Release(evs[0]);
      var a := Asks(k, act, After(k.port.on, act), false);
      assert EndInv(a);
      hide EndInv;
      ReleaseAllEnds(a, evs[1..]);
    }
  }

  lemma FiredCleanup(k: Core)
    requires FlagInv(k, None) && TraceInv(k) && k.port.on.cleanup
    ensures k.f.cleanup && k.f.closing && Fired(k, EvCleanup).f == k.f
    ensures Fired(k, EvCleanup).port.start.closeCb == k.port.on.closeCb
    ensures Fired(k, EvCleanup).port.acts == []
    ensures Fired(k, EvCleanup).lost == k.lost
    ensures Fired(k, EvCleanup).q == k.q && Fired(k, EvCleanup).w == k.w && Fired(k, EvCleanup).trace == k.trace
  {
  }

  lemma EndInvOf(k: Core, f: Core)
    requires FlagInv(k, None) && TraceInv(k) && k.f.cleanup
    requires f.f == k.f && f.q == k.q && f.w == k.w && f.trace == k.trace && f.lost == k.lost
    ensures f.port.start.closeCb ==> EndInv(Emit(f, CloseCalled).(f := f.f.(freed := true)))
    ensures !f.port.start.closeCb ==> EndInv(f.(f := f.f.(freed := true)))
  {
    assert k.q.frames == [];
    assert ReportedFrames(k.trace) + [] == ReportedFrames(k.trace);
    hide OnAfter, CleanAfter;
  }

  lemma OnCleanupEffect(k: Core, i: Input)
    requires FlagInv(k, None) && TraceInv(k) && k.port.on.cleanup
    ensures EndInv(OnCleanup(Fired(k, EvCleanup), i))
    ensures OnCleanup(Fired(k, EvCleanup), i).port.acts == Releases(ALL_EVENTS)
    ensures OnCleanup(Fired(k, EvCleanup), i).f.freed
  {
    var f := Fired(k, EvCleanup);
    FiredCleanup(k);
    ClosingNotify(f, CloseCalled, i.script);
    EndInvOf(k, f);
    hide FlagInv, TraceInv, EndInv, ReleaseAll, Notify, Fired;
    var a := if f.port.start.closeCb then Emit(f, CloseCalled) else f;
    var b := a.(f := a.f.(freed := true));
    ReleaseAllEnds(b, ALL_EVENTS);
    ReleaseAllActs(b, ALL_EVENTS);
    assert [] + Releases(ALL_EVENTS) == Releases(ALL_EVENTS);
    assert EndInv(ReleaseAll(b, ALL_EVENTS));
    EndIsFreed(ReleaseAll(b, ALL_EVENTS));
  }

  lemma EndIsFreed(k: Core)
    requires EndInv(k)
    ensures k.f.freed
  {
  }

  lemma ExecRelease(s: Loop, base: nat, ev: Ev)
    requires Sound(s)
    ensures Sound(ExecAct(s, base, Release(ev)))
    ensures ExecAct(s, base, Release(ev)).events.Keys == s.events.Keys - {Id(base, ev)}
    ensures ExecAct(s, base, Release(ev)).nextId == s.nextId && ExecAct(s, base, Release(ev)).phase == s.phase
  {
    var e := Id(base, ev);
    if e in s.events {
      NextKeepsSound(s, Fde.Call(Fde.Free(e)));
      DeleteChanges(s, e);
      hide Fde.DeleteEvent, Sound;
    }
  }

  lemma {:induction false} ExecReleases(s: Loop, base: nat, evs: seq<Ev>)
    requires Sound(s)
    ensures Sound(Exec(s, base, Releases(evs)))
    ensures Exec(s, base, Releases(evs)).events.Keys == s.events.Keys - (set ev | ev in evs :: Id(base, ev))
    ensures Exec(s, base, Releases(evs)).nextId == s.nextId && Exec(s, base, Releases(evs)).phase == s.phase
    decreases |evs|
  {
    hide Sound, ExecAct;
    if evs != [] {
      var rest, ev := evs[..|evs| - 1], evs[|evs| - 1];
      assert Releases(evs)[..|evs| - 1] == Releases(rest);
      ExecReleases(s, base, rest);
      ExecRelease(Exec(s, base, Releases(rest)), base, ev);
      assert evs == rest + [ev];
      assert (set x | x in evs :: Id(base, x)) == (set x | x in rest :: Id(base, x)) + {Id(base, ev)};
    }
  }

  lemma AllReleased(s: Loop, base: nat)
    requires Sound(s) && base + 10 <= s.nextId
    ensures Sound(Exec(s, base, Releases(ALL_EVENTS))) && Gone(Exec(s, base, Releases(ALL_EVENTS)), base)
    ensures Exec(s, base, Releases(ALL_EVENTS)).phase == s.phase
  {
    hide Sound, Exec;
    ExecReleases(s, base, ALL_EVENTS);
    forall e | Owned(base, e) ensures e !in Exec(s, base, Releases(ALL_EVENTS)).events {
      var ev := EvOf(base, e);
      assert ev in ALL_EVENTS by { AllEventsAll(ev); }
    }
  }

  lemma AllEventsAll(ev: Ev)
    ensures ev in ALL_EVENTS
  {
    assert ALL_EVENTS[0] == EvRead && ALL_EVENTS[1] == EvReadCb && ALL_EVENTS[2] == EvWrite && ALL_EVENTS[3] == EvWriteCb;
    assert ALL_EVENTS[4] == EvAccept && ALL_EVENTS[5] == EvConnect && ALL_EVENTS[6] == EvConnectStart;
    assert ALL_EVENTS[7] == EvCleanup && ALL_EVENTS[8] == EvUdpRead && ALL_EVENTS[9] == EvUdpWrite;
  }

  // ------------------------------------------------------------------
  // The invariant of every run
  // ------------------------------------------------------------------

  ghost predicate LiveInv(w: World) {
    && Sound(w.loop)
    && Synced(w.loop, w.k.port.on.fd, w.k.port.on) && OwnsFd(w.loop, w.k.port.on.base, w.k.port.on.fd)
    && FlagInv(w.k, None) && TraceInv(w.k)
  }

  ghost predicate WorldInv(w: World) {
    if w.k.f.freed then Sound(w.loop) && Gone(w.loop, w.k.port.on.base) && EndInv(w.k)
    else LiveInv(w)
  }

  /** After a handler or an API call: run its requests. */
  lemma AfterRequests(s: Loop, k: Core)
    requires Sound(s) && Synced(s, k.port.start.fd, k.port.start) && OwnsFd(s, k.port.start.base, k.port.start.fd)
    requires FlagInv(k, None) && TraceInv(k)
    ensures LiveInv(World(Exec(s, k.port.start.base, k.port.acts), k))
  {
    assert k.port.clean;
    hide FlagInv, TraceInv, Sound, Synced, OwnsFd, Exec;
    OnAfterBase(k.port.start, k.port.acts);
    ExecSyncs(s, k.port.start.fd, k.port.start, k.port.acts);
  }

  lemma FreshPort(k: Core)
    requires FlagInv(k, None) && TraceInv(k)
    ensures FlagInv(k.(port := NewPort(k.port.on)), None)
    ensures TraceInv(k.(port := NewPort(k.port.on)))
  {
  }

  lemma ApiKeepsInv(w: World, cmd: UserCmd)
    requires LiveInv(w) && Enabled(w, Api(cmd))
    ensures LiveInv(Next(w, Api(cmd)))
  {
    var a := w.k.(port := NewPort(w.k.port.on));
    FreshPort(w.k);
    hide FlagInv, TraceInv, Sound, Synced, OwnsFd, Exec, DoCmd, Allowed;
    DoCmdKeepsFlags(a, cmd, None);
    DoCmdKeepsTrace(a, cmd, None);
    AfterRequests(w.loop, DoCmd(a, cmd));
  }

  /** Firing an event switches it off, unless it is persistent. */
  lemma FireSyncs(w: World, l: Fde.Label)
    requires LiveInv(w) && Fde.Enabled(w.loop, l) && RunsHandler(w, l)
    ensures var ev := EvOf(w.k.port.on.base, l.e);
      && Has(w.k.port.on, ev)
      && Sound(Fde.Next(w.loop, l))
      && Synced(Fde.Next(w.loop, l), w.k.port.on.fd, Fired(w.k, ev).port.on)
      && OwnsFd(Fde.Next(w.loop, l), w.k.port.on.base, w.k.port.on.fd)
  {
    var on, fd := w.k.port.on, w.k.port.on.fd;
    var ev := EvOf(on.base, l.e);
    var t := Fde.Next(w.loop, l);
    NextKeepsSound(w.loop, l);
    assert LiveEvent(w.loop, on.base, fd, on, ev);
    if l.FireCb? {
      FiredIsCallback(w.loop, l.e);
      DeleteChanges(w.loop, l.e);
      hide Sound, Synced, OwnsFd, FlagInv, TraceInv, Turn, Has, Fde.DeleteEvent;
      SwitchedSyncs(w.loop, t, fd, on, ev, false);
    } else {
      hide Sound, FlagInv, TraceInv, Turn, Has, Remove;
      DeliveredIsIo(w.loop, l.e);
      if IsPersistent(ev) {
        assert t.events == w.loop.events && t.nextId == w.loop.nextId;
        SameEventsSync(w.loop, t, fd, on);
      } else {
        hide Synced, OwnsFd;
        SwitchedSyncs(w.loop, t, fd, on, ev, false);
      }
    }
  }

  lemma FiredIsCallback(s: Loop, e: Fde.EventId)
    requires Sound(s) && Fde.Enabled(s, Fde.FireCb(e))
    ensures IsActiveCallback(s, e)
  {
    assert e in s.cbHead;
  }

  lemma DeliveredIsIo(s: Loop, e: Fde.EventId)
    requires Sound(s) && Fde.Enabled(s, Fde.Deliver(e)) && e in s.events
    ensures s.events[e].kind.Io?
  {
    assert e in s.phase.batch;
  }

  lemma SameEventsSync(s: Loop, t: Loop, fd: int, on: On)
    requires Synced(s, fd, on) && OwnsFd(s, on.base, fd) && t.events == s.events && t.nextId == s.nextId
    ensures Synced(t, fd, on) && OwnsFd(t, on.base, fd)
  {
    hide Has;
    forall ev ensures LiveEvent(t, on.base, fd, on, ev) {
      assert LiveEvent(s, on.base, fd, on, ev);
    }
  }

  lemma CleanupEnds(w: World, l: Fde.Label, i: Input)
    requires LiveInv(w) && Enabled(w, Step(l, i)) && RunsHandler(w, l)
    requires EvOf(w.k.port.on.base, l.e).EvCleanup?
    ensures WorldInv(Next(w, Step(l, i)))
  {
    FireSyncs(w, l);
    var f, t := Fired(w.k, EvCleanup), Fde.Next(w.loop, l);
    TurnHas(w.k.port.on, EvCleanup, false, EvCleanup);
    hide FlagInv, TraceInv, Sound, OwnsFd, Fde.Next, Exec, OnCleanup, EndInv, Gone;
    OnCleanupEffect(w.k, i);
    OnAfterBase(f.port.start, Releases(ALL_EVENTS));
    AllReleased(t, w.k.port.on.base);
  }

  lemma HandlerKeepsInv(w: World, l: Fde.Label, i: Input)
    requires LiveInv(w) && Enabled(w, Step(l, i)) && RunsHandler(w, l)
    ensures WorldInv(Next(w, Step(l, i)))
  {
    var ev := EvOf(w.k.port.on.base, l.e);
    if ev.EvCleanup? {
      hide LiveInv, WorldInv, Next, Enabled;
      CleanupEnds(w, l, i);
    } else {
      hide FlagInv, TraceInv, Sound, Synced, OwnsFd, Exec, Dispatch, Has, Turn, Fde.Next;
      FireSyncs(w, l);
      var f := Fired(w.k, ev);
      TurnHas(w.k.port.on, ev, false, ev);
      DispatchKeepsFlags(w.k, ev, i);
      DispatchKeepsTrace(w.k, ev, i);
      AfterRequests(Fde.Next(w.loop, l), Dispatch(f, ev, i));
      NotFreed(Dispatch(f, ev, i));
    }
  }

  lemma NotFreed(k: Core)
    requires FlagInv(k, None)
    ensures !k.f.freed
  {
  }

  /** Kinds and descriptors of events never change, and only Create adds one. */
  ghost predicate SameNature(s: Loop, t: Loop) {
    && s.nextId <= t.nextId
    && forall e :: e in t.events && e in s.events ==>
         t.events[e].kind == s.events[e].kind && t.events[e].fd == s.events[e].fd
  }

  ghost predicate OnlyChanges(s: Loop, t: Loop, e: Fde.EventId) {
    forall x :: x in s.events && x != e ==> x in t.events && t.events[x] == s.events[x]
  }

  ghost predicate NoNew(s: Loop, t: Loop) {
    t.events.Keys <= s.events.Keys
  }

  lemma CallChanges(s: Loop, c: Fde.Cmd)
    requires IdsFresh(s) && Fde.CmdOk(s, c)
    ensures OnlyChanges(s, Fde.Do(s, c), if c.Create? then s.nextId else c.e)
    ensures SameNature(s, Fde.Do(s, c))
    ensures !c.Create? ==> NoNew(s, Fde.Do(s, c))
  {
    match c
    case Add(e) => if !s.events[e].kind.Timer? { AddChanges(s, e); hide Fde.AddEvent; }
    case Delete(e) => DeleteChanges(s, e); hide Fde.DeleteEvent;
    case Free(e) => DeleteChanges(s, e); hide Fde.DeleteEvent;
    case _ => hide Fde.InsertedAt, Fde.InsertAt;
  }

  lemma StepChanges(s: Loop, l: Fde.Label)
    requires Sound(s) && Fde.Enabled(s, l) && !l.Call?
    ensures SameNature(s, Fde.Next(s, l)) && NoNew(s, Fde.Next(s, l))
    ensures if Fires(s, l) || l.FireTimer? then OnlyChanges(s, Fde.Next(s, l), l.e)
            else Fde.Next(s, l).events == s.events
  {
    if l.FireCb? || l.FireTimer? {
      DeleteChanges(s, l.e);
      hide Fde.DeleteEvent, Sound;
    } else {
      hide Sound, Remove;
    }
  }

  lemma OursAreNotTimers(w: World, e: Fde.EventId)
    requires LiveInv(w) && Owned(w.k.port.on.base, e)
    ensures e in w.loop.events && !w.loop.events[e].kind.Timer?
  {
    var ev := EvOf(w.k.port.on.base, e);
    assert LiveEvent(w.loop, w.k.port.on.base, w.k.port.on.fd, w.k.port.on, ev);
  }

  lemma TimersNotOurs(w: World, l: Fde.Label)
    requires LiveInv(w) && Fde.Enabled(w.loop, l) && l.FireTimer?
    ensures !Owned(w.k.port.on.base, l.e)
  {
    assert l.e in w.loop.tHead;
    assert IsActiveTimer(w.loop, l.e);
    if Owned(w.k.port.on.base, l.e) {
      OursAreNotTimers(w, l.e);
      assert false;
    }
  }

  lemma UntouchedSyncs(s: Loop, t: Loop, fd: int, on: On)
    requires Synced(s, fd, on) && OwnsFd(s, on.base, fd) && SameNature(s, t)
    requires forall e :: Owned(on.base, e) && e in s.events ==> e in t.events && t.events[e] == s.events[e]
    requires forall e :: e in t.events && e !in s.events ==> t.events[e].kind.Io? ==> t.events[e].fd != fd
    ensures Synced(t, fd, on) && OwnsFd(t, on.base, fd)
  {
    hide Has;
    forall ev ensures LiveEvent(t, on.base, fd, on, ev) {
      assert LiveEvent(s, on.base, fd, on, ev);
      IdsDiffer(on.base, ev, ev);
    }
  }

  /** A step of the loop that concerns other events only. */
  lemma ForeignStepSyncs(w: World, l: Fde.Label, i: Input)
    requires LiveInv(w) && Enabled(w, Step(l, i)) && !RunsHandler(w, l)
    ensures LiveInv(Next(w, Step(l, i)))
  {
    var s, on := w.loop, w.k.port.on;
    NextKeepsSound(s, l);
    NotFreed(w.k);
    if l.Call? {
      SoundIdsFresh(s);
      CallChanges(s, l.cmd);
      if l.cmd.Create? { NewIsForeign(s, l.cmd, on.fd); }
    } else {
      StepChanges(s, l);
      if l.FireTimer? { TimersNotOurs(w, l); }
    }
    hide FlagInv, TraceInv, Sound, Synced, OwnsFd, Fde.Next, Fde.Enabled, SameNature;
    UntouchedSyncs(s, Fde.Next(s, l), on.fd, on);
  }

  lemma NewIsForeign(s: Loop, c: Fde.Cmd, fd: int)
    requires Fde.CmdOk(s, c) && c.Create? && (c.kind.Io? ==> c.fd != fd)
    ensures forall e :: e in Fde.Do(s, c).events && e !in s.events ==>
      Fde.Do(s, c).events[e].kind.Io? ==> Fde.Do(s, c).events[e].fd != fd
  {
  }

  lemma FreedKeepsInv(w: World, l: Fde.Label, i: Input)
    requires WorldInv(w) && w.k.f.freed && Enabled(w, Step(l, i))
    ensures WorldInv(Next(w, Step(l, i)))
  {
    var s, base := w.loop, w.k.port.on.base;
    NextKeepsSound(s, l);
    if l.Call? {
      SoundIdsFresh(s);
      CallChanges(s, l.cmd);
      if l.cmd.Create? { assert Fde.Next(s, l).events.Keys == s.events.Keys + {s.nextId}; }
    } else {
      StepChanges(s, l);
    }
    hide EndInv, Sound, Fde.Next, Fde.Enabled;
  }

  lemma NextKeepsInv(w: World, wl: WLabel)
    requires WorldInv(w) && Enabled(w, wl)
    ensures WorldInv(Next(w, wl))
  {
    match wl
    case Api(cmd) =>
      ApiKeepsInv(w, cmd);
      LiveIsWorld(Next(w, wl));
    case Step(l, i) =>
      if w.k.f.freed {
        FreedKeepsInv(w, l, i);
      } else if RunsHandler(w, l) {
        HandlerKeepsInv(w, l, i);
      } else {
        ForeignStepSyncs(w, l, i);
        LiveIsWorld(Next(w, wl));
      }
  }

  lemma LiveIsWorld(w: World)
    requires LiveInv(w)
    ensures WorldInv(w)
  {
    NotFreed(w.k);
  }

  /** The invariant of every run, for any system call results and any callbacks. */
  lemma {:induction false} WorldInvariant(w: World, ls: seq<WLabel>)
    requires WorldInv(w) && Valid(w, ls)
    ensures WorldInv(Run(w, ls))
    decreases |ls|
  {
    hide WorldInv, Next, Enabled;
    if ls != [] {
      WorldInvariant(w, ls[..|ls| - 1]);
      NextKeepsInv(Run(w, ls[..|ls| - 1]), ls[|ls| - 1]);
    }
  }

  // ------------------------------------------------------------------
  // comm_create
  // ------------------------------------------------------------------

  function CreateOne(s: Loop, ev: Ev, fd: int): Loop {
    Fde.CreateEvent(s, if IsCallback(ev) then -1 else fd, KindOf(ev), IsPersistent(ev))
  }

  function CreateUpTo(s: Loop, fd: int, n: nat): Loop
    requires n <= 10
  {
    if n == 0 then s else CreateOne(CreateUpTo(s, fd, n - 1), EvAt(n - 1), fd)
  }

  /** A comm created in a running loop. */
  function Created(s: Loop, fd: int, closeCb: bool): World {
    World(CreateUpTo(s, fd, 10), NewComm(fd, s.nextId, closeCb))
  }

  ghost predicate IsNew(t: Loop, base: nat, i: nat, fd: int)
    requires i < 10
  {
    base + i in t.events && Shaped(t.events[base + i], EvAt(i), fd) && !t.events[base + i].active
  }

  lemma CreateOneEffect(s: Loop, ev: Ev, fd: int)
    requires Sound(s)
    ensures Sound(CreateOne(s, ev, fd)) && CreateOne(s, ev, fd).nextId == s.nextId + 1
    ensures CreateOne(s, ev, fd).events == s.events[s.nextId := CreateOne(s, ev, fd).events[s.nextId]]
    ensures s.nextId !in s.events
    ensures Shaped(CreateOne(s, ev, fd).events[s.nextId], ev, fd) && !CreateOne(s, ev, fd).events[s.nextId].active
  {
    SoundIdsFresh(s);
    NextKeepsSound(s, Fde.Call(Fde.Create(if IsCallback(ev) then -1 else fd, KindOf(ev), IsPersistent(ev))));
    hide Sound, KindOf;
  }

  lemma {:induction false} CreateUpToEffect(s: Loop, fd: int, n: nat)
    requires Sound(s) && n <= 10
    ensures Sound(CreateUpTo(s, fd, n)) && CreateUpTo(s, fd, n).nextId == s.nextId + n
    ensures forall e :: e in CreateUpTo(s, fd, n).events && !(s.nextId <= e < s.nextId + n) ==>
      e in s.events && CreateUpTo(s, fd, n).events[e] == s.events[e]
    ensures forall i :: 0 <= i < n ==> IsNew(CreateUpTo(s, fd, n), s.nextId, i, fd)
  {
    if n > 0 {
      hide Sound, KindOf, EvAt, CreateOne, Shaped;
      CreateUpToEffect(s, fd, n - 1);
      var a := CreateUpTo(s, fd, n - 1);
      CreateOneEffect(a, EvAt(n - 1), fd);
      forall i | 0 <= i < n ensures IsNew(CreateUpTo(s, fd, n), s.nextId, i, fd) {
        if i < n - 1 { assert IsNew(a, s.nextId, i, fd); }
      }
    }
  }

  /** Nothing is active, nothing is on, nothing has happened. */
  ghost predicate Fresh(k: Core) {
    && !k.f.closing && !k.f.cleanup && !k.f.freed && Quiet(k.f) && !k.lost
    && !k.f.rRead && !k.f.wWrite && !k.f.uwPrimed
    && k.port.clean && k.trace.Nothing?
    && k.w.buf == [] && k.w.start == k.w.offset == k.w.len == 0
    && k.q.frames == [] && k.q.qlen == 0
  }

  ghost predicate NothingOn(on: On) {
    && !on.read && !on.readCb && !on.write && !on.writeCb && !on.cleanup
    && !on.accept && !on.connect && !on.connectStart && !on.udpRead && !on.udpWrite
  }

  lemma FreshInv(k: Core)
    requires Fresh(k) && NothingOn(k.port.on)
    ensures FlagInv(k, None)
    ensures TraceInv(k)
    ensures forall ev :: !Has(k.port.on, ev)
  {
    hide OnAfter, CleanAfter;
    assert [] == k.w.buf[0..0];
  }

  lemma NewCommFresh(fd: int, base: nat, closeCb: bool)
    ensures Fresh(NewComm(fd, base, closeCb)) && NothingOn(NewComm(fd, base, closeCb).port.on)
    ensures NewComm(fd, base, closeCb).port.on.base == base && NewComm(fd, base, closeCb).port.on.fd == fd
  {
  }

  /** A new comm on a descriptor nobody else watches satisfies the invariant. */
  lemma CreatedInv(s: Loop, fd: int, closeCb: bool)
    requires Sound(s) && forall e :: e in s.events && s.events[e].kind.Io? ==> s.events[e].fd != fd
    ensures WorldInv(Created(s, fd, closeCb))
  {
    hide FlagInv, TraceInv, Sound, KindOf, EvAt, CreateUpTo, Has, NewComm, Fresh, NothingOn, IsNew, WorldInv;
    CreateUpToEffect(s, fd, 10);
    NewCommFresh(fd, s.nextId, closeCb);
    FreshInv(NewComm(fd, s.nextId, closeCb));
    var w := Created(s, fd, closeCb);
    CreatedSyncs(s, w, fd);
    LiveIsWorld(w);
  }

  lemma CreatedSyncs(s: Loop, w: World, fd: int)
    requires forall e :: e in s.events && s.events[e].kind.Io? ==> s.events[e].fd != fd
    requires forall e :: e in w.loop.events && !(s.nextId <= e < s.nextId + 10) ==>
      e in s.events && w.loop.events[e] == s.events[e]
    requires forall i :: 0 <= i < 10 ==> IsNew(w.loop, s.nextId, i, fd)
    requires forall ev :: !Has(w.k.port.on, ev)
    requires w.k.port.on.base == s.nextId && w.k.port.on.fd == fd && w.loop.nextId == s.nextId + 10
    ensures Synced(w.loop, fd, w.k.port.on) && OwnsFd(w.loop, s.nextId, fd)
  {
    hide Has, EvAt, KindOf;
    forall ev ensures LiveEvent(w.loop, s.nextId, fd, w.k.port.on, ev) {
      assert EvAt(Index(ev)) == ev;
      assert IsNew(w.loop, s.nextId, Index(ev), fd);
    }
  }
}
