/**
 * Closes that never end: the exact condition under which the cleanup of a closing
 * comm is forgotten, and the idle datagram writer that keeps one open.
 */
module CommForgotten {
  import Fde
  import opened FdeLists
  import opened Comm
  import opened CommInvariants
  import opened CommTraces
  import opened CommWorld
  import opened CommKernel
  import opened CommClosing

  // ------------------------------------------------------------------
  // Forgotten closes
  // ------------------------------------------------------------------

  /** Closing, with nothing left to wait for, and no cleanup scheduled. */
  predicate Forgotten(w: World) {
    CloseReady(w.k.f) && !w.k.f.cleanup && !w.k.f.freed
  }

  /** An in-progress connect ends, as the last operation of a closing comm. */
  predicate ConnectEndsLast(w: World, wl: WLabel) {
    && wl.Step? && RunsHandler(w, wl.l) && EvOf(w.k.port.on.base, wl.l.e).EvConnect?
    && !wl.i.io.InProgress?
    && CloseReady(w.k.f.(coActive := false))
  }

  predicate EverEndsLast(w: World, ls: seq<WLabel>)
    decreases |ls|
  {
    ls != [] && (EverEndsLast(w, ls[..|ls| - 1]) || ConnectEndsLast(Run(w, ls[..|ls| - 1]), ls[|ls| - 1]))
  }

  lemma DispatchLost(k: Core, ev: Ev, i: Input)
    ensures Dispatch(k, ev, i).lost ==
      (k.lost || (ev.EvConnect? && !i.io.InProgress? && CloseReady(k.f.(coActive := false))))
  {
    hide OnRead, OnReadCb, OnWrite, OnWriteCb, OnAccept, OnConnectStart, OnUdpRead, OnUdpWrite, OnCleanup, Notify,
         AddConnect;
  }

  lemma StepLost(w: World, wl: WLabel)
    requires Enabled(w, wl)
    ensures Next(w, wl).k.lost == (w.k.lost || ConnectEndsLast(w, wl))
  {
    hide Dispatch, DoCmd, Exec;
    match wl
    case Api(cmd) => hide DoCmd, Exec;
    case Step(l, i) =>
      if RunsHandler(w, l) {
        var ev := EvOf(w.k.port.on.base, l.e);
        hide Dispatch, Exec;
        DispatchLost(Fired(w.k, ev), ev, i);
      }
  }

  lemma {:induction false} RunLost(w: World, ls: seq<WLabel>)
    requires Valid(w, ls) && !w.k.lost
    ensures Run(w, ls).k.lost == EverEndsLast(w, ls)
    decreases |ls|
  {
    hide Next, Enabled, ConnectEndsLast;
    if ls != [] {
      RunLost(w, ls[..|ls| - 1]);
      StepLost(Run(w, ls[..|ls| - 1]), ls[|ls| - 1]);
    }
  }

  lemma ForgottenIsLost(w: World)
    requires WorldInv(w)
    ensures Forgotten(w) <==> w.k.lost
  {
    hide TraceInv, Sound, Synced;
  }

  lemma CreatedPlain(s: Loop, fd: int, closeCb: bool)
    ensures !Created(s, fd, closeCb).k.lost && Created(s, fd, closeCb).k.port.on == NoneOn(s.nextId, fd, closeCb)
    ensures Created(s, fd, closeCb).loop == CreateUpTo(s, fd, 10) && !Created(s, fd, closeCb).k.f.freed
  {
    hide CreateUpTo;
  }

  /**
   * In every reachable state a closing comm with nothing left to wait for has
   * its cleanup scheduled, except exactly after an in-progress connect was the
   * last operation to end on it.
   */
  lemma ForgottenCloseIff(s: Loop, fd: int, closeCb: bool, ls: seq<WLabel>)
    requires Sound(s) && forall e :: e in s.events && s.events[e].kind.Io? ==> s.events[e].fd != fd
    requires Valid(Created(s, fd, closeCb), ls)
    ensures Forgotten(Run(Created(s, fd, closeCb), ls)) <==> EverEndsLast(Created(s, fd, closeCb), ls)
  {
    hide Run, Valid, Created, WorldInv, Forgotten, EverEndsLast;
    var w := Created(s, fd, closeCb);
    CreatedInv(s, fd, closeCb);
    CreatedPlain(s, fd, closeCb);
    WorldInvariant(w, ls);
    RunLost(w, ls);
    ForgottenIsLost(Run(w, ls));
  }

  /** A forgotten close is never remembered: no later run schedules the cleanup. */
  lemma {:induction false} ForgottenForever(w: World, ls: seq<WLabel>)
    requires WorldInv(w) && Forgotten(w) && Valid(w, ls)
    ensures Forgotten(Run(w, ls))
    decreases |ls|
  {
    hide WorldInv, Next, Enabled, ConnectEndsLast;
    if ls != [] {
      var rest := ls[..|ls| - 1];
      ForgottenForever(w, rest);
      WorldInvariant(w, rest);
      ForgottenIsLost(Run(w, rest));
      StepLost(Run(w, rest), ls[|ls| - 1]);
      NextKeepsInv(Run(w, rest), ls[|ls| - 1]);
      ForgottenIsLost(Run(w, ls));
    }
  }

  // ------------------------------------------------------------------
  // Steps of a closing comm
  // ------------------------------------------------------------------

  /** The handler this step runs, if any. */
  predicate Handles(w: World, wl: WLabel, ev: Ev) {
    wl.Step? && RunsHandler(w, wl.l) && EvOf(w.k.port.on.base, wl.l.e) == ev
  }

  predicate HandlesAny(w: World, wl: WLabel) {
    wl.Step? && RunsHandler(w, wl.l)
  }

  lemma IdleStep(w: World, wl: WLabel)
    requires WorldInv(w) && w.k.f.closing && Enabled(w, wl) && !HandlesAny(w, wl)
    ensures Next(w, wl).k.f == w.k.f && Next(w, wl).k.trace == w.k.trace && Next(w, wl).k.port.on == w.k.port.on
    ensures wl.Api? ==> Next(w, wl).loop == w.loop
  {
    hide Dispatch, DoCmd, Exec, WorldInv, LiveInv;
    if wl.Api? {
      ClosingApi(w.k.(port := NewPort(w.k.port.on)), wl.cmd);
      assert Exec(w.loop, w.k.port.on.base, []) == w.loop by { ExecNothing(w.loop, w.k.port.on.base); }
      hide DoCmd;
    }
  }

  lemma ExecNothing(s: Loop, base: nat)
    ensures Exec(s, base, []) == s
  {
  }

  lemma HandlerStep(w: World, wl: WLabel, ev: Ev)
    requires LiveInv(w) && w.k.f.closing && Enabled(w, wl) && Handles(w, wl, ev) && !ev.EvCleanup?
    ensures Has(w.k.port.on, ev)
    ensures EndsOnly(w.k, ev, wl.i, Next(w, wl).k) && TellsOnce(w.k, ev, Next(w, wl).k)
  {
    hide DoCmd, LiveInv, Exec, Dispatch, Has, Turn, Fde.Next;
    FireSyncs(w, wl.l);
    FiredConnect(w.k, ev);
    ClosingDispatch(Fired(w.k, ev), ev, wl.i);
  }

  lemma FiredConnect(k: Core, ev: Ev)
    ensures !ev.EvConnect? ==> Fired(k, ev).port.on.connect == k.port.on.connect
  {
  }

  lemma OnCleanupTells(k: Core, i: Input, op: Op)
    requires k.f.closing
    ensures ClosingCalls(OnCleanup(k, i).trace, op) == ClosingCalls(k.trace, op)
  {
    hide Notify, ReleaseAll;
    ClosingNotify(k, CloseCalled, i.script);
    var a := if k.port.start.closeCb then Emit(k, CloseCalled) else k;
    ReleaseAllTrace(a.(f := a.f.(freed := true)), ALL_EVENTS);
  }

  lemma NextIsCleanup(w: World, wl: WLabel)
    requires Enabled(w, wl) && Handles(w, wl, EvCleanup)
    ensures Next(w, wl).k == OnCleanup(Fired(w.k, EvCleanup), wl.i)
    ensures Fired(w.k, EvCleanup).f == w.k.f && Fired(w.k, EvCleanup).trace == w.k.trace
  {
    hide Exec, OnCleanup, Turn;
  }

  lemma CleanupStep(w: World, wl: WLabel)
    requires LiveInv(w) && w.k.f.closing && Enabled(w, wl) && Handles(w, wl, EvCleanup)
    ensures Next(w, wl).k.f.freed
    ensures ClosingCalls(Next(w, wl).k.trace, ReadOp) == ClosingCalls(w.k.trace, ReadOp)
    ensures ClosingCalls(Next(w, wl).k.trace, WriteOp) == ClosingCalls(w.k.trace, WriteOp)
  {
    hide Next, Enabled, WorldInv, LiveInv;
    CleanupFrees(w, wl.l, wl.i);
    NextIsCleanup(w, wl);
    hide *;
    OnCleanupTells(Fired(w.k, EvCleanup), wl.i, ReadOp);
    OnCleanupTells(Fired(w.k, EvCleanup), wl.i, WriteOp);
  }

  lemma {:induction false} ReleaseAllTrace(k: Core, evs: seq<Ev>)
    ensures ReleaseAll(k, evs).trace == k.trace
    decreases |evs|
  {
    if evs != [] {
      hide Asks, After;
      var act := Release(evs[0]);
      ReleaseAllTrace(Asks(k, act, After(k.port.on, act), false), evs[1..]);
    }
  }

  // ------------------------------------------------------------------
  // An idle datagram writer keeps a closing comm open for ever
  // ------------------------------------------------------------------

  predicate IdleWriter(w: World) {
    w.k.f.closing && w.k.f.uwActive && !w.k.f.uwPrimed && !w.k.f.freed
  }

  lemma IdleWriterStep(w: World, wl: WLabel)
    requires WorldInv(w) && IdleWriter(w) && Enabled(w, wl)
    ensures IdleWriter(Next(w, wl))
  {
    hide Dispatch, DoCmd, Exec, WorldInv, LiveInv;
    WriterNotOn(w);
    if HandlesAny(w, wl) {
      var ev := EvOf(w.k.port.on.base, wl.l.e);
      FireSyncs(w, wl.l);
      hide TraceInv, Sound, Synced, OwnsFd, WorldInv, FlagInv;
      HandlerStep(w, wl, ev);
      NextKeepsInv(w, wl);
      LiveStays(w, wl, ev);
    } else {
      hide WorldInv;
      IdleStep(w, wl);
    }
  }

  lemma WriterNotOn(w: World)
    requires WorldInv(w) && IdleWriter(w)
    ensures LiveInv(w) && !w.k.port.on.udpWrite && !w.k.port.on.cleanup
  {
    hide Next, Enabled;
  }

  lemma LiveStays(w: World, wl: WLabel, ev: Ev)
    requires LiveInv(w) && Enabled(w, wl) && Handles(w, wl, ev) && !ev.EvCleanup? && Has(w.k.port.on, ev)
    ensures !Next(w, wl).k.f.freed
  {
    hide DoCmd, Exec, Dispatch, Has, FlagInv, TraceInv, Sound, Synced, OwnsFd;
    DispatchKeepsFlags(w.k, ev, wl.i);
    NotFreed(Dispatch(Fired(w.k, ev), ev, wl.i));
  }

  /** comm_close on a comm with an idle datagram writer never completes. */
  lemma {:induction false} IdleWriterForever(w: World, ls: seq<WLabel>)
    requires WorldInv(w) && IdleWriter(w) && Valid(w, ls)
    ensures IdleWriter(Run(w, ls)) && !Run(w, ls).k.f.cleanup
    decreases |ls|
  {
    hide Next, Enabled, WorldInv, LiveInv;
    if ls == [] {
      NoCleanup(w);
    } else {
      var rest := ls[..|ls| - 1];
      hide WorldInv, Next, Enabled, IdleWriter;
      IdleWriterForever(w, rest);
      WorldInvariant(w, ls);
      WorldInvariant(w, rest);
      IdleWriterStep(Run(w, rest), ls[|ls| - 1]);
      NoCleanup(Run(w, ls));
    }
  }

  lemma NoCleanup(w: World)
    requires WorldInv(w) && IdleWriter(w)
    ensures !w.k.f.cleanup
  {
    hide TraceInv, Sound, Synced;
  }
}
