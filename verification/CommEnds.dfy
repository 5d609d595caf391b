/**
 * Which closes can end at all: from any state of a closing comm, some
 * continuation frees it exactly when the close is not already forgotten, there
 * is no idle datagram writer, and no in-progress connect is bound to be the last
 * operation to end.
 */
module CommEnds {
  import opened Seqs
  import opened Timevals
  import Fde
  import FdeRounds
  import opened FdeLists
  import opened FdeKernel
  import opened Comm
  import opened CommInvariants
  import opened CommTraces
  import opened CommWorld
  import opened CommKernel
  import opened CommClosing
  import opened CommForgotten
  import opened CommBoundedClose

  // ------------------------------------------------------------------
  // The operations of a closing comm and the events that end them
  // ------------------------------------------------------------------

  /** The events whose handler ends an operation of a closing comm. */
  predicate Ender(ev: Ev) {
    !ev.EvRead? && !ev.EvWrite? && !ev.EvCleanup?
  }

  /** The operation that this event ends is active and waiting for it. */
  predicate OpOn(k: Core, ev: Ev) {
    match ev
    case EvReadCb => k.f.rActive
    case EvWriteCb => k.f.wActive
    case EvAccept => k.f.aActive
    case EvConnect => k.port.on.connect
    case EvConnectStart => k.f.coActive && !k.port.on.connect
    case EvUdpRead => k.f.urActive
    case EvUdpWrite => k.f.uwPrimed
    case _ => false
  }

  lemma EndersOn(w: World, ev: Ev)
    requires LiveInv(w) && w.k.f.closing && Ender(ev)
    ensures Has(w.k.port.on, ev) == OpOn(w.k, ev)
    ensures w.k.port.on.cleanup == w.k.f.cleanup && (w.k.port.on.connect ==> w.k.f.coActive)
  {
    hide TraceInv, Sound, Synced;
  }

  lemma ConnectRearms(k: Core, i: Input)
    requires i.io.InProgress?
    ensures Dispatch(k, EvConnect, i).port.on.connect
  {
    hide Asks;
  }

  lemma HandlerCore(w: World, wl: WLabel, x: Ev)
    requires Enabled(w, wl) && Handles(w, wl, x)
    ensures Next(w, wl).k == Dispatch(Fired(w.k, x), x, wl.i)
  {
    hide DoCmd, Dispatch, Exec;
  }

  /** A closing comm that has not come to its cleanup is live, before and after the step. */
  lemma StepLive(w: World, wl: WLabel)
    requires WorldInv(w) && !w.k.f.freed && w.k.f.closing && Enabled(w, wl) && !Handles(w, wl, EvCleanup)
    ensures LiveInv(w) && LiveInv(Next(w, wl)) && !Next(w, wl).k.f.freed && Next(w, wl).k.f.closing
  {
    hide Next, Enabled;
    ClosingQueues(w);
    NextKeepsInv(w, wl);
    if HandlesAny(w, wl) {
      var x := EvOf(w.k.port.on.base, wl.l.e);
      hide LiveInv, Next, Has;
      HandlerStep(w, wl, x);
      LiveStays(w, wl, x);
    } else {
      hide LiveInv, Next;
      IdleStep(w, wl);
    }
  }

  lemma EndsOps(k: Core, x: Ev, i: Input, r: Core, ev: Ev)
    requires EndsOnly(k, x, i, r) && Ender(ev)
    requires (k.port.on.connect ==> k.f.coActive) && (r.port.on.connect ==> r.f.coActive)
    requires x.EvConnect? ==> k.port.on.connect && (i.io.InProgress? ==> r.port.on.connect)
    ensures OpOn(r, ev) == (OpOn(k, ev) && (x == ev ==> ev.EvConnect? && i.io.InProgress?))
  {
  }

  /** A step ends the operation whose handler it runs, if it is not a connect still in progress, and no other. */
  lemma StepOps(w: World, wl: WLabel, ev: Ev)
    requires WorldInv(w) && !w.k.f.freed && w.k.f.closing && Enabled(w, wl) && !Handles(w, wl, EvCleanup) && Ender(ev)
    ensures OpOn(Next(w, wl).k, ev) ==
      (OpOn(w.k, ev) && (Handles(w, wl, ev) ==> ev.EvConnect? && wl.i.io.InProgress?))
  {
    hide Dispatch, DoCmd, Exec, LiveInv, WorldInv, Next, Enabled, EndsOnly, TellsOnce, OpOn;
    StepLive(w, wl);
    if HandlesAny(w, wl) {
      var x := EvOf(w.k.port.on.base, wl.l.e);
      HandlerStep(w, wl, x);
      EndersOn(w, EvConnect);
      EndersOn(Next(w, wl), EvConnect);
      if x.EvConnect? && wl.i.io.InProgress? {
        HandlerCore(w, wl, x);
        ConnectRearms(Fired(w.k, x), wl.i);
      }
      EndsOps(w.k, x, wl.i, Next(w, wl).k, ev);
    } else {
      IdleStep(w, wl);
      SameOpOn(w.k, Next(w, wl).k, ev);
    }
  }

  lemma SameOpOn(k: Core, r: Core, ev: Ev)
    requires r.f == k.f && r.port.on == k.port.on
    ensures OpOn(r, ev) == OpOn(k, ev)
  {
  }

  lemma WorldPhase(w: World, wl: WLabel)
    requires Enabled(w, wl)
    ensures Next(w, wl).loop.phase == if wl.Api? then w.loop.phase else Fde.Next(w.loop, wl.l).phase
  {
    hide Exec, DoCmd, Dispatch, Fde.Next;
    match wl
    case Api(cmd) =>
      ExecPhase(w.loop, w.k.port.on.base, DoCmd(w.k.(port := NewPort(w.k.port.on)), cmd).port.acts);
    case Step(l, i) =>
      if RunsHandler(w, l) {
        var ev := EvOf(w.k.port.on.base, l.e);
        ExecPhase(Fde.Next(w.loop, l), w.k.port.on.base, Dispatch(Fired(w.k, ev), ev, i).port.acts);
      }
  }

  /** An active callback of the comm that does not fire is left exactly as it is. */
  lemma CallbackKept(w: World, wl: WLabel, ev: Ev)
    requires LiveInv(w) && w.k.f.closing && Enabled(w, wl) && Has(w.k.port.on, ev) && IsCallback(ev)
    requires !Handles(w, wl, ev) && !Handles(w, wl, EvCleanup)
    ensures var e := Id(w.k.port.on.base, ev);
      e in w.loop.events && e in Next(w, wl).loop.events && Next(w, wl).loop.events[e] == w.loop.events[e]
  {
    hide Dispatch, DoCmd, Exec;
    OnIsActive(w, ev);
    LiveIsWorld(w);
    match wl
    case Api(cmd) =>
      hide LiveInv, WorldInv;
      IdleStep(w, wl);
    case Step(l, i) =>
      LoopKeepsCallback(w, l, i, ev);
      hide FlagInv, TraceInv, Sound, Synced, OwnsFd, Dispatch, Exec, Has, Turn, Fde.Next;
      if RunsHandler(w, l) {
        var x := EvOf(w.k.port.on.base, l.e);
        FireSyncs(w, l);
        TurnHas(w.k.port.on, x, false, x);
        DispatchKeepsFlags(w.k, x, i);
        var k := Dispatch(Fired(w.k, x), x, i);
        PortClean(k);
        ExecKeepsActive(Fde.Next(w.loop, l), w.k.port.on.fd, k.port.start, k.port.acts, ev);
      }
  }

  lemma LoopKeepsCallback(w: World, l: Fde.Label, i: Input, ev: Ev)
    requires LiveInv(w) && Enabled(w, Step(l, i)) && Has(w.k.port.on, ev) && IsCallback(ev)
    requires !Handles(w, Step(l, i), ev)
    ensures var e, t := Id(w.k.port.on.base, ev), Fde.Next(w.loop, l);
      e in w.loop.events && e in t.events && t.events[e] == w.loop.events[e]
  {
    OnIsActive(w, ev);
    NotFreed(w.k);
    EvOfId(w.k.port.on.base, ev);
    if l.Call? {
      SoundIdsFresh(w.loop);
      CallChanges(w.loop, l.cmd);
    } else {
      StepChanges(w.loop, l);
      if l.FireTimer? { TimersNotOurs(w, l); }
    }
    hide LiveInv, Fde.Next, Fde.Enabled;
  }

  // ------------------------------------------------------------------
  // What fires before the connect can
  // ------------------------------------------------------------------

  /** `e` comes in the batch before any `c`. */
  predicate First(batch: seq<Fde.EventId>, e: Fde.EventId, c: Fde.EventId) {
    batch != [] && (batch[0] == e || (batch[0] != c && First(batch[1..], e, c)))
  }

  /**
   * Whatever happens, the active event `ev` fires before the connect event can:
   * callbacks queued for the round to come or in progress do, unless a wait or a
   * pending delivery of the connect comes first; descriptor events do if they
   * are already delivered and the connect is not, or behind them.
   */
  ghost predicate Ahead(w: World, ev: Ev) {
    var e, c := Id(w.k.port.on.base, ev), Id(w.k.port.on.base, EvConnect);
    match w.loop.phase
    case Idle => IsCallback(ev)
    case InCallbacks(cur, _) => IsCallback(ev) && e in w.loop.events && w.loop.events[e].genid == cur
    case InTimers(_) => false
    case InIo(batch) => if IsCallback(ev) then c !in batch else First(batch, e, c)
  }

  /** An event that fires was ahead of the connect. */
  lemma FiringIsAhead(w: World, wl: WLabel, ev: Ev)
    requires LiveInv(w) && Enabled(w, wl) && Handles(w, wl, ev) && Ender(ev) && !ev.EvConnect?
    ensures Ahead(w, ev)
  {
    assert LiveEvent(w.loop, w.k.port.on.base, w.k.port.on.fd, w.k.port.on, ev);
    if wl.l.FireCb? {
      FiredIsCallback(w.loop, wl.l.e);
    } else {
      DeliveredIsIo(w.loop, wl.l.e);
    }
    hide LiveInv;
  }

  /** The event at the head of the batch is not one of these two. */
  lemma HeadIsOther(w: World, l: Fde.Label, i: Input, ev: Ev)
    requires LiveInv(w) && Enabled(w, Step(l, i)) && l.Deliver? && Has(w.k.port.on, ev) && !Handles(w, Step(l, i), ev)
    ensures l.e != Id(w.k.port.on.base, ev)
  {
    hide Next, Enabled;
    NotFreed(w.k);
    EvOfId(w.k.port.on.base, ev);
    assert LiveEvent(w.loop, w.k.port.on.base, w.k.port.on.fd, w.k.port.on, ev);
    hide LiveInv;
  }

  /** Being ahead does not change, except by a wait, before which nothing is ahead. */
  lemma AheadSame(w: World, wl: WLabel, ev: Ev)
    requires WorldInv(w) && !w.k.f.freed && w.k.f.closing && Enabled(w, wl) && !Handles(w, wl, EvCleanup)
    requires Ender(ev) && !ev.EvConnect? && Has(w.k.port.on, ev) && w.k.port.on.connect
    requires !Handles(w, wl, ev) && !Handles(w, wl, EvConnect)
    ensures !(wl.Step? && wl.l.Wait?) ==> Ahead(Next(w, wl), ev) == Ahead(w, ev)
    ensures wl.Step? && wl.l.Wait? ==> !Ahead(w, ev)
  {
    hide LiveInv, WorldInv, Has, Next, QueuedNow;
    ClosingQueues(w);
    SameBase(w, wl);
    WorldPhase(w, wl);
    EndersOn(w, EvConnect);
    if IsCallback(ev) { CallbackKept(w, wl, ev); ActiveCallback(w, ev); }
    match wl
    case Api(cmd) =>
    case Step(l, i) =>
      match l {
        case Call(c) => CallKeepsPhase(w.loop, c);
        case StartRound(_) => if IsCallback(ev) { StartQueues(w, wl, ev); QueuedStamp(Next(w, wl), ev); }
        case FireCb(e) => DeletePhase(w.loop, e);
        case EndRound => if IsCallback(ev) { NothingQueuedAtEnd(w, wl, ev); QueuedStamp(w, ev); }
        case FireTimer(e, _) => DeletePhase(w.loop, e);
        case Wait(_) =>
        case Deliver(e) =>
          HeadIsOther(w, l, i, ev);
          HeadIsOther(w, l, i, EvConnect);
          ReachPhase(w.loop, e);
          assert w.loop.phase.batch == [e] + w.loop.phase.batch[1..];
        case Finish =>
      }
  }

  lemma QueuedStamp(w: World, ev: Ev)
    requires Id(w.k.port.on.base, ev) in w.loop.events && w.loop.events[Id(w.k.port.on.base, ev)].active
    ensures QueuedNow(w, ev) <==>
      w.loop.phase.InCallbacks? && w.loop.events[Id(w.k.port.on.base, ev)].genid == w.loop.phase.cur
  {
  }

  lemma DeletePhase(s: Loop, e: Fde.EventId)
    requires e in s.events
    ensures Fde.DeleteEvent(s, e).phase == s.phase
  {
    hide Fde.Push, Remove;
  }

  lemma ReachPhase(s: Loop, e: Fde.EventId)
    requires Fde.Enabled(s, Fde.Deliver(e))
    ensures Fde.Reach(s, e).phase == Fde.InIo(s.phase.batch[1..])
  {
    hide Remove;
  }

  lemma ActiveCallback(w: World, ev: Ev)
    requires LiveInv(w) && Has(w.k.port.on, ev) && IsCallback(ev)
    ensures Id(w.k.port.on.base, ev) in w.loop.events && w.loop.events[Id(w.k.port.on.base, ev)].active
  {
    OnIsActive(w, ev);
  }

  // ------------------------------------------------------------------
  // Closes that cannot end
  // ------------------------------------------------------------------

  /** An in-progress connect that every other operation left is bound to end before. */
  ghost predicate Blocked(w: World) {
    w.k.port.on.connect && forall ev :: Ender(ev) && !ev.EvConnect? && OpOn(w.k, ev) ==> Ahead(w, ev)
  }

  /** The close is forgotten already, or bound to be, or waits for an idle datagram writer. */
  ghost predicate Endless(w: World) {
    w.k.lost || IdleWriter(w) || Blocked(w)
  }

  lemma ConnectNoCleanup(w: World)
    requires LiveInv(w) && w.k.port.on.connect
    ensures !Has(w.k.port.on, EvCleanup) && !w.k.f.uwActive
  {
    hide TraceInv, Sound, Synced;
  }

  /** Nothing is ahead of a connect that fires. */
  lemma ConnectFiresFirst(w: World, wl: WLabel, ev: Ev)
    requires LiveInv(w) && Enabled(w, wl) && Handles(w, wl, EvConnect) && !ev.EvConnect?
    ensures !Ahead(w, ev)
  {
    assert LiveEvent(w.loop, w.k.port.on.base, w.k.port.on.fd, w.k.port.on, EvConnect);
    IdsDiffer(w.k.port.on.base, ev, EvConnect);
    if wl.l.FireCb? {
      FiredIsCallback(w.loop, wl.l.e);
      assert false;
    }
    hide LiveInv;
  }

  lemma BlockedConnect(w: World, wl: WLabel)
    requires WorldInv(w) && !w.k.f.freed && w.k.f.closing && Enabled(w, wl) && Blocked(w)
    requires Handles(w, wl, EvConnect)
    ensures Next(w, wl).k.lost || Blocked(Next(w, wl))
  {
    hide LiveInv, WorldInv, Next, Enabled, Ahead, Has;
    StepLive(w, wl);
    EndersOn(w, EvConnect);
    ConnectNoCleanup(w);
    StepLost(w, wl);
    forall ev | Ender(ev) && !ev.EvConnect? ensures !OpOn(w.k, ev) && !OpOn(Next(w, wl).k, ev) {
      ConnectFiresFirst(w, wl, ev);
      StepOps(w, wl, ev);
    }
    assert Ender(EvReadCb) && Ender(EvWriteCb) && Ender(EvAccept) && Ender(EvUdpRead);
    StepOps(w, wl, EvConnect);
  }

  lemma BlockedStep(w: World, wl: WLabel)
    requires WorldInv(w) && !w.k.f.freed && w.k.f.closing && Enabled(w, wl) && Blocked(w)
    ensures !Next(w, wl).k.f.freed && Next(w, wl).k.f.closing
    ensures Next(w, wl).k.lost || Blocked(Next(w, wl))
  {
    hide LiveInv, WorldInv, Next, Enabled, Ahead, Has;
    ClosingQueues(w);
    ConnectNoCleanup(w);
    NotCleanup(w, wl);
    StepLive(w, wl);
    if Handles(w, wl, EvConnect) {
      BlockedConnect(w, wl);
    } else {
      StepOps(w, wl, EvConnect);
      forall ev | Ender(ev) && !ev.EvConnect? && OpOn(Next(w, wl).k, ev) ensures Ahead(Next(w, wl), ev) {
        StepOps(w, wl, ev);
        EndersOn(w, ev);
        AheadSame(w, wl, ev);
      }
    }
  }

  lemma NotCleanup(w: World, wl: WLabel)
    requires LiveInv(w) && Enabled(w, wl) && !Has(w.k.port.on, EvCleanup)
    ensures !Handles(w, wl, EvCleanup)
  {
    hide LiveInv, Has;
    if Handles(w, wl, EvCleanup) {
      FireSyncs(w, wl.l);
      assert false;
    }
  }

  lemma EndlessStep(w: World, wl: WLabel)
    requires WorldInv(w) && !w.k.f.freed && w.k.f.closing && Enabled(w, wl) && Endless(w)
    ensures Endless(Next(w, wl)) && !Next(w, wl).k.f.freed && Next(w, wl).k.f.closing
  {
    hide WorldInv, Next, Enabled, Blocked;
    if w.k.lost {
      StepLost(w, wl);
      NextKeepsInv(w, wl);
      ForgottenIsLost(Next(w, wl));
    } else if IdleWriter(w) {
      IdleWriterStep(w, wl);
    } else {
      BlockedStep(w, wl);
    }
  }

  /** Such a close never ends. */
  lemma {:induction false} EndlessForever(w: World, ls: seq<WLabel>)
    requires WorldInv(w) && !w.k.f.freed && w.k.f.closing && Endless(w) && Valid(w, ls)
    ensures Endless(Run(w, ls)) && !Run(w, ls).k.f.freed && Run(w, ls).k.f.closing
    decreases |ls|
  {
    hide WorldInv, Next, Enabled, Endless;
    if ls != [] {
      EndlessForever(w, ls[..|ls| - 1]);
      WorldInvariant(w, ls[..|ls| - 1]);
      EndlessStep(Run(w, ls[..|ls| - 1]), ls[|ls| - 1]);
    }
  }

  // ------------------------------------------------------------------
  // A schedule that ends every other close
  // ------------------------------------------------------------------

  /** Every system call succeeds at once and no callback does anything. */
  const QUIET: Input := Input(Done(0), [], [], true)

  /** Some operation waits for the descriptor. */
  predicate AwaitsIo(k: Core) {
    OpOn(k, EvConnect) || OpOn(k, EvUdpWrite) || OpOn(k, EvAccept) || OpOn(k, EvUdpRead)
  }

  /** The descriptor event to ask for: the connect, as long as there is one. */
  function PickEv(k: Core): (ev: Ev)
    ensures Ender(ev) && !IsCallback(ev)
    ensures AwaitsIo(k) ==> OpOn(k, ev)
    ensures OpOn(k, EvConnect) ==> ev == EvConnect
  {
    if OpOn(k, EvConnect) then EvConnect
    else if OpOn(k, EvUdpWrite) then EvUdpWrite
    else if OpOn(k, EvAccept) then EvAccept
    else EvUdpRead
  }

  function PickKeys(k: Core): seq<Fde.Key> {
    if !AwaitsIo(k) then []
    else [Fde.Key(k.port.on.fd, if ReadSide(PickEv(k)) then Fde.ReadFilter else Fde.WriteFilter)]
  }

  /** What the loop does next; only what the wait returns is chosen. */
  function Pick(w: World): Fde.Label {
    var s := w.loop;
    match s.phase
    case Idle => Fde.StartRound(Timeval(0, 0))
    case InCallbacks(cur, _) => if Fde.RoundGoesOn(s, cur) then Fde.FireCb(s.cbHead[0]) else Fde.EndRound
    case InTimers(now) =>
      if Fde.TimerDue(s, now) then Fde.FireTimer(s.tHead[0], s.events[s.tHead[0]].tv) else Fde.Wait(PickKeys(w.k))
    case InIo(batch) => if batch != [] then Fde.Deliver(batch[0]) else Fde.Finish
  }

  function Go(w: World): WLabel { Step(Pick(w), QUIET) }

  /** With no delivery pending, an active descriptor event of the comm is registered. */
  lemma RegisteredEvent(w: World, ev: Ev)
    requires LiveInv(w) && KernelInv(w.loop) && Batch(w.loop) == [] && Has(w.k.port.on, ev) && !IsCallback(ev)
    ensures var key := Fde.Key(w.k.port.on.fd, if ReadSide(ev) then Fde.ReadFilter else Fde.WriteFilter);
      key in Fde.Effective(w.loop) && Fde.Effective(w.loop)[key].udata == Id(w.k.port.on.base, ev)
  {
    assert LiveEvent(w.loop, w.k.port.on.base, w.k.port.on.fd, w.k.port.on, ev);
    assert IsActiveIo(w.loop, Id(w.k.port.on.base, ev));
  }

  lemma GoEnabled(w: World)
    requires KernelWorld(w) && !w.k.f.freed && w.k.f.closing
    ensures Enabled(w, Go(w)) && Polite(w, Go(w))
    ensures Pick(w).Wait? ==>
      Next(w, Go(w)).loop.phase == Fde.InIo(if AwaitsIo(w.k) then [Id(w.k.port.on.base, PickEv(w.k))] else [])
  {
    hide Has, KernelInv, Dispatch, DoCmd, Exec, WorldInv, LiveInv, BatchOurs;
    ClosingQueues(w);
    if Pick(w).Wait? && AwaitsIo(w.k) {
      EndersOn(w, PickEv(w.k));
      RegisteredEvent(w, PickEv(w.k));
    }
    hide WorldInv, OpOn, Fde.Effective;
  }

  /** The operations still active, and the comm itself. */
  function Remaining(k: Core): nat {
    if k.f.freed then 0
    else 1 + One(OpOn(k, EvReadCb)) + One(OpOn(k, EvWriteCb)) + One(OpOn(k, EvAccept)) + One(OpOn(k, EvConnect))
           + One(OpOn(k, EvConnectStart)) + One(OpOn(k, EvUdpRead)) + One(OpOn(k, EvUdpWrite))
  }

  /** An event that ends an operation is in the batch being delivered. */
  predicate Hot(w: World) {
    w.loop.phase.InIo? &&
    (|| (OpOn(w.k, EvConnect) && Id(w.k.port.on.base, EvConnect) in w.loop.phase.batch)
     || (OpOn(w.k, EvUdpWrite) && Id(w.k.port.on.base, EvUdpWrite) in w.loop.phase.batch)
     || (OpOn(w.k, EvAccept) && Id(w.k.port.on.base, EvAccept) in w.loop.phase.batch)
     || (OpOn(w.k, EvUdpRead) && Id(w.k.port.on.base, EvUdpRead) in w.loop.phase.batch))
  }

  /** A callback that ends an operation, or the cleanup, is queued for the round in progress. */
  ghost predicate RoundHas(w: World) {
    || (OpOn(w.k, EvReadCb) && QueuedNow(w, EvReadCb))
    || (OpOn(w.k, EvWriteCb) && QueuedNow(w, EvWriteCb))
    || (OpOn(w.k, EvConnectStart) && QueuedNow(w, EvConnectStart))
    || (w.k.f.cleanup && QueuedNow(w, EvCleanup))
  }

  /** How many phases away the next end of an operation is. */
  ghost function Distance(w: World): nat {
    if AwaitsIo(w.k) then
      match w.loop.phase
      case InIo(_) => if Hot(w) then 0 else 4
      case InTimers(_) => 1
      case InCallbacks(_, _) => 2
      case Idle => 3
    else
      match w.loop.phase
      case InCallbacks(_, _) => if RoundHas(w) then 0 else 4
      case Idle => 1
      case InIo(_) => 2
      case InTimers(_) => 3
  }

  /** The steps left in the phase. */
  function Rest(w: World): nat {
    match w.loop.phase
    case InCallbacks(_, _) => |FdeRounds.Left(w.loop)|
    case InTimers(_) => |w.loop.tHead|
    case InIo(batch) => |batch|
    case Idle => 0
  }

  ghost predicate Closer(n: World, w: World) {
    || Remaining(n.k) < Remaining(w.k)
    || (Remaining(n.k) == Remaining(w.k) &&
        (Distance(n) < Distance(w) || (Distance(n) == Distance(w) && Rest(n) < Rest(w))))
  }

  // -- the schedule never walks into an endless close

  lemma WaitingOther(w: World) returns (ev: Ev)
    requires w.k.port.on.connect && !Blocked(w)
    ensures Ender(ev) && !ev.EvConnect? && OpOn(w.k, ev) && !Ahead(w, ev)
  {
    ev :| Ender(ev) && !ev.EvConnect? && OpOn(w.k, ev) && !Ahead(w, ev);
  }

  lemma OpKeepsOpen(w: World, ev: Ev)
    requires LiveInv(w) && w.k.port.on.connect && Ender(ev) && !ev.EvConnect? && OpOn(w.k, ev)
    ensures !CloseReady(w.k.f.(coActive := false))
  {
    hide TraceInv, Sound, Synced;
  }

  lemma ConnectNotLast(w: World, wl: WLabel)
    requires LiveInv(w) && w.k.f.closing && Enabled(w, wl) && !w.k.lost && !Blocked(w)
    ensures !Next(w, wl).k.lost
  {
    hide LiveInv, Next, Has, Blocked, Ahead;
    StepLost(w, wl);
    if ConnectEndsLast(w, wl) {
      FireSyncs(w, wl.l);
      EndersOn(w, EvConnect);
      var ev := WaitingOther(w);
      OpKeepsOpen(w, ev);
      assert false;
    }
  }

  lemma WriterStaysPrimed(w: World, wl: WLabel)
    requires WorldInv(w) && !w.k.f.freed && w.k.f.closing && Enabled(w, wl) && !Handles(w, wl, EvCleanup)
    requires !IdleWriter(w)
    ensures !IdleWriter(Next(w, wl))
  {
    hide LiveInv, WorldInv, Next, Enabled, Has;
    ClosingQueues(w);
    if HandlesAny(w, wl) {
      HandlerStep(w, wl, EvOf(w.k.port.on.base, wl.l.e));
    } else {
      IdleStep(w, wl);
    }
  }

  lemma StaysUnblocked(w: World)
    requires KernelWorld(w) && !w.k.f.freed && w.k.f.closing && !Endless(w)
    requires Enabled(w, Go(w)) && !Handles(w, Go(w), EvCleanup)
    ensures !Blocked(Next(w, Go(w)))
  {
    hide LiveInv, WorldInv, KernelInv, BatchOurs, Next, Enabled, Has, Ahead, OpOn, Pick;
    var wl, n := Go(w), Next(w, Go(w));
    ClosingQueues(w);
    StepOps(w, wl, EvConnect);
    OpOfConnect(w.k);
    OpOfConnect(n.k);
    if n.k.port.on.connect {
      var ev := WaitingOther(w);
      StepOps(w, wl, ev);
      if Handles(w, wl, ev) {
        FiringIsAhead(w, wl, ev);
        assert false;
      }
      EndersOn(w, ev);
      AheadSame(w, wl, ev);
      if Pick(w).Wait? { BehindConnect(w, ev); }
      assert OpOn(n.k, ev) && !Ahead(n, ev);
    }
  }

  lemma OpOfConnect(k: Core)
    ensures OpOn(k, EvConnect) == k.port.on.connect
  {
  }

  /** After a wait for the connect alone, nothing is ahead of it. */
  lemma BehindConnect(w: World, ev: Ev)
    requires KernelWorld(w) && !w.k.f.freed && w.k.f.closing && w.k.port.on.connect
    requires Enabled(w, Go(w)) && Pick(w).Wait? && !ev.EvConnect?
    ensures !Ahead(Next(w, Go(w)), ev)
  {
    hide KernelWorld, Next, Enabled, Pick;
    GoEnabled(w);
    SameBase(w, Go(w));
    IdsDiffer(w.k.port.on.base, ev, EvConnect);
    assert PickEv(w.k) == EvConnect;
  }

  lemma StaysOpen(w: World)
    requires KernelWorld(w) && !w.k.f.freed && w.k.f.closing && !Endless(w) && Enabled(w, Go(w))
    ensures Next(w, Go(w)).k.f.closing && (Next(w, Go(w)).k.f.freed || !Endless(Next(w, Go(w))))
  {
    hide LiveInv, WorldInv, KernelInv, BatchOurs, Next, Enabled, Has, Blocked, Pick;
    ClosingQueues(w);
    if Handles(w, Go(w), EvCleanup) {
      CleanupStep(w, Go(w));
      NextKeepsInv(w, Go(w));
      FreedQuiet(Next(w, Go(w)));
    } else {
      StepLive(w, Go(w));
      ConnectNotLast(w, Go(w));
      WriterStaysPrimed(w, Go(w));
      StaysUnblocked(w);
    }
  }

  // -- every step of the schedule comes closer to the end

  lemma EndCloser(w: World, x: Ev)
    requires KernelWorld(w) && !w.k.f.freed && w.k.f.closing && Enabled(w, Go(w)) && Handles(w, Go(w), x)
    requires Ender(x)
    ensures Remaining(Next(w, Go(w)).k) < Remaining(w.k)
  {
    hide LiveInv, WorldInv, KernelInv, BatchOurs, Next, Enabled, Has, Pick, OpOn, EndsOnly, TellsOnce, Remaining;
    StepLive(w, Go(w));
    HandlerStep(w, Go(w), x);
    EndersOn(w, x);
    forall ev | Ender(ev) ensures OpOn(Next(w, Go(w)).k, ev) == (OpOn(w.k, ev) && ev != x) {
      StepOps(w, Go(w), ev);
    }
    OneLess(w.k, Next(w, Go(w)).k, x);
  }

  lemma OneLess(k: Core, r: Core, x: Ev)
    requires !k.f.freed && !r.f.freed && Ender(x) && OpOn(k, x)
    requires forall ev :: Ender(ev) ==> OpOn(r, ev) == (OpOn(k, ev) && ev != x)
    ensures Remaining(r) < Remaining(k)
  {
    hide OpOn;
    assert Ender(EvReadCb) && Ender(EvWriteCb) && Ender(EvAccept) && Ender(EvConnect);
    assert Ender(EvConnectStart) && Ender(EvUdpRead) && Ender(EvUdpWrite);
  }

  lemma SameCount(k: Core, r: Core)
    requires k.f.freed == r.f.freed && forall ev :: Ender(ev) ==> OpOn(r, ev) == OpOn(k, ev)
    ensures Remaining(r) == Remaining(k) && AwaitsIo(r) == AwaitsIo(k)
  {
    hide OpOn;
    assert Ender(EvReadCb) && Ender(EvWriteCb) && Ender(EvAccept) && Ender(EvConnect);
    assert Ender(EvConnectStart) && Ender(EvUdpRead) && Ender(EvUdpWrite);
  }

  /** A step that runs no handler ending an operation. */
  ghost predicate EndsNothing(w: World) {
    Enabled(w, Go(w)) && (HandlesAny(w, Go(w)) ==>
      Handles(w, Go(w), EvRead) || Handles(w, Go(w), EvWrite))
  }

  ghost predicate Underway(w: World) {
    KernelWorld(w) && !w.k.f.freed && w.k.f.closing && !Endless(w)
  }

  lemma SameOperations(w: World)
    requires Underway(w) && EndsNothing(w)
    ensures LiveInv(w) && Remaining(Next(w, Go(w)).k) == Remaining(w.k)
    ensures AwaitsIo(Next(w, Go(w)).k) == AwaitsIo(w.k)
    ensures Next(w, Go(w)).k.port.on.base == w.k.port.on.base
    ensures w.k.f.cleanup ==> Next(w, Go(w)).k.f.cleanup
    ensures forall ev :: Ender(ev) ==> OpOn(Next(w, Go(w)).k, ev) == OpOn(w.k, ev)
  {
    hide LiveInv, WorldInv, KernelInv, BatchOurs, Next, Enabled, Has, Pick, OpOn, Endless;
    StepLive(w, Go(w));
    SameBase(w, Go(w));
    forall ev | Ender(ev) ensures OpOn(Next(w, Go(w)).k, ev) == OpOn(w.k, ev) {
      StepOps(w, Go(w), ev);
    }
    SameCount(w.k, Next(w, Go(w)).k);
    if HandlesAny(w, Go(w)) {
      HandlerStep(w, Go(w), EvOf(w.k.port.on.base, Go(w).l.e));
    } else {
      IdleStep(w, Go(w));
    }
  }

  /** Without descriptor operations a callback of the comm is queued. */
  lemma SomeCallback(w: World) returns (ev: Ev)
    requires LiveInv(w) && w.k.f.closing && !Endless(w) && !AwaitsIo(w.k)
    ensures IsCallback(ev) && Has(w.k.port.on, ev)
    ensures if ev.EvCleanup? then w.k.f.cleanup else OpOn(w.k, ev)
  {
    NotFreed(w.k);
    LiveIsWorld(w);
    ClosingQueues(w);
    EndersOn(w, EvConnectStart);
    EndersOn(w, EvAccept);
    hide LiveInv, WorldInv;
    ev := if w.k.f.rActive then EvReadCb else if w.k.f.wActive then EvWriteCb
          else if w.k.f.coActive then EvConnectStart else EvCleanup;
  }

  lemma IdleCloser(w: World)
    requires Underway(w) && EndsNothing(w) && w.loop.phase.Idle?
    ensures Closer(Next(w, Go(w)), w)
  {
    hide Enabled, LiveInv, WorldInv, KernelInv, BatchOurs, Has, OpOn, Endless, QueuedNow, Next, Remaining, AwaitsIo;
    SameOperations(w);
    WorldPhase(w, Go(w));
    if !AwaitsIo(w.k) {
      var ev := SomeCallback(w);
      StartQueues(w, Go(w), ev);
      CallbackNames(w.k, ev);
    }
  }

  lemma CallbackNames(k: Core, ev: Ev)
    requires IsCallback(ev) && (OpOn(k, ev) || ev.EvCleanup?)
    ensures ev.EvReadCb? || ev.EvWriteCb? || ev.EvConnectStart? || ev.EvCleanup?
  {
  }

  lemma TimersCloser(w: World)
    requires Underway(w) && EndsNothing(w) && w.loop.phase.InTimers?
    ensures Closer(Next(w, Go(w)), w)
  {
    hide Dispatch, DoCmd, Exec, LiveInv, WorldInv, KernelInv, BatchOurs, Has, OpOn, Endless, QueuedNow;
    SameOperations(w);
    var n := Next(w, Go(w));
    if Fde.TimerDue(w.loop, w.loop.phase.now) {
      assert n == World(Fde.DeleteEvent(w.loop, w.loop.tHead[0]), w.k);
      TimerGone(w);
    } else {
      GoEnabled(w);
    }
  }

  lemma TimerGone(w: World)
    requires LiveInv(w) && w.loop.phase.InTimers? && Fde.TimerDue(w.loop, w.loop.phase.now)
    ensures var t := Fde.DeleteEvent(w.loop, w.loop.tHead[0]);
      t.phase == w.loop.phase && |t.tHead| < |w.loop.tHead|
  {
    assert w.loop.tHead[0] in w.loop.tHead;
    RemoveHead(w.loop.tHead);
  }

  lemma RoundCloser(w: World)
    requires Underway(w) && EndsNothing(w) && w.loop.phase.InCallbacks?
    ensures Closer(Next(w, Go(w)), w)
  {
    hide Dispatch, DoCmd, Exec, LiveInv, WorldInv, KernelInv, BatchOurs, Has, OpOn, Endless, QueuedNow;
    SameOperations(w);
    var n, wl := Next(w, Go(w)), Go(w);
    if Fde.RoundGoesOn(w.loop, w.loop.phase.cur) {
      OursFireEnders(w);
      assert n == World(Fde.DeleteEvent(w.loop, w.loop.cbHead[0]), w.k);
      LiveSound(w);
      FdeRounds.FireShortens(w.loop, w.loop.cbHead[0]);
      if RoundHas(w) { RoundHasStays(w); }
    } else {
      NoRoundLeft(w);
    }
  }

  lemma LiveSound(w: World)
    requires LiveInv(w)
    ensures Sound(w.loop)
  {
  }

  lemma NoIoInRound(w: World, ev: Ev)
    requires LiveInv(w) && Enabled(w, Go(w)) && Pick(w).FireCb? && !IsCallback(ev)
    ensures !Handles(w, Go(w), ev)
  {
    FiredIsCallback(w.loop, Pick(w).e);
    assert LiveEvent(w.loop, w.k.port.on.base, w.k.port.on.fd, w.k.port.on, ev);
    hide LiveInv, Has;
  }

  /** The callbacks of the comm all end something, so this one is not of the comm. */
  lemma OursFireEnders(w: World)
    requires LiveInv(w) && EndsNothing(w) && Pick(w).FireCb?
    ensures !HandlesAny(w, Go(w))
  {
    hide LiveInv, Pick;
    NoIoInRound(w, EvRead);
    NoIoInRound(w, EvWrite);
  }

  lemma QueuedStays(w: World, ev: Ev)
    requires LiveInv(w) && Enabled(w, Go(w)) && w.k.f.closing && !HandlesAny(w, Go(w)) && Pick(w).FireCb?
    requires QueuedNow(w, ev) && IsCallback(ev)
    ensures QueuedNow(Next(w, Go(w)), ev)
  {
    hide LiveInv, QueuedNow, Next, Pick;
    StaysQueued(w, Go(w), ev);
  }

  lemma RoundHasStays(w: World)
    requires Underway(w) && EndsNothing(w) && RoundHas(w) && Pick(w).FireCb? && !HandlesAny(w, Go(w))
    ensures RoundHas(Next(w, Go(w)))
  {
    hide LiveInv, WorldInv, KernelInv, BatchOurs, Has, OpOn, Endless, QueuedNow, Next, Pick, Enabled;
    SameOperations(w);
    if QueuedNow(w, EvReadCb) { QueuedStays(w, EvReadCb); }
    if QueuedNow(w, EvWriteCb) { QueuedStays(w, EvWriteCb); }
    if QueuedNow(w, EvConnectStart) { QueuedStays(w, EvConnectStart); }
    if QueuedNow(w, EvCleanup) { QueuedStays(w, EvCleanup); }
  }

  lemma NoRoundLeft(w: World)
    requires LiveInv(w) && Enabled(w, Go(w)) && Pick(w).EndRound?
    ensures !RoundHas(w)
  {
    hide WorldInv, LiveInv, QueuedNow, Enabled, Pick;
    NothingQueuedAtEnd(w, Go(w), EvReadCb);
    NothingQueuedAtEnd(w, Go(w), EvWriteCb);
    NothingQueuedAtEnd(w, Go(w), EvConnectStart);
    NothingQueuedAtEnd(w, Go(w), EvCleanup);
  }

  lemma StillInBatch(w: World, ev: Ev)
    requires LiveInv(w) && w.k.f.closing && EndsNothing(w) && Pick(w).Deliver? && Ender(ev) && OpOn(w.k, ev)
    requires Id(w.k.port.on.base, ev) in w.loop.phase.batch
    ensures Id(w.k.port.on.base, ev) in w.loop.phase.batch[1..]
  {
    hide LiveInv, Has, OpOn;
    EndersOn(w, ev);
    HeadIsOther(w, Pick(w), QUIET, ev);
    assert w.loop.phase.batch == [Pick(w).e] + w.loop.phase.batch[1..];
  }

  lemma IoCloser(w: World)
    requires Underway(w) && EndsNothing(w) && w.loop.phase.InIo?
    ensures Closer(Next(w, Go(w)), w)
  {
    hide Enabled, LiveInv, WorldInv, KernelInv, BatchOurs, Has, OpOn, Endless, QueuedNow, Next;
    SameOperations(w);
    WorldPhase(w, Go(w));
    if Pick(w).Deliver? {
      ReachPhase(w.loop, Pick(w).e);
      var b, batch := w.k.port.on.base, w.loop.phase.batch;
      if OpOn(w.k, EvConnect) && Id(b, EvConnect) in batch { StillInBatch(w, EvConnect); }
      if OpOn(w.k, EvUdpWrite) && Id(b, EvUdpWrite) in batch { StillInBatch(w, EvUdpWrite); }
      if OpOn(w.k, EvAccept) && Id(b, EvAccept) in batch { StillInBatch(w, EvAccept); }
      if OpOn(w.k, EvUdpRead) && Id(b, EvUdpRead) in batch { StillInBatch(w, EvUdpRead); }
    }
  }

  lemma GoCloser(w: World)
    requires Underway(w) && Enabled(w, Go(w))
    ensures Closer(Next(w, Go(w)), w)
  {
    hide LiveInv, WorldInv, KernelInv, BatchOurs, Endless, Next, Enabled, Pick, Distance, Rest;
    if EndsNothing(w) {
      match w.loop.phase
      case Idle => IdleCloser(w);
      case InCallbacks(_, _) => RoundCloser(w);
      case InTimers(_) => TimersCloser(w);
      case InIo(_) => IoCloser(w);
    } else {
      ClosingQueues(w);
      var x := EvOf(w.k.port.on.base, Go(w).l.e);
      if x.EvCleanup? { CleanupStep(w, Go(w)); } else { EndCloser(w, x); }
    }
  }

  // ------------------------------------------------------------------
  // The exact condition
  // ------------------------------------------------------------------

  lemma {:induction false} RunCons(w: World, wl: WLabel, ls: seq<WLabel>)
    requires Enabled(w, wl) && Valid(Next(w, wl), ls)
    ensures Valid(w, [wl] + ls) && Run(w, [wl] + ls) == Run(Next(w, wl), ls)
    decreases |ls|
  {
    hide Enabled, Next;
    var all := [wl] + ls;
    if ls == [] {
      assert all[..0] == [] && Valid(w, []) && Run(w, []) == w;
      assert all == [wl];
    } else {
      RunCons(w, wl, ls[..|ls| - 1]);
      assert all[..|all| - 1] == [wl] + ls[..|ls| - 1];
    }
  }

  /** The schedule frees the comm. */
  lemma {:induction false} CloseEnds(w: World) returns (ls: seq<WLabel>)
    requires KernelWorld(w) && w.k.f.closing && (w.k.f.freed || !Endless(w))
    ensures Valid(w, ls) && Run(w, ls).k.f.freed
    decreases Remaining(w.k), Distance(w), Rest(w)
  {
    hide KernelWorld, Endless, Next, Enabled, Polite, Remaining, Distance, Rest;
    if w.k.f.freed {
      ls := [];
    } else {
      GoEnabled(w);
      NextKeepsKernelWorld(w, Go(w));
      StaysOpen(w);
      GoCloser(w);
      var rest := CloseEnds(Next(w, Go(w)));
      RunCons(w, Go(w), rest);
      ls := [Go(w)] + rest;
    }
  }

  /**
   * The exact law of closing: some continuation frees a closing comm if and
   * only if its close is not forgotten, it has no datagram writer without work,
   * and no in-progress connect that all other operations are bound to end before.
   */
  lemma CloseCanEndIff(w: World)
    requires KernelWorld(w) && w.k.f.closing && !w.k.f.freed
    ensures (exists ls :: Valid(w, ls) && Run(w, ls).k.f.freed) <==> !Endless(w)
  {
    hide Endless, Run, Valid, KernelInv, WorldInv;
    if Endless(w) {
      forall ls | Valid(w, ls) ensures !Run(w, ls).k.f.freed {
        EndlessForever(w, ls);
      }
    } else {
      var ls := CloseEnds(w);
    }
  }

  lemma WriterExcludes(w: World)
    requires WorldInv(w) && !w.k.f.freed && w.k.f.closing && w.k.f.uwActive
    ensures !w.k.lost && !w.k.port.on.connect
  {
    hide TraceInv, Sound, Synced;
  }

  /** In particular a datagram writer of a closing comm can be ended if and only if it has work. */
  lemma WriterCanEndIff(w: World)
    requires KernelWorld(w) && w.k.f.closing && !w.k.f.freed && w.k.f.uwActive
    ensures (exists ls :: Valid(w, ls) && !Run(w, ls).k.f.uwActive) <==> w.k.f.uwPrimed
  {
    hide Run, Valid, KernelInv, WorldInv;
    WriterExcludes(w);
    if w.k.f.uwPrimed {
      var ls := CloseEnds(w);
      WorldInvariant(w, ls);
      FreedQuiet(Run(w, ls));
    } else {
      forall ls | Valid(w, ls) ensures Run(w, ls).k.f.uwActive {
        IdleWriterForever(w, ls);
      }
    }
  }
}
