/**
 * Bounded close: a closing comm with stream operations only is freed within two
 * rounds of callbacks, and its owners are told once each.
 */
module CommBoundedClose {
  import opened Seqs
  import opened Timevals
  import Fde
  import opened FdeLists
  import opened FdeKernel
  import opened Comm
  import opened CommInvariants
  import opened CommTraces
  import opened CommWorld
  import opened CommKernel
  import opened CommClosing
  import opened CommForgotten

  // ------------------------------------------------------------------
  // Bounded close
  // ------------------------------------------------------------------

  predicate StartsRound(wl: WLabel) { wl.Step? && wl.l.StartRound? }

  predicate EndsRound(wl: WLabel) { wl.Step? && wl.l.EndRound? }

  /** Only stream reads and writes can be outstanding. */
  predicate StreamOnly(f: Flags) {
    !f.aActive && !f.coActive && !f.urActive && !f.uwActive
  }

  /** The event is queued for the callback round in progress. */
  ghost predicate QueuedNow(w: World, ev: Ev) {
    var e := Id(w.k.port.on.base, ev);
    && w.loop.phase.InCallbacks? && e in w.loop.events
    && w.loop.events[e].active && w.loop.events[e].genid == w.loop.phase.cur
  }

  /** Closing, waiting at most for a read and a write. */
  ghost predicate Waiting(w: World) {
    !w.k.f.freed ==> w.k.f.closing && StreamOnly(w.k.f) && !w.k.lost
  }

  ghost predicate InFirstRound(w: World) {
    && Waiting(w) && w.loop.phase.InCallbacks?
    && (!w.k.f.freed && w.k.f.rActive ==> QueuedNow(w, EvReadCb))
    && (!w.k.f.freed && w.k.f.wActive ==> QueuedNow(w, EvWriteCb))
  }

  ghost predicate CleanupDue(w: World) {
    !w.k.f.freed ==> w.k.f.cleanup
  }

  ghost predicate InSecondRound(w: World) {
    w.loop.phase.InCallbacks? && (!w.k.f.freed ==> w.k.f.cleanup && QueuedNow(w, EvCleanup))
  }

  /** How many of: round begun, ended, second round begun, ended. */
  function Stage(ls: seq<WLabel>): nat {
    if ls == [] then 0
    else
      var st, wl := Stage(ls[..|ls| - 1]), ls[|ls| - 1];
      if (st == 0 || st == 2) && StartsRound(wl) then st + 1
      else if (st == 1 || st == 3) && EndsRound(wl) then st + 1
      else st
  }

  ghost predicate StageInv(w: World, st: nat) {
    && WorldInv(w)
    && (st == 0 ==> Waiting(w))
    && (st == 1 ==> InFirstRound(w))
    && (st == 2 ==> CleanupDue(w))
    && (st == 3 ==> InSecondRound(w))
    && (st >= 4 ==> w.k.f.freed)
  }

  /** A queued callback of the comm carries the current stamp when a round starts. */
  lemma StampedAtStart(s: Loop, e: Fde.EventId, now: Timeval)
    requires Sound(s) && IsActiveCallback(s, e) && Fde.Enabled(s, Fde.StartRound(now))
    ensures Fde.Next(s, Fde.StartRound(now)).phase.InCallbacks?
    ensures Fde.Next(s, Fde.StartRound(now)).events == s.events
    ensures s.events[e].genid == Fde.Next(s, Fde.StartRound(now)).phase.cur
  {
    assert e in s.cbHead;
    var i :| 0 <= i < |s.cbHead| && s.cbHead[i] == e;
    assert Gens(s)[i] == s.genid;
  }

  lemma OnIsActive(w: World, ev: Ev)
    requires LiveInv(w) && Has(w.k.port.on, ev) && IsCallback(ev)
    ensures IsActiveCallback(w.loop, Id(w.k.port.on.base, ev))
  {
    assert LiveEvent(w.loop, w.k.port.on.base, w.k.port.on.fd, w.k.port.on, ev);
  }

  lemma StartQueues(w: World, wl: WLabel, ev: Ev)
    requires LiveInv(w) && Enabled(w, wl) && StartsRound(wl) && Has(w.k.port.on, ev) && IsCallback(ev)
    ensures Next(w, wl).k == w.k && QueuedNow(Next(w, wl), ev)
  {
    hide Dispatch, DoCmd, Exec;
    OnIsActive(w, ev);
    StampedAtStart(w.loop, Id(w.k.port.on.base, ev), wl.l.now);
    hide LiveInv, Fde.Next, Has;
  }

  lemma FirstRoundStarts(w: World, wl: WLabel)
    requires WorldInv(w) && Waiting(w) && Enabled(w, wl) && StartsRound(wl)
    ensures InFirstRound(Next(w, wl))
  {
    hide Dispatch, DoCmd, Exec, WorldInv, LiveInv;
    if !w.k.f.freed {
      ClosingQueues(w);
      hide LiveInv, WorldInv, QueuedNow;
      if w.k.f.rActive { StartQueues(w, wl, EvReadCb); }
      if w.k.f.wActive { StartQueues(w, wl, EvWriteCb); }
    }
  }

  lemma ClosingQueues(w: World)
    requires WorldInv(w) && !w.k.f.freed && w.k.f.closing
    ensures LiveInv(w)
    ensures w.k.f.rActive ==> Has(w.k.port.on, EvReadCb)
    ensures w.k.f.wActive ==> Has(w.k.port.on, EvWriteCb)
    ensures w.k.f.cleanup ==> Has(w.k.port.on, EvCleanup)
    ensures CloseReady(w.k.f) && !w.k.lost ==> w.k.f.cleanup
    ensures w.k.f.cleanup ==> CloseReady(w.k.f)
  {
    hide TraceInv, Sound, Synced;
  }

  lemma SecondRoundStarts(w: World, wl: WLabel)
    requires WorldInv(w) && CleanupDue(w) && Enabled(w, wl) && StartsRound(wl)
    ensures InSecondRound(Next(w, wl))
  {
    hide Dispatch, DoCmd, Exec, WorldInv, LiveInv;
    if !w.k.f.freed {
      CleanupCloses(w);
      ClosingQueues(w);
      hide LiveInv, WorldInv, QueuedNow;
      StartQueues(w, wl, EvCleanup);
    }
  }

  lemma CleanupCloses(w: World)
    requires WorldInv(w) && !w.k.f.freed && w.k.f.cleanup
    ensures w.k.f.closing
  {
    hide TraceInv, Sound, Synced;
  }

  lemma StaysQueuedApi(w: World, cmd: UserCmd, ev: Ev)
    requires LiveInv(w) && Enabled(w, Api(cmd)) && QueuedNow(w, ev) && IsCallback(ev)
    ensures QueuedNow(Next(w, Api(cmd)), ev)
  {
    hide Dispatch, FlagInv, TraceInv, Sound, Synced, OwnsFd, DoCmd, Exec, Allowed;
    SameBase(w, Api(cmd));
    var a := w.k.(port := NewPort(w.k.port.on));
    FreshPort(w.k);
    DoCmdKeepsFlags(a, cmd, None);
    PortClean(DoCmd(a, cmd));
    ExecKeepsActive(w.loop, w.k.port.on.fd, w.k.port.on, DoCmd(a, cmd).port.acts, ev);
  }

  /** A queued callback that is not the one fired stays queued with its stamp. */
  lemma StaysQueued(w: World, wl: WLabel, ev: Ev)
    requires LiveInv(w) && Enabled(w, wl) && QueuedNow(w, ev) && IsCallback(ev)
    requires !EndsRound(wl)
    requires !Handles(w, wl, ev) && !Handles(w, wl, EvCleanup)
    ensures QueuedNow(Next(w, wl), ev)
  {
    hide Dispatch, DoCmd, Exec;
    match wl
    case Api(cmd) => StaysQueuedApi(w, cmd, ev);
    case Step(l, i) =>
      hide FlagInv, TraceInv, Sound, Synced, OwnsFd, Dispatch, Exec, Has, Turn, Fde.Next;
      SameBase(w, wl);
      LoopStepKeeps(w, l, i, ev);
      if RunsHandler(w, l) {
        var x := EvOf(w.k.port.on.base, l.e);
        FireSyncs(w, l);
        TurnHas(w.k.port.on, x, false, x);
        DispatchKeepsFlags(w.k, x, i);
        var k := Dispatch(Fired(w.k, x), x, i);
        PortClean(k);
        ExecKeepsActive(Fde.Next(w.loop, l), w.k.port.on.fd, k.port.start, k.port.acts, ev);
      }
  }

  lemma LoopStepKeeps(w: World, l: Fde.Label, i: Input, ev: Ev)
    requires LiveInv(w) && Enabled(w, Step(l, i)) && QueuedNow(w, ev) && !l.EndRound?
    requires !Handles(w, Step(l, i), ev)
    ensures var e, t := Id(w.k.port.on.base, ev), Fde.Next(w.loop, l);
      e in t.events && t.events[e] == w.loop.events[e] && t.phase == w.loop.phase
  {
    var e := Id(w.k.port.on.base, ev);
    IdsDiffer(w.k.port.on.base, ev, ev);
    NotFreed(w.k);
    EvOfId(w.k.port.on.base, ev);
    if l.Call? {
      SoundIdsFresh(w.loop);
      CallChanges(w.loop, l.cmd);
      CallKeepsPhase(w.loop, l.cmd);
    } else {
      assert l.FireCb?;
      DeleteChanges(w.loop, l.e);
    }
  }

  lemma EvOfId(base: nat, ev: Ev)
    ensures Owned(base, Id(base, ev)) && EvOf(base, Id(base, ev)) == ev
  {
    IdsDiffer(base, EvAt(Index(ev)), ev);
  }

  lemma CallKeepsPhase(s: Loop, c: Fde.Cmd)
    requires Fde.CmdOk(s, c)
    ensures Fde.Do(s, c).phase == s.phase
  {
    hide Fde.Push;
  }

  /** Requests of a live comm leave an active callback event exactly as it is. */
  lemma {:induction false} ExecKeepsActive(s: Loop, fd: int, on: On, acts: seq<Act>, ev: Ev)
    requires Sound(s) && Synced(s, fd, on) && OwnsFd(s, on.base, fd) && CleanAfter(on, acts)
    requires IsCallback(ev) && Id(on.base, ev) in s.events && s.events[Id(on.base, ev)].active
    ensures Id(on.base, ev) in Exec(s, on.base, acts).events
    ensures Exec(s, on.base, acts).events[Id(on.base, ev)] == s.events[Id(on.base, ev)]
    ensures Exec(s, on.base, acts).phase == s.phase
    decreases |acts|
  {
    hide Sound, Synced, OwnsFd, ExecAct, After, CleanAct;
    if acts != [] {
      var rest := acts[..|acts| - 1];
      ExecKeepsActive(s, fd, on, rest, ev);
      ExecSyncs(s, fd, on, rest);
      OnAfterBase(on, rest);
      ActKeepsActive(Exec(s, on.base, rest), fd, OnAfter(on, rest), acts[|acts| - 1], ev);
    }
  }

  lemma ActKeepsActive(s: Loop, fd: int, on: On, act: Act, ev: Ev)
    requires Synced(s, fd, on) && CleanAct(on, act) && IsCallback(ev)
    requires Id(on.base, ev) in s.events && s.events[Id(on.base, ev)].active
    ensures Id(on.base, ev) in ExecAct(s, on.base, act).events
    ensures ExecAct(s, on.base, act).events[Id(on.base, ev)] == s.events[Id(on.base, ev)]
    ensures ExecAct(s, on.base, act).phase == s.phase
  {
    ActSwitches(s, fd, on, act);
    IdsDiffer(on.base, ev, act.ev);
    if act.ev == ev {
      assert act.Arm?;
      assert Fde.AddEvent(s, Id(on.base, ev)) == s;
    }
    hide Has, RivalOn;
  }

  lemma WaitingStep(w: World, wl: WLabel)
    requires WorldInv(w) && Waiting(w) && Enabled(w, wl)
    ensures Waiting(Next(w, wl))
  {
    hide Dispatch, DoCmd, Exec;
    if w.k.f.freed {
      FreedStays(w, wl);
    } else {
      hide LiveInv, TellsOnce, Next, Has;
      StepLost(w, wl);
      ClosingQueues(w);
      NoConnectOn(w);
      if !HandlesAny(w, wl) {
        IdleStep(w, wl);
      } else {
        var ev := EvOf(w.k.port.on.base, wl.l.e);
        FireSyncs(w, wl.l);
        ConnectOff(w.k.port.on, ev);
        if ev.EvCleanup? { CleanupStep(w, wl); } else { HandlerStep(w, wl, ev); }
      }
    }
  }

  lemma NoConnectOn(w: World)
    requires LiveInv(w) && !w.k.f.coActive
    ensures !w.k.port.on.connect
  {
    hide TraceInv, Sound, Synced;
  }

  lemma ConnectOff(on: On, ev: Ev)
    requires !on.connect && Has(on, ev)
    ensures !ev.EvConnect?
  {
  }

  lemma FreedStays(w: World, wl: WLabel)
    requires w.k.f.freed && Enabled(w, wl)
    ensures Next(w, wl).k == w.k
  {
    hide Dispatch, DoCmd, Exec;
  }

  lemma CleanupDueStep(w: World, wl: WLabel)
    requires WorldInv(w) && CleanupDue(w) && Enabled(w, wl)
    ensures CleanupDue(Next(w, wl))
  {
    hide Next, Enabled, WorldInv, LiveInv;
    if w.k.f.freed {
      FreedStays(w, wl);
    } else {
      CleanupCloses(w);
      ClosingQueues(w);
      if !HandlesAny(w, wl) {
        hide WorldInv, LiveInv;
        IdleStep(w, wl);
      } else {
        var ev := EvOf(w.k.port.on.base, wl.l.e);
        hide WorldInv, LiveInv, TellsOnce;
        if ev.EvCleanup? { CleanupStep(w, wl); } else { HandlerStep(w, wl, ev); }
      }
    }
  }

  /** The read or write still waited for stays in the round until it has run. */
  lemma FirstRoundOp(w: World, wl: WLabel, ev: Ev)
    requires LiveInv(w) && w.k.f.closing && InFirstRound(w) && Enabled(w, wl) && !EndsRound(wl)
    requires ev.EvReadCb? || ev.EvWriteCb?
    requires !Handles(w, wl, EvCleanup)
    ensures ev.EvReadCb? && Next(w, wl).k.f.rActive ==> QueuedNow(Next(w, wl), ev)
    ensures ev.EvWriteCb? && Next(w, wl).k.f.wActive ==> QueuedNow(Next(w, wl), ev)
  {
    hide Has, KernelInv, Next, Enabled;
    NotFreed(w.k);
    LiveIsWorld(w);
    if HandlesAny(w, wl) {
      var x := EvOf(w.k.port.on.base, wl.l.e);
      hide LiveInv, WorldInv, QueuedNow, TellsOnce, Next, Enabled;
      HandlerStep(w, wl, x);
      if x != ev && (if ev.EvReadCb? then w.k.f.rActive else w.k.f.wActive) { StaysQueued(w, wl, ev); }
    } else {
      hide LiveInv, WorldInv, QueuedNow, Next, Enabled;
      IdleStep(w, wl);
      if (if ev.EvReadCb? then w.k.f.rActive else w.k.f.wActive) { StaysQueued(w, wl, ev); }
    }
  }

  lemma RoundPhase(w: World, wl: WLabel)
    requires WorldInv(w) && w.loop.phase.InCallbacks? && Enabled(w, wl) && !EndsRound(wl)
    ensures Next(w, wl).loop.phase == w.loop.phase
  {
    hide Dispatch, DoCmd, Exec, WorldInv, LiveInv;
    var base := w.k.port.on.base;
    match wl
    case Api(cmd) =>
      var k := DoCmd(w.k.(port := NewPort(w.k.port.on)), cmd);
      hide DoCmd, ExecAct, WorldInv;
      ExecPhase(w.loop, base, k.port.acts);
    case Step(l, i) =>
      if l.Call? { CallKeepsPhase(w.loop, l.cmd); } else { DeleteChanges(w.loop, l.e); }
      hide Dispatch, ExecAct, WorldInv, Fde.Next;
      if RunsHandler(w, l) {
        var ev := EvOf(base, l.e);
        ExecPhase(Fde.Next(w.loop, l), base, Dispatch(Fired(w.k, ev), ev, i).port.acts);
      }
  }

  lemma {:induction false} ExecPhase(s: Loop, base: nat, acts: seq<Act>)
    ensures Exec(s, base, acts).phase == s.phase
    decreases |acts|
  {
    if acts != [] {
      ExecPhase(s, base, acts[..|acts| - 1]);
      var t, act := Exec(s, base, acts[..|acts| - 1]), acts[|acts| - 1];
      if Fde.CmdOk(t, CmdOf(base, act)) { CallKeepsPhase(t, CmdOf(base, act)); }
      hide Fde.Do;
    }
  }

  lemma FirstRoundStep(w: World, wl: WLabel)
    requires WorldInv(w) && InFirstRound(w) && Enabled(w, wl) && !EndsRound(wl)
    ensures InFirstRound(Next(w, wl))
  {
    hide Next, Enabled, WorldInv, LiveInv;
    RoundPhase(w, wl);
    WaitingStep(w, wl);
    if w.k.f.freed {
      FreedStays(w, wl);
    } else {
      ClosingQueues(w);
      hide WorldInv, LiveInv, Next, Enabled;
      if Handles(w, wl, EvCleanup) {
        CleanupStep(w, wl);
      } else {
        FirstRoundOp(w, wl, EvReadCb);
        FirstRoundOp(w, wl, EvWriteCb);
      }
    }
  }

  lemma SecondRoundStep(w: World, wl: WLabel)
    requires WorldInv(w) && InSecondRound(w) && Enabled(w, wl) && !EndsRound(wl)
    ensures InSecondRound(Next(w, wl))
  {
    hide Next, Enabled, WorldInv, LiveInv;
    RoundPhase(w, wl);
    CleanupDueStep(w, wl);
    if w.k.f.freed {
      FreedStays(w, wl);
    } else {
      CleanupCloses(w);
      ClosingQueues(w);
      hide WorldInv, LiveInv, Next, Enabled, QueuedNow;
      if Handles(w, wl, EvCleanup) {
        CleanupStep(w, wl);
      } else {
        StaysQueued(w, wl, EvCleanup);
      }
    }
  }

  /** When a round ends, nothing stamped for it is still queued. */
  lemma NothingQueuedAtEnd(w: World, wl: WLabel, ev: Ev)
    requires LiveInv(w) && Enabled(w, wl) && EndsRound(wl) && IsCallback(ev)
    ensures !QueuedNow(w, ev)
  {
    EndRoundDrained(w.loop);
    assert LiveEvent(w.loop, w.k.port.on.base, w.k.port.on.fd, w.k.port.on, ev);
    if QueuedNow(w, ev) {
      QueuedInList(w.loop, Id(w.k.port.on.base, ev));
      assert false;
    }
  }

  lemma QueuedInList(s: Loop, e: Fde.EventId)
    requires Sound(s) && IsActiveCallback(s, e)
    ensures e in s.cbHead && (s.phase.InCallbacks? ==> s.genid != s.phase.cur)
  {
  }

  lemma FirstRoundEnds(w: World, wl: WLabel)
    requires WorldInv(w) && InFirstRound(w) && Enabled(w, wl) && EndsRound(wl)
    ensures CleanupDue(Next(w, wl))
  {
    hide Dispatch, DoCmd, Exec, WorldInv, LiveInv;
    assert Next(w, wl).k == w.k;
    if !w.k.f.freed {
      ClosingQueues(w);
      hide WorldInv, LiveInv, Next, Enabled, QueuedNow;
      NothingQueuedAtEnd(w, wl, EvReadCb);
      NothingQueuedAtEnd(w, wl, EvWriteCb);
    }
  }

  lemma SecondRoundEnds(w: World, wl: WLabel)
    requires WorldInv(w) && InSecondRound(w) && Enabled(w, wl) && EndsRound(wl)
    ensures Next(w, wl).k.f.freed
  {
    hide Dispatch, DoCmd, Exec, WorldInv, LiveInv;
    assert Next(w, wl).k == w.k;
    if !w.k.f.freed {
      CleanupCloses(w);
      ClosingQueues(w);
      hide WorldInv, LiveInv, Next, Enabled, QueuedNow;
      NothingQueuedAtEnd(w, wl, EvCleanup);
    }
  }

  lemma StageStep(w: World, wl: WLabel, st: nat)
    requires StageInv(w, st) && st <= 4 && Enabled(w, wl)
    ensures StartsRound(wl) && (st == 0 || st == 2) ==> StageInv(Next(w, wl), st + 1)
    ensures EndsRound(wl) && (st == 1 || st == 3) ==> StageInv(Next(w, wl), st + 1)
    ensures !(StartsRound(wl) && (st == 0 || st == 2)) && !(EndsRound(wl) && (st == 1 || st == 3)) ==>
      StageInv(Next(w, wl), st)
  {
    hide Next, Enabled, WorldInv, LiveInv;
    NextKeepsInv(w, wl);
    hide WorldInv, Next, Enabled, Waiting, InFirstRound, CleanupDue, InSecondRound;
    var starts, ends := StartsRound(wl), EndsRound(wl);
    if st == 0 {
      if starts { FirstRoundStarts(w, wl); } else { WaitingStep(w, wl); }
    } else if st == 1 {
      if ends { FirstRoundEnds(w, wl); } else { FirstRoundStep(w, wl); }
    } else if st == 2 {
      if starts { SecondRoundStarts(w, wl); } else { CleanupDueStep(w, wl); }
    } else if st == 3 {
      if ends { SecondRoundEnds(w, wl); } else { SecondRoundStep(w, wl); }
    } else {
      FreedStays(w, wl);
    }
  }

  lemma {:induction false} StageInvariant(w: World, ls: seq<WLabel>)
    requires StageInv(w, 0) && Valid(w, ls)
    ensures Stage(ls) <= 4 && StageInv(Run(w, ls), Stage(ls))
    decreases |ls|
  {
    hide StageInv, Next, Enabled;
    if ls != [] {
      StageInvariant(w, ls[..|ls| - 1]);
      StageStep(Run(w, ls[..|ls| - 1]), ls[|ls| - 1], Stage(ls[..|ls| - 1]));
    }
  }

  /** The CLOSING calls made plus those still owed. */
  ghost function Owed(k: Core, op: Op): nat {
    ClosingCalls(k.trace, op) + One(if op.ReadOp? then k.f.rActive else k.f.wActive)
  }

  lemma OwedHandler(w: World, wl: WLabel, ev: Ev)
    requires LiveInv(w) && w.k.f.closing && Enabled(w, wl) && Handles(w, wl, ev) && !ev.EvCleanup?
    ensures Owed(Next(w, wl).k, ReadOp) == Owed(w.k, ReadOp)
    ensures Owed(Next(w, wl).k, WriteOp) == Owed(w.k, WriteOp)
    ensures Next(w, wl).k.f.closing
  {
    hide Next, Enabled;
    ReadCbActive(w.k);
    hide LiveInv, Next, Enabled, ClosingCalls, Handles;
    HandlerStep(w, wl, ev);
  }

  lemma OwedCleanup(w: World, wl: WLabel)
    requires LiveInv(w) && w.k.f.closing && Enabled(w, wl) && Handles(w, wl, EvCleanup)
    ensures Owed(Next(w, wl).k, ReadOp) == Owed(w.k, ReadOp)
    ensures Owed(Next(w, wl).k, WriteOp) == Owed(w.k, WriteOp)
    ensures Next(w, wl).k.f.closing
  {
    hide LiveInv, WorldInv, Next, ClosingCalls;
    LiveIsWorld(w);
    NextKeepsInv(w, wl);
    FireSyncs(w, wl.l);
    CleanupQuiet(w);
    CleanupStep(w, wl);
    FreedQuiet(Next(w, wl));
  }

  lemma OwedStep(w: World, wl: WLabel)
    requires WorldInv(w) && w.k.f.closing && Enabled(w, wl)
    ensures Owed(Next(w, wl).k, ReadOp) == Owed(w.k, ReadOp)
    ensures Owed(Next(w, wl).k, WriteOp) == Owed(w.k, WriteOp)
    ensures Next(w, wl).k.f.closing
  {
    hide Next, Enabled, WorldInv, LiveInv;
    if w.k.f.freed {
      FreedStays(w, wl);
    } else if !HandlesAny(w, wl) {
      hide WorldInv, Next, Enabled;
      IdleStep(w, wl);
    } else {
      ClosingQueues(w);
      var ev := EvOf(w.k.port.on.base, wl.l.e);
      hide WorldInv, LiveInv, Next, Enabled, Owed;
      if ev.EvCleanup? { OwedCleanup(w, wl); } else { OwedHandler(w, wl, ev); }
    }
  }

  lemma CleanupQuiet(w: World)
    requires LiveInv(w)
    ensures w.k.port.on.cleanup ==> Quiet(w.k.f)
  {
    hide TraceInv, Sound, Synced;
  }

  lemma FreedQuiet(r: World)
    requires WorldInv(r)
    ensures r.k.f.freed ==> Quiet(r.k.f) && r.k.f.closing
  {
  }

  lemma {:induction false} OwedRun(w: World, ls: seq<WLabel>)
    requires WorldInv(w) && w.k.f.closing && Valid(w, ls)
    ensures Run(w, ls).k.f.closing
    ensures Owed(Run(w, ls).k, ReadOp) == Owed(w.k, ReadOp)
    ensures Owed(Run(w, ls).k, WriteOp) == Owed(w.k, WriteOp)
    decreases |ls|
  {
    hide WorldInv, Next, Enabled, Owed;
    if ls != [] {
      OwedRun(w, ls[..|ls| - 1]);
      WorldInvariant(w, ls[..|ls| - 1]);
      OwedStep(Run(w, ls[..|ls| - 1]), ls[|ls| - 1]);
    }
  }

  lemma {:induction false} SameCloseCb(w: World, ls: seq<WLabel>)
    requires Valid(w, ls)
    ensures Run(w, ls).k.port.on.closeCb == w.k.port.on.closeCb
    decreases |ls|
  {
    hide Next, Enabled;
    if ls != [] {
      SameCloseCb(w, ls[..|ls| - 1]);
      SameBase(Run(w, ls[..|ls| - 1]), ls[|ls| - 1]);
    }
  }

  /** What a freed comm has to show for itself. */
  lemma FreedCloseCalls(w: World)
    requires WorldInv(w) && w.k.f.freed
    ensures CloseCalls(w.k.trace) == One(w.k.port.on.closeCb) && Quiet(w.k.f)
  {
    OnAfterBase(w.k.port.start, w.k.port.acts);
  }

  /**
   * Bounded close: from any moment at which a comm is closing with only stream
   * operations outstanding, by the end of the second full callback round the
   * comm is freed, every outstanding read and write has been told CLOSING once,
   * and the close callback has been made once, whatever else the loop runs.
   */
  lemma BoundedClose(w: World, ls: seq<WLabel>)
    requires WorldInv(w) && w.k.f.closing && StreamOnly(w.k.f) && !w.k.lost && !w.k.f.freed
    requires Valid(w, ls) && Stage(ls) == 4
    ensures Run(w, ls).k.f.freed
    ensures ClosingCalls(Run(w, ls).k.trace, ReadOp) == ClosingCalls(w.k.trace, ReadOp) + One(w.k.f.rActive)
    ensures ClosingCalls(Run(w, ls).k.trace, WriteOp) == ClosingCalls(w.k.trace, WriteOp) + One(w.k.f.wActive)
    ensures CloseCalls(Run(w, ls).k.trace) == One(w.k.port.on.closeCb)
  {
    hide Next, Enabled;
    assert StageInv(w, 0);
    hide Run, Valid, Stage, ClosingCalls, WorldInv, CloseCalls;
    StageInvariant(w, ls);
    OwedRun(w, ls);
    SameCloseCb(w, ls);
    FreedCloseCalls(Run(w, ls));
  }
}
