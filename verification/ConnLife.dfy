/**
 * The life of a connection (lib/libiapp/conn.c) on top of its comm. Its owner
 * may close it at any time, any number of times, and answers the notice of an
 * error by closing it at once, later or never; the owner of src/srv/srv.c closes
 * it at once. The connection's callbacks are what the comm's owner does in them.
 */
module ConnLife {
  import opened Seqs
  import Fde
  import opened FdeLists
  import opened FdeKernel
  import opened Comm
  import opened CommInvariants
  import opened CommTraces
  import opened CommWorld
  import opened CommKernel
  import opened CommForgotten
  import opened CommBoundedClose
  import opened CommLaws

  /** CONN_STATE_RUNNING, CONN_STATE_ERROR and CONN_STATE_CLOSING */
  datatype ConnState = Running | Errored | Ending

  /**
   * `past` lists the states in the order they were entered, `closes` counts the
   * calls of comm_close and `freed` the CONN_STATE_FREEING notices.
   */
  datatype Conn = Conn(state: ConnState, past: seq<ConnState>, hasComm: bool, written: int, closes: nat, freed: nat)

  function Enter(c: Conn, state: ConnState): Conn {
    c.(state := state, past := c.past + [state])
  }

  /** conn_close, with the comm calls it makes */
  function CloseConn(c: Conn): (Conn, Script) {
    if c.state.Ending? then (c, [])
    else (Enter(c, Ending).(hasComm := false, closes := c.closes + 1), [Close])
  }

  /** The owner hears of an error, and closes the connection in the callback or not. */
  function HearsError(c: Conn, now: bool): (Conn, Script) {
    if now then CloseConn(c) else (c, [])
  }

  /** conn_write_cb; `limit` is the write threshold, 0 for none. */
  function OnWritten(c: Conn, s: Status, n: int, limit: nat, buf: seq<Byte>, now: bool): (Conn, Script) {
    if !c.state.Running? then (c, [])
    else if !s.Completed? then HearsError(Enter(c, Errored), now)
    else
      var c1 := c.(written := c.written + n);
      if limit != 0 && c1.written > limit then CloseConn(c1)
      else if n != |buf| then HearsError(Enter(c1, Errored), now)
      else (c1, [Write(buf, 0, |buf|)])
  }

  datatype Told = Silent | Told(status: Status, n: int)

  /** What comm_cb_write_cb tells the owner of the write, if anything. */
  function WriteStatus(k: Core, io: Outcome): Told {
    if k.f.closing then Told(Closing, k.w.offset)
    else if !k.f.wActive || !k.f.wReady then Silent
    else match io
      case Again => Silent
      case Done(n) =>
        var ret := Min(n, k.w.len - k.w.offset);
        if ret > 0 || (ret == 0 && k.w.offset < k.w.len) then Silent
        else if ret == 0 then Told(Eof, k.w.offset)
        else Told(Error, k.w.offset)
      case _ => Told(Error, k.w.offset)
  }

  // ------------------------------------------------------------------
  // Loop, comm and connection together
  // ------------------------------------------------------------------

  /** `ev` is the connection's own cleanup event. */
  datatype System = System(w: World, ev: Fde.EventId, c: Conn, buf: seq<Byte>, limit: nat)

  /** The connection's part in a handler of its comm, before the handler goes on. */
  function Reaction(s: System, x: Ev, io: Outcome, now: bool): (Conn, Script) {
    match x
    case EvWriteCb =>
      var t := WriteStatus(s.w.k, io);
      if t.Silent? then (s.c, []) else OnWritten(s.c, t.status, t.n, s.limit, s.buf, now)
    case EvCleanup => (s.c.(hasComm := false), [])
    case _ => (s.c, [])
  }

  /** A step of the loop, with the owner's answer should it report an error; or the owner calls conn_close. */
  datatype Label = Turn(l: Fde.Label, i: Input, now: bool) | OwnerClose

  /** The loop calls the connection's cleanup callback. */
  predicate Tidies(s: System, l: Fde.Label) {
    l == Fde.FireCb(s.ev)
  }

  /** The owner's pointer is good until the FREEING notice; nobody else touches the connection's event. */
  predicate CanDo(s: System, x: Label) {
    match x
    case Turn(l, i, now) =>
      && CommWorld.Enabled(s.w, Step(l, i))
      && (l.Call? && !l.cmd.Create? ==> l.cmd.e != s.ev)
      && (RunsHandler(s.w, l) ==> i.script == Reaction(s, EvOf(s.w.k.port.on.base, l.e), i.io, now).1)
    case OwnerClose => s.c.freed == 0
  }

  /** fde_add or fde_free of the connection's event. */
  function OnEvent(w: World, c: Fde.Cmd): World {
    World(if Fde.CmdOk(w.loop, c) then Fde.Do(w.loop, c) else w.loop, w.k)
  }

  /** client_ev_close_cb, at the end of the comm's cleanup handler. */
  function CommGone(s: System): System {
    s.(w := OnEvent(s.w, Fde.Add(s.ev)))
  }

  /** client_ev_cleanup_cb */
  function Tidied(s: System): System {
    s.(w := OnEvent(s.w, Fde.Free(s.ev)), c := s.c.(freed := s.c.freed + 1))
  }

  /** The calls conn_close makes, on a comm that is still there. */
  function CloseCalled(w: World, script: Script): World {
    if script == [] || w.k.f.freed then w else CommWorld.Next(w, Api(Close))
  }

  /** One step; a label that is not possible changes nothing. */
  function Do(s: System, x: Label): System {
    if !CanDo(s, x) then s else match x
    case Turn(l, i, now) =>
      var w := CommWorld.Next(s.w, Step(l, i));
      if RunsHandler(s.w, l) then
        var ev := EvOf(s.w.k.port.on.base, l.e);
        var t := s.(w := w, c := Reaction(s, ev, i.io, now).0);
        if ev.EvCleanup? then CommGone(t) else t
      else if Tidies(s, l) then Tidied(s.(w := w))
      else s.(w := w)
    case OwnerClose =>
      s.(c := CloseConn(s.c).0, w := CloseCalled(s.w, CloseConn(s.c).1))
  }

  predicate Possible(s: System, xs: seq<Label>)
    decreases |xs|
  {
    xs == [] || (Possible(s, xs[..|xs| - 1]) && CanDo(After(s, xs[..|xs| - 1]), xs[|xs| - 1]))
  }

  function After(s: System, xs: seq<Label>): System
    decreases |xs|
  {
    if xs == [] then s else Do(After(s, xs[..|xs| - 1]), xs[|xs| - 1])
  }

  const NO_INPUT: Input := Input(Done(0), [], [], true)

  const MAKE_EVENT: WLabel := Step(Fde.Call(Fde.Create(-1, Fde.Callback, false)), NO_INPUT)

  /** The comm and the event of a new connection. */
  function Opened(s: Loop, fd: int): World {
    CommWorld.Next(Created(s, fd, true), MAKE_EVENT)
  }

  /** conn_new on a descriptor nobody watches: a comm, an event, and a first write of the whole buffer. */
  function NewConn(s: Loop, fd: int, buf: seq<Byte>, limit: nat): System {
    var w := Opened(s, fd);
    var k := DoCmd(w.k.(port := NewPort(w.k.port.on)), Write(buf, 0, |buf|));
    System(World(Exec(w.loop, w.k.port.on.base, k.port.acts), k), s.nextId + 10,
           Conn(Running, [Running], true, 0, 0, 0), buf, limit)
  }

  // ------------------------------------------------------------------
  // The invariant of every run
  // ------------------------------------------------------------------

  predicate OnlyWrites(f: Flags) {
    !f.rActive && !f.rRead && !f.aActive && !f.coActive && !f.urActive && !f.uwActive
  }

  ghost predicate CommLife(k: Core, state: ConnState) {
    && k.port.on.closeCb && !k.lost && StreamOnly(k.f)
    && k.f.closing == state.Ending?
    && (!state.Ending? ==> OnlyWrites(k.f) && k.f.wActive == state.Running? && !k.f.freed)
  }

  /** The states are passed in this order. */
  predicate InOrder(past: seq<ConnState>, state: ConnState) {
    match state
    case Running => past == [Running]
    case Errored => past == [Running, Errored]
    case Ending => past == [Running, Ending] || past == [Running, Errored, Ending]
  }

  predicate ConnOk(c: Conn) {
    && InOrder(c.past, c.state) && c.written == 0
    && (c.hasComm <==> !c.state.Ending?) && c.closes == One(c.state.Ending?)
  }

  /** The connection's event waits idle, is queued once the comm is gone, and is gone after the FREEING notice. */
  ghost predicate EventOk(s: Loop, ev: Fde.EventId, commFreed: bool, freed: nat) {
    && ev < s.nextId && freed <= One(commFreed)
    && (freed == 1 ==> ev !in s.events)
    && (freed == 0 ==> ev in s.events && s.events[ev].kind.Callback? && s.events[ev].active == commFreed)
  }

  ghost predicate Life(s: System) {
    && WorldInv(s.w) && CommLife(s.w.k, s.c.state) && ConnOk(s.c)
    && EventOk(s.w.loop, s.ev, s.w.k.f.freed, s.c.freed) && !Owned(s.w.k.port.on.base, s.ev)
  }

  /** The owner of a write is never told that it completed. */
  lemma NeverCompleted(k: Core, io: Outcome)
    ensures WriteStatus(k, io).Told? ==> !WriteStatus(k, io).status.Completed?
  {
  }

  /** The write handler tells the owner exactly what WriteStatus says, in the closing branch too. */
  lemma HandlerTells(k: Core, i: Input)
    ensures !k.f.closing && WriteStatus(k, i.io).Told? ==>
      OnWriteCb(k, i) == Notify(k.(f := k.f.(wActive := false)),
                                Called(WriteOp, WriteStatus(k, i.io).status, WriteStatus(k, i.io).n), i.script)
    ensures WriteStatus(k, i.io).Silent? ==>
      OnWriteCb(k, i).f == k.f && OnWriteCb(k, i).port == k.port && OnWriteCb(k, i).lost == k.lost
    ensures k.f.closing ==>
      OnWriteCb(k, i) == StartCleanup(Emit(k.(f := CalledOff(k.f, WriteOp)),
                                           Called(WriteOp, WriteStatus(k, i.io).status, WriteStatus(k, i.io).n)))
  {
    if k.f.closing {
      ClosingNotify(k.(f := CalledOff(k.f, WriteOp)), Called(WriteOp, Closing, k.w.offset), i.script);
      hide Notify, AddCleanup;
    } else {
      hide Notify, Slice;
    }
  }

  lemma ClosesAtOnce(k: Core)
    requires BaseInv(k, None) && OnlyWrites(k.f) && !k.f.closing
    ensures CommClose(k).f.closing && OnlyWrites(CommClose(k).f)
  {
    var a := k.(f := k.f.(closing := true));
    assert BaseInv(a, None);
    CloseSidesKeep(a, None);
    hide BaseInv, CloseReadSide;
    assert CloseReadSide(a).f.rRead == false by { NothingRead(a); }
    hide Asks, OnAfter, CleanAfter;
  }

  lemma NothingRead(a: Core)
    requires !a.f.rActive && !a.f.rRead
    ensures CloseReadSide(a) == a
  {
  }

  /** While the connection runs, only its write events can fire. */
  lemma RunningFires(k: Core, ev: Ev)
    requires FlagInv(k, None) && OnlyWrites(k.f) && !k.f.closing && Has(k.port.on, ev)
    ensures ev.EvWrite? || ev.EvWriteCb?
  {
  }

  lemma ErroredFires(k: Core, ev: Ev)
    requires FlagInv(k, None) && OnlyWrites(k.f) && !k.f.closing && !k.f.wActive && Has(k.port.on, ev)
    ensures ev.EvWrite?
  {
  }

  lemma WriteKeepsLife(k: Core, i: Input)
    requires FlagInv(k, None) && !k.f.closing && k.port.on.write
    ensures Dispatch(Fired(k, EvWrite), EvWrite, i).f == k.f.(wReady := true)
  {
    hide Asks;
  }

  /** The write handler while the connection runs: it goes on, the write has ended, or the comm is closing. */
  lemma WriteCbKeepsLife(k: Core, c: Conn, limit: nat, buf: seq<Byte>, i: Input, now: bool)
    requires FlagInv(k, None) && OnlyWrites(k.f) && !k.f.closing && k.f.wActive && k.port.on.writeCb
    requires c.state.Running?
    requires var t := WriteStatus(k, i.io); i.script == if t.Silent? then [] else OnWritten(c, t.status, t.n, limit, buf, now).1
    ensures WriteStatus(k, i.io).Silent? ==> Dispatch(Fired(k, EvWriteCb), EvWriteCb, i).f == k.f
    ensures WriteStatus(k, i.io).Told? && !now ==>
      Dispatch(Fired(k, EvWriteCb), EvWriteCb, i).f == k.f.(wActive := false)
    ensures WriteStatus(k, i.io).Told? && now ==>
      Dispatch(Fired(k, EvWriteCb), EvWriteCb, i).f.closing && OnlyWrites(Dispatch(Fired(k, EvWriteCb), EvWriteCb, i).f)
  {
    hide Has, KernelInv;
    var f := Fired(k, EvWriteCb);
    HandlerTells(f, i);
    NeverCompleted(k, i.io);
    if WriteStatus(k, i.io).Told? {
      var a := Emit(f.(f := f.f.(wActive := false)),
                    Called(WriteOp, WriteStatus(k, i.io).status, WriteStatus(k, i.io).n));
      if now {
        assert BaseInv(a, None) by { hide OnAfter, CleanAfter; }
        assert i.script == [Close];
        CloseScript(a);
        hide BaseInv, FlagInv, OnWriteCb, RunScript, CommClose;
        ClosesAtOnce(a);
      } else {
        assert i.script == [];
        hide BaseInv, FlagInv, OnWriteCb;
      }
    }
  }

  lemma CloseScript(k: Core)
    ensures RunScript(k, [Close]) == CommClose(k)
  {
    hide CommClose;
    assert [Close][1..] == [];
  }

  lemma HandlerAlive(w: World, l: Fde.Label, i: Input)
    requires LiveInv(w) && CommWorld.Enabled(w, Step(l, i)) && RunsHandler(w, l)
    requires !EvOf(w.k.port.on.base, l.e).EvCleanup?
    ensures !CommWorld.Next(w, Step(l, i)).k.f.freed
    ensures CommWorld.Next(w, Step(l, i)).k ==
      Dispatch(Fired(w.k, EvOf(w.k.port.on.base, l.e)), EvOf(w.k.port.on.base, l.e), i)
    ensures Has(w.k.port.on, EvOf(w.k.port.on.base, l.e)) && FlagInv(w.k, None)
  {
    hide DoCmd, FlagInv, TraceInv, Sound, Synced, OwnsFd, Exec, Dispatch, Has, Comm.Turn, Fde.Next;
    var ev := EvOf(w.k.port.on.base, l.e);
    FireSyncs(w, l);
    DispatchKeepsFlags(w.k, ev, i);
    NotFreed(Dispatch(Fired(w.k, ev), ev, i));
  }

  lemma CreatedFlags(s: Loop, fd: int)
    ensures Created(s, fd, true).k.f == NewComm(0, 0, true).f
  {
    hide CreateUpTo;
  }

  lemma FirstWrite(k: Core, buf: seq<Byte>)
    requires k.f == NewComm(0, 0, true).f
    ensures DoCmd(k, Write(buf, 0, |buf|)).f == k.f.(wActive := true, wWrite := true)
    ensures Allowed(k.f, Write(buf, 0, |buf|))
  {
    hide Asks;
  }


  // -- the connection's event

  lemma ActLeaves(s: Loop, base: nat, act: Act, ev: Fde.EventId)
    requires !Owned(base, ev)
    ensures ExecAct(s, base, act).nextId == s.nextId
    ensures ev in ExecAct(s, base, act).events <==> ev in s.events
    ensures ev in s.events ==> ExecAct(s, base, act).events[ev] == s.events[ev]
  {
    var e := Id(base, act.ev);
    IdsDiffer(base, act.ev, act.ev);
    if e in s.events {
      if act.Arm? {
        if !s.events[e].kind.Timer? { AddChanges(s, e); }
        hide Fde.Push;
      } else {
        DeleteChanges(s, e);
        hide Fde.DeleteEvent;
      }
    }
  }

  lemma {:induction false} ExecLeaves(s: Loop, base: nat, acts: seq<Act>, ev: Fde.EventId)
    requires !Owned(base, ev)
    ensures Exec(s, base, acts).nextId == s.nextId
    ensures ev in Exec(s, base, acts).events <==> ev in s.events
    ensures ev in s.events ==> Exec(s, base, acts).events[ev] == s.events[ev]
    decreases |acts|
  {
    hide ExecAct, Owned;
    if acts != [] {
      ExecLeaves(s, base, acts[..|acts| - 1], ev);
      ActLeaves(Exec(s, base, acts[..|acts| - 1]), base, acts[|acts| - 1], ev);
    }
  }

  /** The step is not about this event. */
  predicate Bypasses(wl: WLabel, ev: Fde.EventId) {
    wl.Step? ==> wl.l != Fde.FireCb(ev) && (wl.l.Call? && !wl.l.cmd.Create? ==> wl.l.cmd.e != ev)
  }

  lemma LoopLeaves(s: Loop, l: Fde.Label, ev: Fde.EventId)
    requires Sound(s) && Fde.Enabled(s, l) && ev < s.nextId && (ev in s.events ==> s.events[ev].kind.Callback?)
    requires l != Fde.FireCb(ev) && (l.Call? && !l.cmd.Create? ==> l.cmd.e != ev)
    ensures Fde.Next(s, l).nextId >= s.nextId
    ensures ev in Fde.Next(s, l).events <==> ev in s.events
    ensures ev in s.events ==> Fde.Next(s, l).events[ev] == s.events[ev]
  {
    if l.Call? {
      SoundIdsFresh(s);
      CallChanges(s, l.cmd);
      if l.cmd.Create? { assert Fde.Next(s, l).events.Keys == s.events.Keys + {s.nextId}; }
      hide Sound, Fde.Enabled, Fde.Do;
    } else {
      StepChanges(s, l);
      if l.Deliver? && l.e in s.events { DeliveredIsIo(s, l.e); }
      if l.FireTimer? { assert l.e in s.tHead && IsActiveTimer(s, l.e); }
      hide Sound, Fde.Next;
    }
  }

  /** A step of loop and comm that is not about the connection's event leaves it alone. */
  lemma StepLeaves(w: World, wl: WLabel, ev: Fde.EventId, commFreed: bool, freed: nat)
    requires WorldInv(w) && CommWorld.Enabled(w, wl) && !Owned(w.k.port.on.base, ev) && Bypasses(wl, ev)
    requires EventOk(w.loop, ev, commFreed, freed)
    ensures EventOk(CommWorld.Next(w, wl).loop, ev, commFreed, freed)
  {
    hide Dispatch, DoCmd, Exec, WorldInv, LiveInv;
    WorldSound(w);
    var base := w.k.port.on.base;
    hide WorldInv, Sound, Exec, DoCmd, Dispatch, Fde.Next;
    match wl
    case Api(cmd) =>
      ExecLeaves(w.loop, base, DoCmd(w.k.(port := NewPort(w.k.port.on)), cmd).port.acts, ev);
    case Step(l, i) =>
      LoopLeaves(w.loop, l, ev);
      if RunsHandler(w, l) {
        var x := EvOf(base, l.e);
        ExecLeaves(Fde.Next(w.loop, l), base, Dispatch(Fired(w.k, x), x, i).port.acts, ev);
      }
  }

  /** fde_add or fde_free of the connection's event. */
  lemma OnEventKeepsInv(w: World, c: Fde.Cmd)
    requires WorldInv(w) && (c.Add? || c.Free?) && !Owned(w.k.port.on.base, c.e) && c.e in w.loop.events
    ensures WorldInv(OnEvent(w, c)) && OnEvent(w, c).k == w.k
    ensures CommWorld.Enabled(w, Step(Fde.Call(c), NO_INPUT))
    ensures OnEvent(w, c) == CommWorld.Next(w, Step(Fde.Call(c), NO_INPUT))
  {
    hide Dispatch, DoCmd, Exec, WorldInv, Fde.Do;
    NextKeepsInv(w, Step(Fde.Call(c), NO_INPUT));
  }

  lemma CommGoneKeeps(s: System)
    requires WorldInv(s.w) && EventOk(s.w.loop, s.ev, false, s.c.freed) && !Owned(s.w.k.port.on.base, s.ev)
    ensures WorldInv(CommGone(s).w) && CommGone(s).w.k == s.w.k
    ensures EventOk(CommGone(s).w.loop, s.ev, true, s.c.freed)
  {
    hide Next, Enabled, WorldInv, LiveInv;
    AddChanges(s.w.loop, s.ev);
    hide WorldInv, Fde.AddEvent;
    OnEventKeepsInv(s.w, Fde.Add(s.ev));
  }

  lemma TidiedKeeps(s: System)
    requires WorldInv(s.w) && !Owned(s.w.k.port.on.base, s.ev)
    requires s.ev in s.w.loop.events && s.ev < s.w.loop.nextId && s.c.freed == 0
    ensures WorldInv(Tidied(s).w) && Tidied(s).w.k == s.w.k
    ensures EventOk(Tidied(s).w.loop, s.ev, true, Tidied(s).c.freed)
  {
    hide Next, Enabled, WorldInv, LiveInv;
    DeleteChanges(s.w.loop, s.ev);
    hide WorldInv, Fde.DeleteEvent;
    OnEventKeepsInv(s.w, Fde.Free(s.ev));
  }

  // -- one step

  /** What a handler of the comm leaves: comm and connection agree, and only the cleanup frees. */
  ghost predicate TurnOk(s: System, l: Fde.Label, i: Input, now: bool)
    requires CommWorld.Enabled(s.w, Step(l, i)) && RunsHandler(s.w, l)
  {
    var x, k := EvOf(s.w.k.port.on.base, l.e), CommWorld.Next(s.w, Step(l, i)).k;
    var c := Reaction(s, x, i.io, now).0;
    CommLife(k, c.state) && ConnOk(c) && c.freed == s.c.freed && k.f.freed == x.EvCleanup?
  }

  lemma HandlerLive(s: System, l: Fde.Label)
    requires Life(s) && RunsHandler(s.w, l)
    ensures LiveInv(s.w) && !s.w.k.f.freed
  {
    hide Next, Enabled;
  }

  lemma RunningTurn(s: System, l: Fde.Label, i: Input, now: bool)
    requires Life(s) && CanDo(s, Turn(l, i, now)) && RunsHandler(s.w, l) && s.c.state.Running?
    ensures TurnOk(s, l, i, now)
  {
    hide DoCmd, Exec, WorldInv, LiveInv, FlagInv, Dispatch, Has, Comm.Turn, Fde.Next, CommWorld.Next, Fde.Enabled;
    var x, k := EvOf(s.w.k.port.on.base, l.e), s.w.k;
    HandlerLive(s, l);
    LiveFires(s.w, l);
    SameBase(s.w, Step(l, i));
    StepLost(s.w, Step(l, i));
    RunningFires(k, x);
    HandlerAlive(s.w, l, i);
    if x.EvWrite? {
      WriteOnHas(k);
      WriteKeepsLife(k, i);
    } else {
      WriteOnHas(k);
      WriteCbKeepsLife(k, s.c, s.limit, s.buf, i, now);
      NeverCompleted(k, i.io);
    }
  }

  lemma WriteOnHas(k: Core)
    ensures Has(k.port.on, EvWrite) == k.port.on.write && Has(k.port.on, EvWriteCb) == k.port.on.writeCb
  {
  }

  lemma LiveFires(w: World, l: Fde.Label)
    requires LiveInv(w) && Fde.Enabled(w.loop, l) && RunsHandler(w, l)
    ensures FlagInv(w.k, None) && Has(w.k.port.on, EvOf(w.k.port.on.base, l.e))
  {
    FireSyncs(w, l);
    hide Has, FlagInv;
  }

  lemma ErroredTurn(s: System, l: Fde.Label, i: Input, now: bool)
    requires Life(s) && CanDo(s, Turn(l, i, now)) && RunsHandler(s.w, l) && s.c.state.Errored?
    ensures TurnOk(s, l, i, now)
  {
    hide DoCmd, Exec, WorldInv, LiveInv, FlagInv, Dispatch, Has, Comm.Turn, Fde.Next, CommWorld.Next, Fde.Enabled;
    var x, k := EvOf(s.w.k.port.on.base, l.e), s.w.k;
    HandlerLive(s, l);
    LiveFires(s.w, l);
    SameBase(s.w, Step(l, i));
    StepLost(s.w, Step(l, i));
    ErroredFires(k, x);
    HandlerAlive(s.w, l, i);
    WriteOnHas(k);
    WriteKeepsLife(k, i);
  }

  lemma EndingTurn(s: System, l: Fde.Label, i: Input, now: bool)
    requires Life(s) && CanDo(s, Turn(l, i, now)) && RunsHandler(s.w, l) && s.c.state.Ending?
    ensures TurnOk(s, l, i, now)
  {
    hide WorldInv, LiveInv, Dispatch, Has, CommWorld.Next, WriteStatus;
    var x := EvOf(s.w.k.port.on.base, l.e);
    HandlerLive(s, l);
    SameBase(s.w, Step(l, i));
    StepLost(s.w, Step(l, i));
    if x.EvCleanup? {
      NextKeepsInv(s.w, Step(l, i));
      CleanupFrees(s.w, l, i);
      FreedQuiet(CommWorld.Next(s.w, Step(l, i)));
    } else {
      HandlerAlive(s.w, l, i);
      HandlerStep(s.w, Step(l, i), x);
      NoConnectOn(s.w);
      ConnectOff(s.w.k.port.on, x);
    }
  }

  lemma HandlerTurn(s: System, l: Fde.Label, i: Input, now: bool)
    requires Life(s) && CanDo(s, Turn(l, i, now)) && RunsHandler(s.w, l)
    ensures Life(Do(s, Turn(l, i, now)))
  {
    hide WorldInv, CommLife, ConnOk, EventOk, CommWorld.Next, Reaction;
    match s.c.state {
      case Running => RunningTurn(s, l, i, now);
      case Errored => ErroredTurn(s, l, i, now);
      case Ending => EndingTurn(s, l, i, now);
    }
    var x, w := EvOf(s.w.k.port.on.base, l.e), CommWorld.Next(s.w, Step(l, i));
    SameBase(s.w, Step(l, i));
    NextKeepsInv(s.w, Step(l, i));
    StepLeaves(s.w, Step(l, i), s.ev, false, s.c.freed);
    if x.EvCleanup? { CommGoneKeeps(s.(w := w, c := Reaction(s, x, i.io, now).0)); }
  }

  /** The connection's cleanup callback is called only once the comm is gone, and then once. */
  lemma TidyTurn(s: System, l: Fde.Label, i: Input, now: bool)
    requires Life(s) && CanDo(s, Turn(l, i, now)) && !RunsHandler(s.w, l) && Tidies(s, l)
    ensures s.w.k.f.freed && s.c.freed == 0
    ensures Life(Do(s, Turn(l, i, now)))
  {
    hide Dispatch, DoCmd, Exec;
    WorldSound(s.w);
    FiredIsCallback(s.w.loop, l.e);
    DeleteChanges(s.w.loop, s.ev);
    hide WorldInv, CommLife, ConnOk, Sound, Fde.DeleteEvent;
    NextKeepsInv(s.w, Step(l, i));
    TidiedKeeps(s.(w := CommWorld.Next(s.w, Step(l, i))));
    FreedConn(s.c, s.c.freed + 1);
  }

  lemma FreedConn(c: Conn, n: nat)
    requires ConnOk(c)
    ensures ConnOk(c.(freed := n))
  {
  }

  lemma OtherTurn(s: System, l: Fde.Label, i: Input, now: bool)
    requires Life(s) && CanDo(s, Turn(l, i, now)) && !RunsHandler(s.w, l) && !Tidies(s, l)
    ensures Life(Do(s, Turn(l, i, now)))
  {
    hide Dispatch, DoCmd, Exec, WorldInv, CommLife, ConnOk, EventOk, Fde.Next;
    NextKeepsInv(s.w, Step(l, i));
    StepLeaves(s.w, Step(l, i), s.ev, s.w.k.f.freed, s.c.freed);
  }

  lemma CloseAllowed(w: World)
    requires !w.k.f.freed
    ensures CommWorld.Enabled(w, Api(Close))
    ensures CommWorld.Next(w, Api(Close)).k == CommClose(w.k.(port := NewPort(w.k.port.on)))
  {
    hide CommClose, Exec;
  }

  lemma CloseLive(w: World)
    requires LiveInv(w) && OnlyWrites(w.k.f) && !w.k.f.closing
    ensures CommWorld.Enabled(w, Api(Close)) && LiveInv(CommWorld.Next(w, Api(Close)))
    ensures CommWorld.Next(w, Api(Close)).k.f.closing && !CommWorld.Next(w, Api(Close)).k.f.freed
    ensures OnlyWrites(CommWorld.Next(w, Api(Close)).k.f)
  {
    hide Next, Enabled;
    NotFreed(w.k);
    var k := w.k.(port := NewPort(w.k.port.on));
    FreshBase(w.k);
    hide LiveInv, FlagInv, BaseInv, CommClose, CommWorld.Next, CommWorld.Enabled;
    CloseAllowed(w);
    ClosesAtOnce(k);
    ApiKeepsInv(w, Close);
    LiveNotFreed(CommWorld.Next(w, Api(Close)));
  }

  lemma FreshBase(k: Core)
    requires FlagInv(k, None) && TraceInv(k)
    ensures BaseInv(k.(port := NewPort(k.port.on)), None)
  {
    FreshPort(k);
    hide TraceInv;
  }

  lemma LiveNotFreed(w: World)
    requires LiveInv(w)
    ensures !w.k.f.freed
  {
    NotFreed(w.k);
  }

  lemma LifeLive(s: System)
    requires Life(s) && !s.c.state.Ending?
    ensures LiveInv(s.w) && OnlyWrites(s.w.k.f) && !s.w.k.f.closing && !s.w.k.f.freed
  {
    hide Next, Enabled;
  }

  lemma OwnerCloseKeeps(s: System)
    requires Life(s) && CanDo(s, OwnerClose)
    ensures Life(Do(s, OwnerClose))
  {
    hide WorldInv, LiveInv, EventOk, CommWorld.Next, CommWorld.Enabled, OnlyWrites;
    if !s.c.state.Ending? {
      LifeLive(s);
      CloseLive(s.w);
      LiveIsWorld(CommWorld.Next(s.w, Api(Close)));
      SameBase(s.w, Api(Close));
      StepLost(s.w, Api(Close));
      StepLeaves(s.w, Api(Close), s.ev, false, s.c.freed);
      WritesAreStreams(CommWorld.Next(s.w, Api(Close)).k.f);
    }
  }

  /** What conn_close does when the owner calls it: nothing the second time. */
  lemma OwnerCloseIs(s: System)
    requires Life(s) && s.c.freed == 0
    ensures s.c.state.Ending? ==> Do(s, OwnerClose) == s
    ensures !s.c.state.Ending? ==> WorldInv(s.w) && CommWorld.Enabled(s.w, Api(Close))
    ensures !s.c.state.Ending? ==>
      Do(s, OwnerClose) == s.(w := CommWorld.Next(s.w, Api(Close)), c := CloseConn(s.c).0)
  {
    hide WorldInv, LiveInv, EventOk, CommWorld.Next, CommWorld.Enabled, OnlyWrites;
    if !s.c.state.Ending? { CloseAllowed(s.w); }
  }

  lemma WritesAreStreams(f: Flags)
    requires OnlyWrites(f)
    ensures StreamOnly(f)
  {
  }

  lemma StepKeepsLife(s: System, x: Label)
    requires Life(s) && CanDo(s, x)
    ensures Life(Do(s, x))
  {
    hide Life, Do, CanDo;
    match x
    case OwnerClose => OwnerCloseKeeps(s);
    case Turn(l, i, now) =>
      if RunsHandler(s.w, l) {
        HandlerTurn(s, l, i, now);
      } else if Tidies(s, l) {
        TidyTurn(s, l, i, now);
      } else {
        OtherTurn(s, l, i, now);
      }
  }

  lemma {:induction false} RunKeepsLife(s: System, xs: seq<Label>)
    requires Life(s) && Possible(s, xs)
    ensures Life(After(s, xs))
    decreases |xs|
  {
    hide Life, CanDo, Do;
    if xs != [] {
      RunKeepsLife(s, xs[..|xs| - 1]);
      StepKeepsLife(After(s, xs[..|xs| - 1]), xs[|xs| - 1]);
    }
  }

  // ------------------------------------------------------------------
  // The law of every run
  // ------------------------------------------------------------------

  lemma OpenedLife(s: Loop, fd: int)
    requires FreeFd(s, fd)
    ensures WorldInv(Opened(s, fd)) && Opened(s, fd).k == Created(s, fd, true).k
    ensures EventOk(Opened(s, fd).loop, s.nextId + 10, false, 0)
  {
    hide Next, Enabled, WorldInv, Sound, CreateUpTo, Created, IsNew;
    CreatedInv(s, fd, true);
    CreateUpToEffect(s, fd, 10);
    CreatedPlain(s, fd, true);
    MakesEvent(Created(s, fd, true));
    NextKeepsInv(Created(s, fd, true), MAKE_EVENT);
  }

  lemma MakesEvent(w: World)
    ensures CommWorld.Enabled(w, MAKE_EVENT) && CommWorld.Next(w, MAKE_EVENT).k == w.k
    ensures EventOk(CommWorld.Next(w, MAKE_EVENT).loop, w.loop.nextId, false, 0)
  {
    hide Dispatch, DoCmd, Exec;
  }

  lemma NewConnLife(s: Loop, fd: int, buf: seq<Byte>, limit: nat)
    requires FreeFd(s, fd)
    ensures Life(NewConn(s, fd, buf, limit))
  {
    hide WorldInv, Sound, Created, Opened, DoCmd, Exec, Allowed, EventOk;
    var w, cmd := Opened(s, fd), Write(buf, 0, |buf|);
    OpenedLife(s, fd);
    CreatedPlain(s, fd, true);
    CreatedFlags(s, fd);
    FirstWrite(w.k.(port := NewPort(w.k.port.on)), buf);
    NextKeepsInv(w, Api(cmd));
    SameBase(w, Api(cmd));
    StepLeaves(w, Api(cmd), s.nextId + 10, false, 0);
  }

  lemma PastGrowsOnce(s: System, x: Label)
    requires CanDo(s, x)
    ensures s.c.past <= Do(s, x).c.past && s.c.closes <= Do(s, x).c.closes && s.c.freed <= Do(s, x).c.freed
    ensures s.c.state.Ending? ==> Do(s, x).c.state.Ending?
  {
    hide CommWorld.Next, CommWorld.Enabled, WriteStatus, OnEvent;
  }

  /** States are only ever added to the past. */
  lemma {:induction false} PastGrows(s: System, xs: seq<Label>)
    requires Possible(s, xs)
    ensures s.c.past <= After(s, xs).c.past && s.c.closes <= After(s, xs).c.closes && s.c.freed <= After(s, xs).c.freed
    decreases |xs|
  {
    hide Do, CanDo;
    if xs != [] {
      PastGrows(s, xs[..|xs| - 1]);
      PastGrowsOnce(After(s, xs[..|xs| - 1]), xs[|xs| - 1]);
    }
  }

  /** From any state of a life, the connection only moves RUNNING, ERROR, CLOSING or RUNNING, CLOSING. */
  lemma ForwardOnly(s: System, xs: seq<Label>)
    requires Life(s) && Possible(s, xs)
    ensures s.c.past <= After(s, xs).c.past && InOrder(After(s, xs).c.past, After(s, xs).c.state)
    ensures s.c.state.Ending? ==> After(s, xs).c.state.Ending? && After(s, xs).c.closes == s.c.closes
    ensures s.c.state.Errored? ==> !After(s, xs).c.state.Running?
  {
    hide After, Possible, WorldInv, EventOk, CommLife;
    PastGrows(s, xs);
    RunKeepsLife(s, xs);
  }

  /**
   * Every run of a connection from conn_new, whatever its owner does: its states
   * are RUNNING, then ERROR or not, then CLOSING or not, in this order; it has
   * its comm, alive and not closing, exactly until CLOSING; comm_close is called
   * once, on entering CLOSING, and never forgotten; the FREEING notice comes at
   * most once and after the comm's end, and in between the cleanup is queued; and
   * no write is ever counted.
   */
  lemma ConnectionLife(s: Loop, fd: int, buf: seq<Byte>, limit: nat, xs: seq<Label>)
    requires FreeFd(s, fd) && Possible(NewConn(s, fd, buf, limit), xs)
    ensures var r := After(NewConn(s, fd, buf, limit), xs);
      && InOrder(r.c.past, r.c.state)
      && r.c.closes == One(r.c.state.Ending?) == One(r.w.k.f.closing)
      && (r.c.hasComm <==> !r.c.state.Ending?) && (r.c.hasComm ==> !r.w.k.f.freed)
      && (r.c.state.Running? ==> r.w.k.f.wActive)
      && r.c.freed <= One(r.w.k.f.freed)
      && (r.w.k.f.freed && r.c.freed == 0 ==> IsActiveCallback(r.w.loop, r.ev))
      && r.c.written == 0 && !Forgotten(r.w)
  {
    hide NewConn, After, Possible, WorldInv;
    NewConnLife(s, fd, buf, limit);
    RunKeepsLife(NewConn(s, fd, buf, limit), xs);
    ForgottenIsLost(After(NewConn(s, fd, buf, limit), xs).w);
  }

  // ------------------------------------------------------------------
  // The end of a connection
  // ------------------------------------------------------------------

  predicate Starts(x: Label) { x.Turn? && x.l.StartRound? }

  predicate Finishes(x: Label) { x.Turn? && x.l.EndRound? }

  /** How many of: first round begun, ended, second round begun, ended, ... */
  function Later(n: nat, x: Label): nat {
    if (n % 2 == 0 && Starts(x)) || (n % 2 == 1 && Finishes(x)) then n + 1 else n
  }

  function Rounds(xs: seq<Label>): nat {
    if xs == [] then 0 else Later(Rounds(xs[..|xs| - 1]), xs[|xs| - 1])
  }

  function Capped(n: nat): nat { if n < 4 then n else 4 }

  /** The connection's event is queued for the round in progress. */
  ghost predicate TidyQueued(s: System) {
    && s.w.loop.phase.InCallbacks? && IsActiveCallback(s.w.loop, s.ev)
    && s.w.loop.events[s.ev].genid == s.w.loop.phase.cur
  }

  ghost predicate Nearing(s: System, n: nat) {
    && Life(s) && s.c.state.Ending? && StageInv(s.w, Capped(n))
    && (n == 5 ==> s.c.freed == 1 || TidyQueued(s))
    && (n >= 6 ==> s.c.freed == 1)
  }

  /** The connection's own call on its event changes no stage. */
  lemma OnEventStage(w: World, c: Fde.Cmd, st: nat)
    requires StageInv(w, st) && st <= 4 && (c.Add? || c.Free?) && !Owned(w.k.port.on.base, c.e) && c.e in w.loop.events
    ensures StageInv(OnEvent(w, c), st)
  {
    hide WorldInv, LiveInv, StageInv, Waiting, CommWorld.Next, CommWorld.Enabled, OnEvent;
    StageWorld(w, st);
    OnEventKeepsInv(w, c);
    StageStep(w, Step(Fde.Call(c), NO_INPUT), st);
  }

  lemma StageWorld(w: World, st: nat)
    requires StageInv(w, st)
    ensures WorldInv(w)
  {
    hide WorldInv, LiveInv;
  }

  /** The event is there when the connection's callbacks name it. */
  lemma EventThere(s: System, l: Fde.Label, i: Input)
    requires Life(s) && CommWorld.Enabled(s.w, Step(l, i))
    ensures RunsHandler(s.w, l) ==> s.ev in CommWorld.Next(s.w, Step(l, i)).loop.events
    ensures !RunsHandler(s.w, l) && Tidies(s, l) ==> s.ev in CommWorld.Next(s.w, Step(l, i)).loop.events
  {
    hide Dispatch, DoCmd, Exec, WorldInv, LiveInv;
    if RunsHandler(s.w, l) {
      hide WorldInv, CommWorld.Next;
      StepLeaves(s.w, Step(l, i), s.ev, false, s.c.freed);
    } else if Tidies(s, l) {
      DeleteChanges(s.w.loop, s.ev);
      hide WorldInv, Fde.DeleteEvent;
    }
  }

  lemma LaterStage(n: nat, x: Label)
    ensures Capped(n) <= 4
    ensures Capped(Later(n, x)) ==
      if (Capped(n) == 0 || Capped(n) == 2) && Starts(x) then Capped(n) + 1
      else if (Capped(n) == 1 || Capped(n) == 3) && Finishes(x) then Capped(n) + 1
      else Capped(n)
  {
  }

  lemma TurnStage(s: System, l: Fde.Label, i: Input, now: bool, n: nat)
    requires Life(s) && StageInv(s.w, Capped(n)) && CanDo(s, Turn(l, i, now))
    ensures var m, w := Capped(Later(n, Turn(l, i, now))), CommWorld.Next(s.w, Step(l, i));
      && StageInv(w, m) && !Owned(w.k.port.on.base, s.ev)
      && (RunsHandler(s.w, l) || Tidies(s, l) ==> s.ev in w.loop.events)
  {
    hide StageInv, WorldInv, CommWorld.Next, CommWorld.Enabled, EventOk, CommLife, ConnOk, Later, Capped, Reaction;
    LaterStage(n, Turn(l, i, now));
    StageStep(s.w, Step(l, i), Capped(n));
    EventThere(s, l, i);
    SameBase(s.w, Step(l, i));
  }

  lemma WorldStage(s: System, x: Label, n: nat)
    requires Life(s) && s.c.state.Ending? && StageInv(s.w, Capped(n)) && CanDo(s, x)
    ensures StageInv(Do(s, x).w, Capped(Later(n, x)))
  {
    hide StageInv, Life, CommWorld.Next, CommWorld.Enabled, Reaction, OnEvent, Later, Capped;
    if x.Turn? {
      TurnStage(s, x.l, x.i, x.now, n);
      CappedSmall(Later(n, x));
      var w := CommWorld.Next(s.w, Step(x.l, x.i));
      if RunsHandler(s.w, x.l) {
        if EvOf(s.w.k.port.on.base, x.l.e).EvCleanup? { OnEventStage(w, Fde.Add(s.ev), Capped(Later(n, x))); }
      } else if Tidies(s, x.l) {
        OnEventStage(w, Fde.Free(s.ev), Capped(Later(n, x)));
      }
    } else {
      SameLater(n, x);
    }
  }

  lemma CappedSmall(n: nat)
    ensures Capped(n) <= 4
  {
  }

  lemma SameLater(n: nat, x: Label)
    requires !x.Turn?
    ensures Later(n, x) == n
  {
  }

  lemma StageFreed(w: World, n: nat)
    requires StageInv(w, Capped(n)) && n >= 4
    ensures w.k.f.freed
  {
  }

  /** A round that begins with the event queued is to run it. */
  lemma ThirdBegins(s: System, x: Label)
    requires Life(s) && s.w.k.f.freed && CanDo(s, x) && Starts(x)
    ensures Do(s, x).c.freed == 1 || TidyQueued(Do(s, x))
  {
    hide Dispatch, DoCmd, Exec;
    WorldSound(s.w);
    if s.c.freed == 0 {
      StampedAtStart(s.w.loop, s.ev, x.l.now);
      hide WorldInv, Sound, Fde.Next;
    }
  }

  lemma ThirdGoesOn(s: System, x: Label)
    requires Life(s) && s.w.k.f.freed && CanDo(s, x) && !Finishes(x) && (s.c.freed == 1 || TidyQueued(s))
    ensures Do(s, x).c.freed == 1 || TidyQueued(Do(s, x))
  {
    hide Dispatch, DoCmd, Exec, WorldInv, CommLife, ConnOk;
    if s.c.freed == 0 && x.Turn? && !Tidies(s, x.l) {
      RoundPhase(s.w, Step(x.l, x.i));
      WorldSound(s.w);
      LoopLeaves(s.w.loop, x.l, s.ev);
      hide Sound, Fde.Next;
    }
  }

  lemma ThirdEnds(s: System, x: Label)
    requires Life(s) && CanDo(s, x) && Finishes(x) && (s.c.freed == 1 || TidyQueued(s))
    ensures s.c.freed == 1
  {
    WorldSound(s.w);
    if s.c.freed != 1 {
      EndRoundDrained(s.w.loop);
      QueuedInList(s.w.loop, s.ev);
      assert false;
    }
  }

  lemma FreedNotice(s: System, x: Label)
    requires Life(s) && CanDo(s, x) && s.c.freed == 1
    ensures Do(s, x).c.freed == 1
  {
    hide Next, Enabled, WorldInv, LiveInv;
    StepKeepsLife(s, x);
    PastGrowsOnce(s, x);
    hide WorldInv, CommLife, ConnOk, Do;
  }

  lemma NearingStep(s: System, x: Label, n: nat)
    requires Nearing(s, n) && CanDo(s, x)
    ensures Nearing(Do(s, x), Later(n, x))
  {
    hide WorldInv, LiveInv, Life, StageInv, Do, CanDo, TidyQueued;
    StepKeepsLife(s, x);
    PastGrowsOnce(s, x);
    LifeEnding(s);
    WorldStage(s, x, n);
    if n >= 4 { StageFreed(s.w, n); }
    if n == 4 && Starts(x) {
      ThirdBegins(s, x);
    } else if n == 5 {
      if Finishes(x) { ThirdEnds(s, x); FreedNotice(s, x); } else { ThirdGoesOn(s, x); }
    } else if n >= 6 {
      FreedNotice(s, x);
    }
  }

  lemma LifeEnding(s: System)
    requires Life(s)
    ensures s.c.freed <= 1
  {
  }

  lemma {:induction false} NearingRun(s: System, xs: seq<Label>)
    requires Nearing(s, 0) && Possible(s, xs)
    ensures Nearing(After(s, xs), Rounds(xs))
    decreases |xs|
  {
    hide Nearing, Do, CanDo;
    if xs != [] {
      NearingRun(s, xs[..|xs| - 1]);
      NearingStep(After(s, xs[..|xs| - 1]), xs[|xs| - 1], Rounds(xs[..|xs| - 1]));
    }
  }

  /**
   * Bounded end: from any moment at which a connection is closing, by the end of
   * the third full callback round the owner has had the FREEING notice, once,
   * whatever else the loop runs.
   */
  lemma FreedWithinThree(s: System, xs: seq<Label>)
    requires Life(s) && s.c.state.Ending? && Possible(s, xs) && Rounds(xs) >= 6
    ensures After(s, xs).c.freed == 1 && After(s, xs).w.k.f.freed
  {
    hide Next, Enabled, WorldInv, LiveInv;
    assert Nearing(s, 0) by { hide WorldInv; }
    hide After, Possible, Life, StageInv;
    NearingRun(s, xs);
    StageFreed(After(s, xs).w, Rounds(xs));
  }
}
