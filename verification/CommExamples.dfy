/** Two runs of loop and comm, from an empty loop, whose close never ends. */
module CommExamples {
  import opened Timevals
  import Fde
  import opened FdeLists
  import opened FdeKernel
  import opened Comm
  import opened CommWorld
  import opened CommKernel
  import opened CommForgotten
  import opened CommBoundedClose
  import opened CommLaws
  import opened CommEnds

  lemma RunSnoc(w: World, ls: seq<WLabel>, wl: WLabel)
    requires Valid(w, ls) && Enabled(Run(w, ls), wl)
    ensures Valid(w, ls + [wl]) && Run(w, ls + [wl]) == Next(Run(w, ls), wl)
  {
    hide Enabled, Next;
    assert (ls + [wl])[..|ls|] == ls;
  }

  lemma CreatedCore(s: Loop, fd: int, closeCb: bool)
    ensures Created(s, fd, closeCb).k == NewComm(fd, s.nextId, closeCb)
  {
    hide CreateUpTo;
  }

  // ------------------------------------------------------------------
  // A datagram writer without work
  // ------------------------------------------------------------------

  lemma SetUp(k: Core, max: int)
    requires k.f == NewComm(0, 0, true).f
    ensures Allowed(k.f, UdpWriteSetup(max)) && DoCmd(k, UdpWriteSetup(max)).f == k.f.(uwActive := true)
  {
  }

  lemma CloseFlags(k: Core)
    requires !k.f.rActive && !k.f.rRead && !k.f.wActive && !k.f.wWrite && !k.f.closing
    requires k.f.uwActive || k.f.coActive
    ensures DoCmd(k, Close) == k.(f := k.f.(closing := true))
  {
  }

  lemma NewFlags(fd: int, base: nat, closeCb: bool)
    ensures NewComm(fd, base, closeCb).f == NewComm(0, 0, true).f
  {
  }

  /** A datagram writer is set up and the comm closed: no continuation frees it. */
  lemma IdleWriterExample(s: Loop, fd: int, closeCb: bool, max: int, more: seq<WLabel>)
    requires FreeFd(s, fd)
    ensures var ls := [Api(UdpWriteSetup(max))] + [Api(Close)];
      && Valid(Created(s, fd, closeCb), ls) && IdleWriter(Run(Created(s, fd, closeCb), ls))
      && (Valid(Run(Created(s, fd, closeCb), ls), more) ==>
            !Run(Run(Created(s, fd, closeCb), ls), more).k.f.freed)
  {
    hide Dispatch, Created, DoCmd, Exec, WorldInv, Sound, Allowed;
    var w := Created(s, fd, closeCb);
    CreatedCore(s, fd, closeCb);
    NewFlags(fd, s.nextId, closeCb);
    var k := w.k.(port := NewPort(w.k.port.on));
    SetUp(k, max);
    assert Valid(w, []) && Run(w, []) == w;
    RunSnoc(w, [], Api(UdpWriteSetup(max)));
    assert [] + [Api(UdpWriteSetup(max))] == [Api(UdpWriteSetup(max))];
    var a := Next(w, Api(UdpWriteSetup(max)));
    CloseAllowed(a.k.f);
    hide Run, Valid;
    RunSnoc(w, [Api(UdpWriteSetup(max))], Api(Close));
    CloseFlags(a.k.(port := NewPort(a.k.port.on)));
    CreatedInv(s, fd, closeCb);
    var ls := [Api(UdpWriteSetup(max))] + [Api(Close)];
    WorldInvariant(w, ls);
    if Valid(Run(w, ls), more) { IdleWriterForever(Run(w, ls), more); }
  }

  lemma CloseAllowed(f: Flags)
    ensures Allowed(f, Close)
  {
  }

  // ------------------------------------------------------------------
  // A connect that ends last
  // ------------------------------------------------------------------

  const STARTED: Input := Input(InProgress, [], [], true)

  lemma {:induction false} CreatesListNothing(s: Loop, fd: int, n: nat)
    requires n <= 10
    ensures CreateUpTo(s, fd, n).cbHead == s.cbHead && CreateUpTo(s, fd, n).tHead == s.tHead
    ensures CreateUpTo(s, fd, n).phase == s.phase
  {
    if n > 0 { CreatesListNothing(s, fd, n - 1); }
  }

  lemma OneAct(s: Loop, base: nat, act: Act)
    ensures Exec(s, base, [act]) == ExecAct(s, base, act)
  {
    assert [act][..0] == [];
  }

  /** comm_connect on a new comm. */
  lemma ConnectCore(k: Core)
    requires k.f == NewComm(0, 0, true).f && k.port.acts == []
    ensures Allowed(k.f, Connect(true)) && DoCmd(k, Connect(true)).f == k.f.(coActive := true)
    ensures DoCmd(k, Connect(true)).port.acts == [Arm(EvConnectStart)]
    ensures DoCmd(k, Connect(true)).port.on == k.port.on.(connectStart := true)
  {
    hide Asks;
  }

  lemma Connecting(w: World)
    requires LiveInv(w) && w.k.f == NewComm(0, 0, true).f
    requires w.loop.cbHead == [] && w.loop.tHead == [] && w.loop.phase.Idle?
    ensures Enabled(w, Api(Connect(true)))
    ensures var r := Next(w, Api(Connect(true)));
      && r.k.f == w.k.f.(coActive := true) && r.k.port.on == w.k.port.on.(connectStart := true)
      && r.loop.cbHead == [Id(w.k.port.on.base, EvConnectStart)] && r.loop.tHead == [] && r.loop.phase.Idle?
  {
    hide Dispatch, DoCmd, Exec;
    var k := w.k.(port := NewPort(w.k.port.on));
    ConnectCore(k);
    OneAct(w.loop, w.k.port.on.base, Arm(EvConnectStart));
    assert LiveEvent(w.loop, w.k.port.on.base, w.k.port.on.fd, w.k.port.on, EvConnectStart);
    NothingOn(w);
    hide DoCmd, Exec, Allowed, LiveInv;
  }

  lemma NothingOn(w: World)
    requires LiveInv(w) && w.k.f == NewComm(0, 0, true).f
    ensures !Has(w.k.port.on, EvConnectStart)
  {
  }

  /** comm_cb_connect_start, with the connect in progress. */
  lemma StartCore(k: Core)
    requires k.f.coActive && !k.f.closing && k.port.on.connectStart
    ensures var r := Dispatch(Fired(k, EvConnectStart), EvConnectStart, STARTED);
      r.f == k.f && r.port.acts == [Arm(EvConnect)] && r.port.on.connect
  {
    hide Asks;
  }

  /** The loop while the connect starts: the callback is taken off, the connect event added. */
  lemma StartLoop(s: Loop, e: Fde.EventId, c: Fde.EventId)
    requires s.cbHead == [e] && s.tHead == [] && e in s.events && s.events[e].kind.Callback? && s.events[e].active
    requires c in s.events && c != e && s.events[c].kind.Io?
    ensures var t := Fde.DeleteEvent(s, e);
      && c in t.events
      && Fde.AddEvent(t, c).cbHead == [] && Fde.AddEvent(t, c).tHead == [] && Fde.AddEvent(t, c).phase == s.phase
  {
    hide Fde.Push;
  }

  lemma Starting(w: World)
    requires LiveInv(w) && w.k.f == NewComm(0, 0, true).f.(coActive := true) && w.k.port.on.connectStart
    requires w.loop.cbHead == [Id(w.k.port.on.base, EvConnectStart)] && w.loop.tHead == []
    requires w.loop.phase.InCallbacks? && Fde.RoundGoesOn(w.loop, w.loop.phase.cur)
    ensures var wl := Step(Fde.FireCb(w.loop.cbHead[0]), STARTED);
      && Enabled(w, wl)
      && var r := Next(w, wl);
         && r.k.f == w.k.f && r.k.port.on.connect
         && r.loop.cbHead == [] && r.loop.tHead == [] && r.loop.phase == w.loop.phase
  {
    hide Dispatch, DoCmd, Exec;
    var base, on := w.k.port.on.base, w.k.port.on;
    EvOfId(base, EvConnectStart);
    IdsDiffer(base, EvConnectStart, EvConnect);
    StartCore(w.k);
    assert LiveEvent(w.loop, base, on.fd, on, EvConnectStart) && LiveEvent(w.loop, base, on.fd, on, EvConnect);
    StartLoop(w.loop, Id(base, EvConnectStart), Id(base, EvConnect));
    OneAct(Fde.DeleteEvent(w.loop, Id(base, EvConnectStart)), base, Arm(EvConnect));
    hide Dispatch, Exec, LiveInv, Has, Fde.DeleteEvent, Fde.AddEvent;
  }

  lemma Closing(w: World)
    requires w.k.f == NewComm(0, 0, true).f.(coActive := true)
    ensures Enabled(w, Api(Close))
    ensures Next(w, Api(Close)).k.f == w.k.f.(closing := true)
    ensures Next(w, Api(Close)).k.port.on == w.k.port.on && Next(w, Api(Close)).loop == w.loop
  {
    hide Dispatch, DoCmd, Exec;
    CloseFlags(w.k.(port := NewPort(w.k.port.on)));
    CloseAllowed(w.k.f);
    ExecNothing(w.loop, w.k.port.on.base);
    hide DoCmd, Exec, Allowed;
  }

  /** With the close called and the connect the only operation left, the schedule delivers it and the close is forgotten. */
  lemma EndsForgotten(w: World)
    requires KernelWorld(w) && w.k.f == NewComm(0, 0, true).f.(coActive := true, closing := true)
    requires w.k.port.on.connect && w.loop.cbHead == [] && w.loop.tHead == [] && w.loop.phase.InCallbacks?
    ensures Enabled(w, Go(w)) && KernelWorld(Next(w, Go(w)))
    ensures var a := Next(w, Go(w));
      && Enabled(a, Go(a)) && KernelWorld(Next(a, Go(a)))
      && var b := Next(a, Go(a)); Enabled(b, Go(b)) && ConnectEndsLast(b, Go(b)) && Forgotten(Next(b, Go(b)))
  {
    hide Next, Enabled, LiveInv, WorldInv, KernelInv, BatchOurs;
    ToTimers(w);
    var a := Next(w, Go(w));
    hide Next, Enabled, Pick;
    ToIo(a);
    var b := Next(a, Go(a));
    ConnectDelivered(b);
  }

  lemma ToTimers(w: World)
    requires KernelWorld(w) && !w.k.f.freed && w.k.f.closing && w.loop.cbHead == [] && w.loop.phase.InCallbacks?
    ensures Enabled(w, Go(w)) && KernelWorld(Next(w, Go(w)))
    ensures Next(w, Go(w)).k == w.k && Next(w, Go(w)).loop.phase.InTimers? && Next(w, Go(w)).loop.tHead == w.loop.tHead
  {
    hide Dispatch, DoCmd, Exec, KernelWorld;
    GoEnabled(w);
    NextKeepsKernelWorld(w, Go(w));
  }

  lemma ToIo(w: World)
    requires KernelWorld(w) && !w.k.f.freed && w.k.f.closing && w.loop.tHead == [] && w.loop.phase.InTimers?
    requires w.k.port.on.connect
    ensures Enabled(w, Go(w)) && KernelWorld(Next(w, Go(w))) && Next(w, Go(w)).k == w.k
    ensures Next(w, Go(w)).loop.phase == Fde.InIo([Id(w.k.port.on.base, EvConnect)])
  {
    hide Dispatch, DoCmd, Exec, KernelWorld;
    GoEnabled(w);
    NextKeepsKernelWorld(w, Go(w));
  }

  lemma ConnectDelivered(w: World)
    requires KernelWorld(w) && w.k.f == NewComm(0, 0, true).f.(coActive := true, closing := true)
    requires w.k.port.on.connect && w.loop.phase == Fde.InIo([Id(w.k.port.on.base, EvConnect)])
    ensures Enabled(w, Go(w)) && ConnectEndsLast(w, Go(w)) && Forgotten(Next(w, Go(w)))
  {
    hide Next, Enabled;
    ClosingQueues(w);
    GoEnabled(w);
    EvOfId(w.k.port.on.base, EvConnect);
    assert LiveEvent(w.loop, w.k.port.on.base, w.k.port.on.fd, w.k.port.on, EvConnect);
    hide LiveInv, WorldInv, KernelInv, BatchOurs, Next;
    assert ConnectEndsLast(w, Go(w));
    StepLost(w, Go(w));
    NextKeepsInv(w, Go(w));
    ForgottenIsLost(Next(w, Go(w)));
  }

  /** The first round of callbacks, with the connect about to start. */
  lemma RoundBegins(w: World)
    requires KernelWorld(w) && !w.k.f.freed && w.loop.phase.Idle? && w.k.port.on.connectStart
    requires w.loop.cbHead == [Id(w.k.port.on.base, EvConnectStart)]
    ensures var wl := Step(Fde.StartRound(Timeval(0, 0)), QUIET);
      && Enabled(w, wl) && Polite(w, wl) && KernelWorld(Next(w, wl))
      && var r := Next(w, wl);
         && r.k == w.k && r.loop.cbHead == w.loop.cbHead && r.loop.tHead == w.loop.tHead
         && r.loop.phase.InCallbacks? && Fde.RoundGoesOn(r.loop, r.loop.phase.cur)
  {
    hide Dispatch, DoCmd, Exec, WorldInv, LiveInv;
    var wl := Step(Fde.StartRound(Timeval(0, 0)), QUIET);
    LiveFrom(w);
    hide WorldInv, LiveInv, KernelInv, BatchOurs;
    StartQueues(w, wl, EvConnectStart);
    NextKeepsKernelWorld(w, wl);
  }

  lemma LiveFrom(w: World)
    requires WorldInv(w) && !w.k.f.freed
    ensures LiveInv(w)
  {
  }

  lemma LiveKernel(w: World)
    requires KernelWorld(w) && !w.k.f.freed
    ensures LiveInv(w)
  {
    hide Next, Enabled;
  }

  lemma EmptyLoop(fd: int, closeCb: bool)
    ensures FreeFd(Fde.Init(), fd) && KernelWorld(Created(Fde.Init(), fd, closeCb))
    ensures var w := Created(Fde.Init(), fd, closeCb);
      w.k.f == NewComm(0, 0, true).f && w.loop.cbHead == [] && w.loop.tHead == [] && w.loop.phase.Idle?
  {
    hide WorldInv, LiveInv;
    InitSound();
    assert KernelInv(Fde.Init());
    CreatesListNothing(Fde.Init(), fd, 10);
    hide Sound, KernelInv, KernelWorld;
    CreatedKernel(Fde.Init(), fd, closeCb);
    hide CreateUpTo;
    NewFlags(fd, 0, closeCb);
  }

  lemma {:induction false} RunTwo(w: World, a: seq<WLabel>, b: seq<WLabel>)
    requires Valid(w, a) && Valid(Run(w, a), b)
    ensures Valid(w, a + b) && Run(w, a + b) == Run(Run(w, a), b)
    ensures a == [] ==> a + b == b
    decreases |b|
  {
    hide Enabled, Next;
    if b == [] {
      assert a + b == a;
    } else {
      RunTwo(w, a, b[..|b| - 1]);
      assert (a + b)[..|a + b| - 1] == a + b[..|b| - 1];
    }
  }

  lemma OneStep(w: World, wl: WLabel)
    requires Enabled(w, wl)
    ensures Valid(w, [wl]) && Run(w, [wl]) == Next(w, wl)
  {
    hide Enabled, Next;
    assert [wl][..0] == [] && Valid(w, []) && Run(w, []) == w;
  }

  /** The connect is asked for and the round begins. */
  lemma ConnectedTo(w: World) returns (r: World, ls: seq<WLabel>)
    requires KernelWorld(w) && w.k.f == NewComm(0, 0, true).f
    requires w.loop.cbHead == [] && w.loop.tHead == [] && w.loop.phase.Idle?
    ensures Valid(w, ls) && Run(w, ls) == r && KernelWorld(r)
    ensures r.k.f == NewComm(0, 0, true).f.(coActive := true) && r.k.port.on.connectStart
    ensures r.loop.cbHead == [Id(r.k.port.on.base, EvConnectStart)] && r.loop.tHead == []
    ensures r.loop.phase.InCallbacks? && Fde.RoundGoesOn(r.loop, r.loop.phase.cur)
  {
    hide Next, Enabled;
    LiveKernel(w);
    hide LiveInv, Run, Valid, KernelWorld, Exec, DoCmd;
    var x, y := Api(Connect(true)), Step(Fde.StartRound(Timeval(0, 0)), QUIET);
    Connecting(w);
    NextKeepsKernelWorld(w, x);
    var a := Next(w, x);
    SameBase(w, x);
    RoundBegins(a);
    r := Next(a, y);
    hide Next, Enabled;
    OneStep(w, x);
    OneStep(a, y);
    RunTwo(w, [x], [y]);
    ls := [x] + [y];
  }

  /** The connect starts and the comm is closed. */
  lemma Begun(w: World) returns (r: World, ls: seq<WLabel>)
    requires KernelWorld(w) && w.k.f == NewComm(0, 0, true).f.(coActive := true) && w.k.port.on.connectStart
    requires w.loop.cbHead == [Id(w.k.port.on.base, EvConnectStart)] && w.loop.tHead == []
    requires w.loop.phase.InCallbacks? && Fde.RoundGoesOn(w.loop, w.loop.phase.cur)
    ensures Valid(w, ls) && Run(w, ls) == r && KernelWorld(r)
    ensures r.k.f == NewComm(0, 0, true).f.(coActive := true, closing := true) && r.k.port.on.connect
    ensures r.loop.cbHead == [] && r.loop.tHead == [] && r.loop.phase.InCallbacks?
  {
    hide Next, Enabled, WorldInv, LiveInv;
    LiveKernel(w);
    hide LiveInv, Run, Valid, KernelWorld, Next, Enabled;
    var x, y := Step(Fde.FireCb(w.loop.cbHead[0]), STARTED), Api(Close);
    Starting(w);
    NextKeepsKernelWorld(w, x);
    var a := Next(w, x);
    Closing(a);
    NextKeepsKernelWorld(a, y);
    r := Next(a, y);
    OneStep(w, x);
    OneStep(a, y);
    RunTwo(w, [x], [y]);
    ls := [x] + [y];
  }

  /** The connect ends. */
  lemma Finished(w: World) returns (ls: seq<WLabel>)
    requires KernelWorld(w) && w.k.f == NewComm(0, 0, true).f.(coActive := true, closing := true)
    requires w.k.port.on.connect && w.loop.cbHead == [] && w.loop.tHead == [] && w.loop.phase.InCallbacks?
    ensures Valid(w, ls) && Forgotten(Run(w, ls))
  {
    hide Next, Enabled, WorldInv, LiveInv;
    EndsForgotten(w);
    hide KernelWorld, Next, Enabled, Pick, Forgotten, Run, Valid;
    var a := Next(w, Go(w));
    var b := Next(a, Go(a));
    OneStep(w, Go(w));
    OneStep(a, Go(a));
    OneStep(b, Go(b));
    RunTwo(w, [Go(w)], [Go(a)]);
    RunTwo(w, [Go(w)] + [Go(a)], [Go(b)]);
    ls := [Go(w)] + [Go(a)] + [Go(b)];
  }

  lemma ForgottenFrom(w: World) returns (ls: seq<WLabel>)
    requires KernelWorld(w) && w.k.f == NewComm(0, 0, true).f
    requires w.loop.cbHead == [] && w.loop.tHead == [] && w.loop.phase.Idle?
    ensures Valid(w, ls) && Forgotten(Run(w, ls))
  {
    hide Run, Valid, Next, Enabled, KernelWorld, Forgotten, Fde.RoundGoesOn;
    var a, la := ConnectedTo(w);
    var b, lb := Begun(a);
    var lc := Finished(b);
    RunTwo(w, la, lb);
    RunTwo(w, la + lb, lc);
    ls := la + lb + lc;
  }

  /**
   * A whole run, from an empty loop: a connect is started and goes on in the
   * background, the comm is closed, the connect ends, and the close is forgotten.
   */
  lemma ForgottenRun(fd: int, closeCb: bool) returns (ls: seq<WLabel>)
    ensures Valid(Created(Fde.Init(), fd, closeCb), ls)
    ensures EverEndsLast(Created(Fde.Init(), fd, closeCb), ls) && Forgotten(Run(Created(Fde.Init(), fd, closeCb), ls))
  {
    hide Created, Run, Valid, KernelWorld, Forgotten, EverEndsLast, Sound, Fde.Init, NewComm;
    EmptyLoop(fd, closeCb);
    ls := ForgottenFrom(Created(Fde.Init(), fd, closeCb));
    ForgottenCloseIff(Fde.Init(), fd, closeCb, ls);
  }
}
