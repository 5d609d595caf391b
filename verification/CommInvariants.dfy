/**
 * What every handler and every API call of a comm keeps, whatever the system
 * calls return and whatever the user callbacks do.
 */
module CommInvariants {
  import opened Comm

  /** The parts of the invariant that do not hold in the middle of a handler. */
  datatype Exempt = None | AcceptLink | QueueLink

  /** An event is on only while its operation is active, and the flags agree. */
  ghost predicate Links(f: Flags, queue: bool, on: On, x: Exempt) {
    && (on.readCb ==> f.rActive)
    && (on.writeCb ==> f.wActive)
    && (f.rRead <==> on.read)
    && (f.wWrite <==> on.write)
    && (f.coActive <==> on.connectStart || on.connect)
    && !(on.connectStart && on.connect)
    && (if x.AcceptLink? then f.aActive && !on.accept else f.aActive <==> on.accept)
    && (f.urActive <==> on.udpRead)
    && (f.uwPrimed <==> on.udpWrite)
    && (f.uwPrimed ==> f.uwActive)
    && (queue ==> f.uwActive && (x.QueueLink? || f.uwPrimed))
    && (f.cleanup <==> on.cleanup)
  }

  /** The close protocol. */
  ghost predicate CloseInv(f: Flags, on: On, lost: bool) {
    && (f.cleanup ==> CloseReady(f))
    && (f.closing && f.rActive ==> on.readCb)
    && (f.closing && f.wActive ==> on.writeCb)
    && (lost ==> CloseReady(f) && !f.cleanup)
    && (CloseReady(f) ==> f.cleanup || lost)
  }

  /** At most one event per (fd, filter), and none can be added beside it. */
  ghost predicate NoRivals(f: Flags) {
    && !(f.rRead && f.aActive) && !(f.rRead && f.urActive) && !(f.aActive && f.urActive)
    && !(f.wWrite && f.coActive) && !(f.wWrite && f.uwActive) && !(f.coActive && f.uwActive)
  }

  ghost predicate BaseInv(k: Core, x: Exempt) {
    !k.f.freed && k.port.clean && Links(k.f, k.q.frames != [], k.port.on, x) && NoRivals(k.f)
  }

  ghost predicate FlagInv(k: Core, x: Exempt) {
    BaseInv(k, x) && CloseInv(k.f, k.port.on, k.lost)
  }

  /** The same operations are active, and the closing is as far. */
  predicate SameOps(f: Flags, g: Flags) {
    && f.closing == g.closing && f.cleanup == g.cleanup
    && f.rActive == g.rActive && f.wActive == g.wActive && f.aActive == g.aActive
    && f.coActive == g.coActive && f.urActive == g.urActive && f.uwActive == g.uwActive
  }

  lemma CloseReadSideKeeps(k: Core, x: Exempt)
    requires BaseInv(k, x)
    ensures BaseInv(CloseReadSide(k), x)
    ensures k.f.rActive ==> CloseReadSide(k).port.on.readCb
    ensures SameOps(CloseReadSide(k).f, k.f)
    ensures CloseReadSide(k).port.on.writeCb == k.port.on.writeCb
    ensures CloseReadSide(k).lost == k.lost
  {
    hide Asks, OnAfter, CleanAfter;
    if k.f.rActive {
      assert CloseReadSide(k) == AddReadCb(k);
    } else if k.f.rRead {
      assert CloseReadSide(k) == DeleteRead(k.(f := k.f.(rRead := false)));
    } else {
      assert CloseReadSide(k) == k;
    }
  }

  lemma CloseWriteSideKeeps(k: Core, x: Exempt)
    requires BaseInv(k, x)
    ensures BaseInv(CloseWriteSide(k), x)
    ensures k.f.wActive ==> CloseWriteSide(k).port.on.writeCb
    ensures SameOps(CloseWriteSide(k).f, k.f)
    ensures CloseWriteSide(k).port.on.readCb == k.port.on.readCb
    ensures CloseWriteSide(k).lost == k.lost
  {
    hide Asks, OnAfter, CleanAfter;
    if k.f.wActive {
      assert CloseWriteSide(k) == AddWriteCb(k);
    } else if k.f.wWrite {
      assert CloseWriteSide(k) == DeleteWrite(k.(f := k.f.(wWrite := false)));
    } else {
      assert CloseWriteSide(k) == k;
    }
  }

  /** The check at the end of comm_close and of every closing branch. */
  lemma StartCleanupKeeps(k: Core, x: Exempt)
    requires BaseInv(k, x) && k.f.closing && !k.f.cleanup && !k.lost && !x.AcceptLink?
    requires k.f.rActive ==> k.port.on.readCb
    requires k.f.wActive ==> k.port.on.writeCb
    ensures FlagInv(StartCleanup(k), x)
  {
    hide Asks, OnAfter, CleanAfter;
  }

  /** All three halves of comm_close. */
  lemma CloseSidesKeep(k: Core, x: Exempt)
    requires BaseInv(k, x)
    ensures BaseInv(CloseWriteSide(CloseReadSide(k)), x)
    ensures SameOps(CloseWriteSide(CloseReadSide(k)).f, k.f)
    ensures k.f.rActive ==> CloseWriteSide(CloseReadSide(k)).port.on.readCb
    ensures k.f.wActive ==> CloseWriteSide(CloseReadSide(k)).port.on.writeCb
    ensures CloseWriteSide(CloseReadSide(k)).lost == k.lost
  {
    hide CloseReadSide, CloseWriteSide, BaseInv;
    CloseReadSideKeeps(k, x);
    CloseWriteSideKeeps(CloseReadSide(k), x);
  }

  /** The end of comm_close and of every closing branch. */
  lemma CloseEnds(d: Core, x: Exempt)
    requires BaseInv(d, x) && d.f.closing && !d.f.cleanup && !d.lost && (x.AcceptLink? ==> d.f.aActive)
    requires d.f.rActive ==> d.port.on.readCb
    requires d.f.wActive ==> d.port.on.writeCb
    ensures FlagInv(if CloseReady(d.f) then StartCleanup(d) else d, x)
  {
    if CloseReady(d.f) {
      hide OnAfter, CleanAfter, NoRivals, StartCleanup, BaseInv, FlagInv;
      StartCleanupKeeps(d, x);
    }
  }

  lemma CloseKeepsFlags(k: Core, x: Exempt)
    requires FlagInv(k, x)
    ensures FlagInv(CommClose(k), x)
  {
    if !k.f.closing {
      var a := k.(f := k.f.(closing := true));
      assert BaseInv(a, x) && !a.f.cleanup && !a.lost;
      AcceptLinkActive(k, x);
      hide CloseReadSide, CloseWriteSide, OnAfter, CleanAfter, StartCleanup, BaseInv, CloseInv;
      CloseSidesKeep(a, x);
      CloseEnds(CloseWriteSide(CloseReadSide(a)), x);
    }
  }

  lemma AcceptLinkActive(k: Core, x: Exempt)
    requires BaseInv(k, x)
    ensures x.AcceptLink? ==> k.f.aActive
  {
  }

  lemma ReadKeepsFlags(k: Core, x: Exempt)
    requires FlagInv(k, x) && Allowed(k.f, Read)
    ensures FlagInv(CommRead(k), x)
  {
    hide Asks, OnAfter, CleanAfter;
  }

  lemma WriteKeepsFlags(k: Core, buf: seq<Byte>, start: int, len: int, x: Exempt)
    requires FlagInv(k, x) && Allowed(k.f, Write(buf, start, len))
    ensures FlagInv(CommWrite(k, buf, start, len), x)
  {
    hide Asks, OnAfter, CleanAfter;
  }

  lemma ListenKeepsFlags(k: Core, x: Exempt)
    requires FlagInv(k, x) && Allowed(k.f, Listen)
    ensures FlagInv(CommListen(k), x)
  {
    hide Asks, OnAfter, CleanAfter;
  }

  lemma ConnectKeepsFlags(k: Core, fits: bool, x: Exempt)
    requires FlagInv(k, x) && Allowed(k.f, Connect(fits))
    ensures FlagInv(CommConnect(k, fits), x)
  {
    hide Asks, OnAfter, CleanAfter;
  }

  lemma UdpReadKeepsFlags(k: Core, maxlen: int, x: Exempt)
    requires FlagInv(k, x) && Allowed(k.f, UdpRead(maxlen))
    ensures FlagInv(CommUdpRead(k, maxlen), x)
  {
    hide Asks, OnAfter, CleanAfter;
  }

  lemma UdpWriteSetupKeepsFlags(k: Core, max: int, x: Exempt)
    requires FlagInv(k, x) && Allowed(k.f, UdpWriteSetup(max))
    ensures FlagInv(CommUdpWriteSetup(k, max), x)
  {
    hide Asks, OnAfter, CleanAfter;
  }

  lemma UdpWriteKeepsFlags(k: Core, fr: Frame, x: Exempt)
    requires FlagInv(k, x) && Allowed(k.f, UdpWrite(fr))
    ensures FlagInv(CommUdpWrite(k, fr), x)
  {
    hide Asks, OnAfter, CleanAfter;
  }

  lemma DoCmdKeepsFlags(k: Core, cmd: UserCmd, x: Exempt)
    requires FlagInv(k, x) && Allowed(k.f, cmd)
    ensures FlagInv(DoCmd(k, cmd), x)
  {
    hide FlagInv;
    match cmd
    case Close => CloseKeepsFlags(k, x);
    case Read => ReadKeepsFlags(k, x);
    case Write(buf, start, len) => WriteKeepsFlags(k, buf, start, len, x);
    case Listen => ListenKeepsFlags(k, x);
    case Connect(fits) => ConnectKeepsFlags(k, fits, x);
    case UdpRead(maxlen) => UdpReadKeepsFlags(k, maxlen, x);
    case UdpWriteSetup(max) => UdpWriteSetupKeepsFlags(k, max, x);
    case UdpWrite(fr) => UdpWriteKeepsFlags(k, fr, x);
  }

  lemma {:induction false} ScriptKeepsFlags(k: Core, script: Script, x: Exempt)
    requires FlagInv(k, x)
    ensures FlagInv(RunScript(k, script), x)
    decreases |script|
  {
    hide FlagInv, DoCmd, Allowed;
    if script != [] {
      if Allowed(k.f, script[0]) {
        DoCmdKeepsFlags(k, script[0], x);
        ScriptKeepsFlags(DoCmd(k, script[0]), script[1..], x);
      } else {
        ScriptKeepsFlags(k, script[1..], x);
      }
    }
  }

  lemma NotifyKeepsFlags(k: Core, note: Note, script: Script, x: Exempt)
    requires FlagInv(k, x)
    ensures FlagInv(Notify(k, note, script), x)
  {
    assert FlagInv(Emit(k, note), x);
    hide FlagInv, RunScript;
    ScriptKeepsFlags(Emit(k, note), script, x);
  }

  /** A notification on a closing comm only leaves its mark. */
  lemma ClosingNotify(k: Core, note: Note, script: Script)
    requires k.f.closing
    ensures Notify(k, note, script) == Emit(k, note)
  {
    ClosingScript(Emit(k, note), script);
  }

  // ------------------------------------------------------------------
  // Handlers
  // ------------------------------------------------------------------

  lemma OnReadKeepsFlags(k: Core)
    requires FlagInv(k, None) && k.port.on.read
    ensures FlagInv(OnRead(Fired(k, EvRead)), None)
  {
    hide Asks, OnAfter, CleanAfter;
  }

  lemma OnWriteKeepsFlags(k: Core)
    requires FlagInv(k, None) && k.port.on.write
    ensures FlagInv(OnWrite(Fired(k, EvWrite)), None)
  {
    hide Asks, OnAfter, CleanAfter;
  }

  lemma StopReadingKeepsBase(k: Core)
    requires BaseInv(k, None)
    ensures BaseInv(StopReading(k), None)
    ensures SameOps(StopReading(k).f, k.f) && StopReading(k).lost == k.lost
    ensures StopReading(k).port.on.writeCb == k.port.on.writeCb
    ensures StopReading(k).port.on.readCb == k.port.on.readCb
  {
    hide Asks, OnAfter, CleanAfter;
  }

  lemma StopReadingKeepsFlags(k: Core)
    requires FlagInv(k, None)
    ensures FlagInv(StopReading(k), None)
  {
    StopReadingKeepsBase(k);
    hide BaseInv, StopReading;
  }

  /** The read operation ends, before anyone is told. */
  lemma ReadEnds(k: Core)
    requires FlagInv(k, None) && k.port.on.readCb
    ensures var a := Fired(k, EvReadCb).(f := k.f.(rActive := false));
      BaseInv(a, None) && !a.f.cleanup && !a.lost && (!k.f.closing ==> FlagInv(a, None))
      && (k.f.closing && k.f.wActive ==> a.port.on.writeCb)
  {
    hide Asks, OnAfter, CleanAfter;
  }

  lemma OnReadCbClosing(k: Core, i: Input)
    requires FlagInv(k, None) && k.port.on.readCb && k.f.closing
    ensures FlagInv(OnReadCb(Fired(k, EvReadCb), i), None)
  {
    var f := Fired(k, EvReadCb);
    var note := Called(ReadOp, Closing, 0);
    var a := Emit(f.(f := f.f.(rActive := false)), note);
    ReadEnds(k);
    ClosingNotify(f.(f := f.f.(rActive := false)), note, i.script);
    assert BaseInv(a, None);
    hide BaseInv, FlagInv, OnAfter, CleanAfter, Notify, StartCleanup;
    var b := StopReading(a);
    StopReadingKeepsBase(a);
    CloseEnds(b, None);
    if !CloseReady(b.f) {
      assert OnReadCb(f, i) == StopReading(b);
      StopReadingKeepsFlags(b);
    }
  }

  lemma ReadFired(k: Core)
    requires FlagInv(k, None) && k.port.on.readCb && !k.f.closing
    ensures Fired(k, EvReadCb).f == k.f && k.f.rActive && !Fired(k, EvReadCb).port.on.readCb
    ensures FlagInv(Fired(k, EvReadCb), None)
  {
    hide Asks, OnAfter, CleanAfter;
  }

  lemma ReadInactive(k: Core)
    requires FlagInv(k, None) && !k.f.closing && !k.port.on.readCb
    ensures FlagInv(k.(f := k.f.(rActive := false)), None)
  {
    hide Asks, OnAfter, CleanAfter;
  }

  lemma ReadIoKeepsFlags(k: Core, i: Input)
    requires FlagInv(k, None) && k.f.rActive && !k.f.closing && !k.port.on.readCb
    ensures FlagInv(ReadIo(k, i), None)
  {
    if i.io.Done? && i.io.n > 0 {
      ReadInactive(k);
      hide FlagInv, Notify, StopReading;
      NotifyKeepsFlags(k.(f := k.f.(rActive := false)), Called(ReadOp, Completed, i.io.n), i.script, None);
    } else if !i.io.Again? {
      var b := StopReading(k);
      StopReadingKeepsBase(k);
      StopReadingKeepsFlags(k);
      hide FlagInv, Notify, StopReading;
      ReadInactive(b);
      var note := if i.io.Done? then Called(ReadOp, Eof, 0) else Called(ReadOp, Error, -1);
      NotifyKeepsFlags(b.(f := b.f.(rActive := false)), note, i.script, None);
    }
  }

  lemma OnReadCbIo(k: Core, i: Input)
    requires FlagInv(k, None) && k.port.on.readCb && !k.f.closing
    ensures FlagInv(OnReadCb(Fired(k, EvReadCb), i), None)
  {
    ReadFired(k);
    hide FlagInv, ReadIo, Fired;
    ReadIoKeepsFlags(Fired(k, EvReadCb), i);
  }

  lemma OnReadCbKeepsFlags(k: Core, i: Input)
    requires FlagInv(k, None) && k.port.on.readCb
    ensures FlagInv(OnReadCb(Fired(k, EvReadCb), i), None)
  {
    hide FlagInv, OnReadCb;
    if k.f.closing { OnReadCbClosing(k, i); } else { OnReadCbIo(k, i); }
  }

  lemma OnWriteCbKeepsFlags(k: Core, i: Input)
    requires FlagInv(k, None) && k.port.on.writeCb
    ensures FlagInv(OnWriteCb(Fired(k, EvWriteCb), i), None)
  {
    var f := Fired(k, EvWriteCb);
    hide OnAfter, CleanAfter, RunScript;
    if f.f.closing {
      var a := f.(f := f.f.(wActive := false, wReady := false));
      ClosingNotify(a, Called(WriteOp, Closing, k.w.offset), i.script);
      var b := Emit(a, Called(WriteOp, Closing, k.w.offset));
      assert BaseInv(b, None);
      if CloseReady(b.f) { StartCleanupKeeps(b, None); }
    } else {
      assert FlagInv(f, None);
      WriteIoKeepsFlags(f, i);
    }
  }

  lemma WriteIoKeepsFlags(k: Core, i: Input)
    requires FlagInv(k, None) && !k.f.closing && !k.port.on.writeCb
    ensures FlagInv(WriteIo(k, i), None)
  {
    var a := k.(f := k.f.(wActive := false));
    assert FlagInv(a, None);
    hide OnAfter, CleanAfter, RunScript, Notify;
    NotifyKeepsFlags(a, Called(WriteOp, Eof, k.w.offset), i.script, None);
    NotifyKeepsFlags(a, Called(WriteOp, Error, k.w.offset), i.script, None);
  }

  // -- accept

  lemma {:induction false} AcceptLoopKeepsFlags(k: Core, more: seq<(Outcome, Script)>)
    requires FlagInv(k, AcceptLink)
    ensures FlagInv(AcceptLoop(k, more), AcceptLink)
    decreases |more|
  {
    hide FlagInv, Notify;
    if more != [] {
      var note := Called(AcceptOp, Completed, 0);
      NotifyKeepsFlags(k, note, more[0].1, AcceptLink);
      AcceptLoopKeepsFlags(Notify(k, note, more[0].1), more[1..]);
    }
  }

  lemma AcceptAgain(k: Core)
    requires FlagInv(k, AcceptLink)
    ensures FlagInv(AddAccept(k), None)
  {
    hide Asks, OnAfter, CleanAfter;
  }

  lemma AcceptFired(k: Core)
    requires FlagInv(k, None) && k.port.on.accept
    ensures Fired(k, EvAccept).f == k.f && k.f.aActive
    ensures !k.f.closing ==> FlagInv(Fired(k, EvAccept), AcceptLink)
    ensures k.f.closing ==> ClosingReady(Fired(k, EvAccept).(f := k.f.(aActive := false)))
  {
    hide Asks, OnAfter, CleanAfter;
  }

  /** What the closing branches need before the final check. */
  ghost predicate ClosingReady(k: Core) {
    && BaseInv(k, None) && k.f.closing && !k.f.cleanup && !k.lost
    && (k.f.rActive ==> k.port.on.readCb)
    && (k.f.wActive ==> k.port.on.writeCb)
  }

  /** A closing branch: mark the operation ended, tell its owner, check. */
  lemma ClosingBranch(a: Core, note: Note, script: Script)
    requires ClosingReady(a)
    ensures Notify(a, note, script) == Emit(a, note)
    ensures FlagInv(if CloseReady(a.f) then StartCleanup(Emit(a, note)) else Emit(a, note), None)
  {
    ClosingNotify(a, note, script);
    assert BaseInv(Emit(a, note), None);
    hide BaseInv, FlagInv, StartCleanup, Notify, OnAfter, CleanAfter;
    CloseEnds(Emit(a, note), None);
  }

  lemma OnAcceptKeepsFlags(k: Core, i: Input)
    requires FlagInv(k, None) && k.port.on.accept
    ensures FlagInv(OnAccept(Fired(k, EvAccept), i), None)
  {
    AcceptFired(k);
    var f := Fired(k, EvAccept);
    hide FlagInv, ClosingReady, Fired, Notify, StartCleanup, OnAfter, CleanAfter, AddAccept, AcceptLoop;
    if k.f.closing {
      ClosingBranch(f.(f := f.f.(aActive := false)), Called(AcceptOp, Closing, 0), i.script);
    } else {
      AcceptLoopKeepsFlags(f, i.more);
      AcceptAgain(AcceptLoop(f, i.more));
      NotifyKeepsFlags(AddAccept(AcceptLoop(f, i.more)), Called(AcceptOp, Error, -1), i.script, None);
    }
  }

  // -- connect

  lemma ConnectFired(k: Core)
    requires FlagInv(k, None) && k.port.on.connect
    ensures Fired(k, EvConnect).f == k.f && k.f.coActive && !k.lost && Fired(k, EvConnect).lost == k.lost
    ensures FlagInv(AddConnect(Fired(k, EvConnect)), None)
    ensures !k.f.closing ==> FlagInv(Fired(k, EvConnect).(f := k.f.(coActive := false)), None)
    ensures k.f.closing ==> ClosingReady(Fired(k, EvConnect).(f := k.f.(coActive := false)))
  {
    hide Asks, OnAfter, CleanAfter;
    assert Fired(k, EvConnect).port.on == k.port.on.(connect := false);
  }

  lemma ConnectStartFired(k: Core)
    requires FlagInv(k, None) && k.port.on.connectStart
    ensures Fired(k, EvConnectStart).f == k.f && k.f.coActive && !k.lost && Fired(k, EvConnectStart).lost == k.lost
    ensures FlagInv(AddConnect(Fired(k, EvConnectStart)), None)
    ensures !k.f.closing ==> FlagInv(Fired(k, EvConnectStart).(f := k.f.(coActive := false)), None)
    ensures k.f.closing ==> ClosingReady(Fired(k, EvConnectStart).(f := k.f.(coActive := false)))
  {
    hide Asks, OnAfter, CleanAfter;
    assert Fired(k, EvConnectStart).port.on == k.port.on.(connectStart := false);
  }

  /** The one branch that ends an operation of a closing comm without the check. */
  lemma ConnectEndsClosing(a: Core)
    requires ClosingReady(a)
    ensures FlagInv(a.(lost := CloseReady(a.f)), None)
  {
    hide Asks, OnAfter, CleanAfter;
  }

  lemma OnConnectKeepsFlags(k: Core, i: Input)
    requires FlagInv(k, None) && k.port.on.connect
    ensures FlagInv(OnConnect(Fired(k, EvConnect), i), None)
  {
    ConnectFired(k);
    var f := Fired(k, EvConnect);
    hide FlagInv, ClosingReady, Fired, Notify, OnAfter, CleanAfter, AddConnect;
    if !i.io.InProgress? {
      var a := f.(f := f.f.(coActive := false));
      if k.f.closing { ConnectEndsClosing(a); }
      var b := a.(lost := CloseReady(a.f));
      assert !k.f.closing ==> b == a;
      NotifyKeepsFlags(b, Called(ConnectOp, if i.io.Done? then Completed else Error, 0), i.script, None);
    }
  }

  lemma OnConnectStartKeepsFlags(k: Core, i: Input)
    requires FlagInv(k, None) && k.port.on.connectStart
    ensures FlagInv(OnConnectStart(Fired(k, EvConnectStart), i), None)
  {
    hide FlagInv, ClosingReady, Fired, Notify, StartCleanup, OnAfter, CleanAfter, AddConnect;
    ConnectStartFired(k);
    var f := Fired(k, EvConnectStart);
    var a := f.(f := f.f.(coActive := false));
    if k.f.closing {
      ClosingBranch(a, Called(ConnectOp, Closing, 0), i.script);
    } else {
      NotifyKeepsFlags(a, Called(ConnectOp, if i.io.Done? then Completed else Error, 0), i.script, None);
    }
  }

  // -- datagrams

  lemma UdpReadFired(k: Core)
    requires FlagInv(k, None) && k.port.on.udpRead
    ensures Fired(k, EvUdpRead).f == k.f && k.f.urActive
    ensures FlagInv(AddUdpRead(Fired(k, EvUdpRead)), None)
    ensures k.f.closing ==> ClosingReady(Fired(k, EvUdpRead).(f := k.f.(urActive := false)))
  {
    hide Asks, OnAfter, CleanAfter;
  }

  lemma OnUdpReadKeepsFlags(k: Core, i: Input)
    requires FlagInv(k, None) && k.port.on.udpRead
    ensures FlagInv(OnUdpRead(Fired(k, EvUdpRead), i), None)
  {
    UdpReadFired(k);
    var f := Fired(k, EvUdpRead);
    hide FlagInv, ClosingReady, Fired, Notify, StartCleanup, OnAfter, CleanAfter, AddUdpRead;
    if k.f.closing {
      ClosingBranch(f.(f := f.f.(urActive := false)), Called(UdpReadOp, Closing, 0), i.script);
    } else {
      NotifyKeepsFlags(AddUdpRead(f), Called(UdpReadOp, if i.io.Done? then Completed else Error, 0), i.script, None);
    }
  }

  lemma ReportKeepsFlags(k: Core, s: Status, script: Script)
    requires FlagInv(k, QueueLink) && k.q.frames != []
    ensures FlagInv(Report(k, s, script), QueueLink)
  {
    var a := k.(q := k.q.(frames := k.q.frames[1..], qlen := k.q.qlen - 1));
    assert FlagInv(a, QueueLink);
    hide FlagInv, Notify, OnAfter, CleanAfter;
    NotifyKeepsFlags(a, Reported(k.q.frames[0], s), script, QueueLink);
  }

  lemma {:induction false} SendLoopKeepsFlags(k: Core, more: seq<(Outcome, Script)>)
    requires FlagInv(k, QueueLink)
    ensures FlagInv(SendLoop(k, more), QueueLink)
    decreases |more|
  {
    hide FlagInv, Report;
    if k.q.frames != [] && more != [] && (more[0].0.Done? || more[0].0.Failed?) {
      var s := if more[0].0.Done? && more[0].0.n == k.q.frames[0].len then Completed else Error;
      ReportKeepsFlags(k, s, more[0].1);
      SendLoopKeepsFlags(Report(k, s, more[0].1), more[1..]);
    }
  }

  lemma UdpWriteFired(k: Core)
    requires FlagInv(k, None) && k.port.on.udpWrite
    ensures Fired(k, EvUdpWrite).f == k.f && k.f.uwActive && k.f.uwPrimed
    ensures FlagInv(Fired(k, EvUdpWrite).(f := k.f.(uwPrimed := false)), QueueLink)
    ensures k.f.closing && k.q.frames == [] ==>
      ClosingReady(Fired(k, EvUdpWrite).(f := k.f.(uwActive := false, uwPrimed := false)))
  {
    hide Asks, OnAfter, CleanAfter;
  }

  /** After the send loop: prime again if anything is left. */
  lemma SendLoopEnds(k: Core)
    requires FlagInv(k, QueueLink)
    ensures k.q.frames == [] ==> FlagInv(k, None)
    ensures k.q.frames != [] ==> FlagInv(AddUdpWrite(k.(f := k.f.(uwPrimed := true))), None)
  {
    hide Asks, OnAfter, CleanAfter;
  }

  lemma OnUdpWriteIo(k: Core, i: Input)
    requires FlagInv(k, None) && k.port.on.udpWrite && !k.f.closing
    ensures FlagInv(OnUdpWrite(Fired(k, EvUdpWrite), i), None)
  {
    UdpWriteFired(k);
    var f := Fired(k, EvUdpWrite);
    hide FlagInv, Fired, SendLoop, OnAfter, CleanAfter, AddUdpWrite;
    var a := f.(f := f.f.(uwPrimed := false));
    SendLoopEnds(a);
    SendLoopKeepsFlags(a, i.more);
    SendLoopEnds(SendLoop(a, i.more));
  }

  /** The drain empties the queue and touches nothing else. */
  lemma {:induction false} DrainEmpties(k: Core, more: seq<(Outcome, Script)>)
    requires k.f.closing
    ensures Drain(k, more).q.frames == []
    ensures Drain(k, more) == k.(q := Drain(k, more).q, trace := Drain(k, more).trace)
    decreases |k.q.frames|
  {
    if k.q.frames != [] {
      var script := if more == [] then [] else more[0].1;
      ClosingScript(Emit(k.(q := k.q.(frames := k.q.frames[1..], qlen := k.q.qlen - 1)),
                         Reported(k.q.frames[0], Closing)), script);
      hide OnAfter, CleanAfter, RunScript;
      DrainEmpties(Report(k, Closing, script), if more == [] then [] else more[1..]);
    }
  }

  lemma OnUdpWriteClosing(k: Core, i: Input)
    requires FlagInv(k, None) && k.port.on.udpWrite && k.f.closing
    ensures FlagInv(OnUdpWrite(Fired(k, EvUdpWrite), i), None)
  {
    var f := Fired(k, EvUdpWrite);
    DrainEmpties(f, i.more);
    var d := Drain(f, i.more);
    DrainedReady(k, d);
    hide FlagInv, ClosingReady, Drain, OnAfter, CleanAfter, StartCleanup;
    var a := d.(f := d.f.(uwActive := false, uwPrimed := false));
    ReadyEnds(a);
  }

  lemma DrainedReady(k: Core, d: Core)
    requires FlagInv(k, None) && k.port.on.udpWrite && k.f.closing
    requires d.f == k.f && d.port == Fired(k, EvUdpWrite).port && d.lost == k.lost && d.q.frames == []
    ensures ClosingReady(d.(f := d.f.(uwActive := false, uwPrimed := false)))
  {
    hide Asks, OnAfter, CleanAfter;
  }

  lemma ReadyEnds(a: Core)
    requires ClosingReady(a)
    ensures FlagInv(if CloseReady(a.f) then StartCleanup(a) else a, None)
  {
    hide BaseInv, FlagInv, StartCleanup, OnAfter, CleanAfter;
    CloseEnds(a, None);
  }

  lemma OnUdpWriteKeepsFlags(k: Core, i: Input)
    requires FlagInv(k, None) && k.port.on.udpWrite
    ensures FlagInv(OnUdpWrite(Fired(k, EvUdpWrite), i), None)
  {
    hide FlagInv, OnUdpWrite, Fired;
    if k.f.closing { OnUdpWriteClosing(k, i); } else { OnUdpWriteIo(k, i); }
  }

  /** Every handler except the cleanup keeps the invariant, in every run of it. */
  lemma DispatchKeepsFlags(k: Core, ev: Ev, i: Input)
    requires FlagInv(k, None) && Has(k.port.on, ev) && !ev.EvCleanup?
    ensures FlagInv(Dispatch(Fired(k, ev), ev, i), None)
  {
    hide FlagInv, Fired, OnRead, OnReadCb, OnWrite, OnWriteCb, OnAccept, OnConnect, OnConnectStart, OnUdpRead,
         OnUdpWrite;
    match ev
    case EvRead => OnReadKeepsFlags(k);
    case EvReadCb => OnReadCbKeepsFlags(k, i);
    case EvWrite => OnWriteKeepsFlags(k);
    case EvWriteCb => OnWriteCbKeepsFlags(k, i);
    case EvAccept => OnAcceptKeepsFlags(k, i);
    case EvConnect => OnConnectKeepsFlags(k, i);
    case EvConnectStart => OnConnectStartKeepsFlags(k, i);
    case EvUdpRead => OnUdpReadKeepsFlags(k, i);
    case EvUdpWrite => OnUdpWriteKeepsFlags(k, i);
  }
}
