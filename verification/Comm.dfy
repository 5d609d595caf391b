/**
 * The socket state machine of lib/libiapp/comm.c on values.
 *
 * A handler never reads the event loop's state, it only asks the loop to add,
 * delete or free its ten events; these requests are recorded in a `Port`, in
 * order. A user callback is an arbitrary script of API calls on the comm.
 */
module Comm {

  type Byte = b: int | 0 <= b < 256 witness 0

  datatype Frame = Frame(id: nat, len: nat)

  /** The ten events of a comm, in the order comm_create makes them. */
  datatype Ev =
    | EvRead | EvReadCb | EvWrite | EvWriteCb | EvCleanup
    | EvAccept | EvConnect | EvConnectStart | EvUdpRead | EvUdpWrite

  predicate IsCallback(ev: Ev) {
    ev.EvReadCb? || ev.EvWriteCb? || ev.EvCleanup? || ev.EvConnectStart?
  }

  predicate IsPersistent(ev: Ev) {
    ev.EvRead? || ev.EvWrite?
  }

  predicate ReadSide(ev: Ev) {
    ev.EvRead? || ev.EvAccept? || ev.EvUdpRead?
  }

  /**
   * A comm as the loop sees it: the id of the first of its ten events, its
   * descriptor, whether it has a close callback, and which events are active.
   */
  datatype On = On(
    base: nat, fd: int, closeCb: bool,
    read: bool, readCb: bool, write: bool, writeCb: bool, cleanup: bool,
    accept: bool, connect: bool, connectStart: bool, udpRead: bool, udpWrite: bool)

  function NoneOn(base: nat, fd: int, closeCb: bool): On {
    On(base, fd, closeCb, false, false, false, false, false, false, false, false, false, false)
  }

  predicate Has(on: On, ev: Ev) {
    match ev
    case EvRead => on.read
    case EvReadCb => on.readCb
    case EvWrite => on.write
    case EvWriteCb => on.writeCb
    case EvCleanup => on.cleanup
    case EvAccept => on.accept
    case EvConnect => on.connect
    case EvConnectStart => on.connectStart
    case EvUdpRead => on.udpRead
    case EvUdpWrite => on.udpWrite
  }

  function Turn(on: On, ev: Ev, b: bool): On {
    match ev
    case EvRead => on.(read := b)
    case EvReadCb => on.(readCb := b)
    case EvWrite => on.(write := b)
    case EvWriteCb => on.(writeCb := b)
    case EvCleanup => on.(cleanup := b)
    case EvAccept => on.(accept := b)
    case EvConnect => on.(connect := b)
    case EvConnectStart => on.(connectStart := b)
    case EvUdpRead => on.(udpRead := b)
    case EvUdpWrite => on.(udpWrite := b)
  }

  /** Another event of the comm is on for the same (fd, filter). */
  predicate RivalOn(on: On, ev: Ev) {
    match ev
    case EvRead => on.accept || on.udpRead
    case EvAccept => on.read || on.udpRead
    case EvUdpRead => on.read || on.accept
    case EvWrite => on.connect || on.udpWrite
    case EvConnect => on.write || on.udpWrite
    case EvUdpWrite => on.write || on.connect
    case _ => false
  }

  // ------------------------------------------------------------------
  // Requests to the event loop
  // ------------------------------------------------------------------

  /** fde_add, fde_delete and fde_free of one of the comm's events. */
  datatype Act = Arm(ev: Ev) | Disarm(ev: Ev) | Release(ev: Ev)

  function After(on: On, act: Act): On {
    Turn(on, act.ev, act.Arm?)
  }

  function OnAfter(on: On, acts: seq<Act>): On {
    if acts == [] then on else After(OnAfter(on, acts[..|acts| - 1]), acts[|acts| - 1])
  }

  /** A request of a live comm: only persistent events are deleted, and no event is added beside a rival. */
  predicate CleanAct(on: On, act: Act) {
    match act
    case Arm(ev) => Has(on, ev) || !RivalOn(on, ev)
    case Disarm(ev) => IsPersistent(ev)
    case Release(ev) => false
  }

  predicate CleanAfter(on: On, acts: seq<Act>) {
    acts == [] ||
    (CleanAfter(on, acts[..|acts| - 1]) && CleanAct(OnAfter(on, acts[..|acts| - 1]), acts[|acts| - 1]))
  }

  /**
   * The requests made since some point: the events on at that point, the
   * requests, and what is on after them.
   */
  datatype RawPort = Port(start: On, acts: seq<Act>, on: On, clean: bool)

  type Port = p: RawPort | p.on == OnAfter(p.start, p.acts) && p.clean == CleanAfter(p.start, p.acts)
    witness Port(NoneOn(0, 0, false), [], NoneOn(0, 0, false), true)

  function NewPort(on: On): Port {
    Port(on, [], on, true)
  }

  /** One more request; `on` and `clean` are what it comes to. */
  function Ask(p: Port, act: Act, on: On, clean: bool): (r: Port)
    requires on == After(p.on, act) && clean == CleanAct(p.on, act)
  {
    assert (p.acts + [act])[..|p.acts|] == p.acts;
    Port(p.start, p.acts + [act], on, p.clean && clean)
  }

  // ------------------------------------------------------------------
  // State
  // ------------------------------------------------------------------

  /** The flags of struct fde_comm and of its per-operation parts. */
  datatype Flags = Flags(
    urMaxlen: int,
    closing: bool, cleanup: bool, freed: bool,
    rActive: bool, rReady: bool, rRead: bool,
    wActive: bool, wReady: bool, wWrite: bool,
    aActive: bool, coActive: bool, urActive: bool,
    uwActive: bool, uwPrimed: bool)

  /** The stream write in hand: a slice of a buffer and how far it has got. */
  datatype Transfer = Transfer(buf: seq<Byte>, start: int, offset: int, len: int)

  /** The datagram send queue. */
  datatype SendQueue = SendQueue(max: int, qlen: int, frames: seq<Frame>)

  datatype Op = ReadOp | WriteOp | AcceptOp | ConnectOp | UdpReadOp

  datatype Status = Completed | Closing | Error | Eof

  datatype Note =
    | Started(op: Op, len: int)
    | Called(op: Op, status: Status, n: int)
    | Sent(bytes: seq<Byte>)
    | Queued(frame: Frame)
    | Reported(frame: Frame, status: Status)
    | CleanupQueued
    | CloseCalled

  /** Everything that happened, latest last. */
  datatype Trace = Nothing | Then(before: Trace, note: Note)

  /** `lost` records that a connect finished last on a closing comm. */
  datatype Core = Core(f: Flags, w: Transfer, q: SendQueue, port: Port, trace: Trace, lost: bool)

  /** What the system call made by a handler returns. */
  datatype Outcome = Done(n: nat) | Again | Failed | InProgress

  datatype UserCmd =
    | Close
    | Read
    | Write(buf: seq<Byte>, start: int, len: int)
    | Listen
    | Connect(addrFits: bool)
    | UdpRead(maxlen: int)
    | UdpWriteSetup(max: int)
    | UdpWrite(frame: Frame)

  type Script = seq<UserCmd>

  /** System call results and user callback behaviour for one handler run. */
  datatype Input = Input(io: Outcome, script: Script, more: seq<(Outcome, Script)>, transient: bool)

  /** comm_create: everything zero, nothing on. */
  function NewComm(fd: int, base: nat, closeCb: bool): Core {
    Core(Flags(0, false, false, false, false, false, false, false, false, false,
               false, false, false, false, false),
         Transfer([], 0, 0, 0), SendQueue(0, 0, []), NewPort(NoneOn(base, fd, closeCb)), Nothing, false)
  }

  // ------------------------------------------------------------------
  // Closing
  // ------------------------------------------------------------------

  /** No operation of any of the six kinds is active. */
  predicate Quiet(f: Flags) {
    !f.rActive && !f.wActive && !f.aActive && !f.coActive && !f.urActive && !f.uwActive
  }

  /** comm_is_close_ready */
  predicate CloseReady(f: Flags) {
    f.closing && Quiet(f)
  }

  /** A request leaves everything but the port alone. */
  function Asks(k: Core, act: Act, on: On, clean: bool): (r: Core)
    requires on == After(k.port.on, act) && clean == CleanAct(k.port.on, act)
    ensures r.f == k.f && r.w == k.w && r.q == k.q && r.trace == k.trace && r.lost == k.lost
    ensures r.port.on == on && r.port.clean == (k.port.clean && clean) && r.port.start == k.port.start
    ensures r.port.acts == k.port.acts + [act]
  {
    k.(port := Ask(k.port, act, on, clean))
  }

  function AddRead(k: Core): (r: Core)
    ensures r.port.start == k.port.start && r.lost == k.lost
  {
    var on := k.port.on;
    assert CleanAct(on, Arm(EvRead)) == (on.read || !(on.accept || on.udpRead));
    assert After(on, Arm(EvRead)) == on.(read := true);
    Asks(k, Arm(EvRead), on.(read := true), on.read || !(on.accept || on.udpRead))
  }

  function AddReadCb(k: Core): (r: Core)
    ensures r.port.start == k.port.start && r.lost == k.lost
  {
    Asks(k, Arm(EvReadCb), k.port.on.(readCb := true), true)
  }

  function AddWrite(k: Core): (r: Core)
    ensures r.port.start == k.port.start && r.lost == k.lost
  {
    var on := k.port.on;
    assert CleanAct(on, Arm(EvWrite)) == (on.write || !(on.connect || on.udpWrite));
    assert After(on, Arm(EvWrite)) == on.(write := true);
    Asks(k, Arm(EvWrite), on.(write := true), on.write || !(on.connect || on.udpWrite))
  }

  function AddWriteCb(k: Core): (r: Core)
    ensures r.port.start == k.port.start && r.lost == k.lost
  {
    Asks(k, Arm(EvWriteCb), k.port.on.(writeCb := true), true)
  }

  function AddCleanup(k: Core): (r: Core)
    ensures r.port.start == k.port.start && r.lost == k.lost
  {
    Asks(k, Arm(EvCleanup), k.port.on.(cleanup := true), true)
  }

  function AddAccept(k: Core): (r: Core)
    ensures r.port.start == k.port.start && r.lost == k.lost
  {
    var on := k.port.on;
    assert CleanAct(on, Arm(EvAccept)) == (on.accept || !(on.read || on.udpRead));
    assert After(on, Arm(EvAccept)) == on.(accept := true);
    Asks(k, Arm(EvAccept), on.(accept := true), on.accept || !(on.read || on.udpRead))
  }

  function AddConnect(k: Core): (r: Core)
    ensures r.port.start == k.port.start && r.lost == k.lost
  {
    var on := k.port.on;
    assert CleanAct(on, Arm(EvConnect)) == (on.connect || !(on.write || on.udpWrite));
    assert After(on, Arm(EvConnect)) == on.(connect := true);
    Asks(k, Arm(EvConnect), on.(connect := true), on.connect || !(on.write || on.udpWrite))
  }

  function AddConnectStart(k: Core): (r: Core)
    ensures r.port.start == k.port.start && r.lost == k.lost
  {
    Asks(k, Arm(EvConnectStart), k.port.on.(connectStart := true), true)
  }

  function AddUdpRead(k: Core): (r: Core)
    ensures r.port.start == k.port.start && r.lost == k.lost
  {
    var on := k.port.on;
    assert CleanAct(on, Arm(EvUdpRead)) == (on.udpRead || !(on.read || on.accept));
    assert After(on, Arm(EvUdpRead)) == on.(udpRead := true);
    Asks(k, Arm(EvUdpRead), on.(udpRead := true), on.udpRead || !(on.read || on.accept))
  }

  function AddUdpWrite(k: Core): (r: Core)
    ensures r.port.start == k.port.start && r.lost == k.lost
  {
    var on := k.port.on;
    assert CleanAct(on, Arm(EvUdpWrite)) == (on.udpWrite || !(on.write || on.connect));
    assert After(on, Arm(EvUdpWrite)) == on.(udpWrite := true);
    Asks(k, Arm(EvUdpWrite), on.(udpWrite := true), on.udpWrite || !(on.write || on.connect))
  }

  function DeleteRead(k: Core): (r: Core)
    ensures r.port.start == k.port.start && r.lost == k.lost
  {
    Asks(k, Disarm(EvRead), k.port.on.(read := false), true)
  }

  function DeleteWrite(k: Core): (r: Core)
    ensures r.port.start == k.port.start && r.lost == k.lost
  {
    Asks(k, Disarm(EvWrite), k.port.on.(write := false), true)
  }

  function Emit(k: Core, note: Note): (r: Core)
    ensures r.port.start == k.port.start && r.lost == k.lost
  {
    k.(trace := Then(k.trace, note))
  }

  /** comm_start_cleanup */
  function StartCleanup(k: Core): (r: Core)
    ensures r.port.start == k.port.start && r.lost == k.lost
  {
    if !k.f.closing || k.f.cleanup || !CloseReady(k.f) then k
    else AddCleanup(Emit(k.(f := k.f.(cleanup := true)), CleanupQueued))
  }

  function CloseReadSide(k: Core): (r: Core)
    ensures r.port.start == k.port.start && r.lost == k.lost
  {
    if k.f.rActive then AddReadCb(k)
    else if k.f.rRead then DeleteRead(k.(f := k.f.(rRead := false)))
    else k
  }

  function CloseWriteSide(k: Core): (r: Core)
    ensures r.port.start == k.port.start && r.lost == k.lost
  {
    if k.f.wActive then AddWriteCb(k)
    else if k.f.wWrite then DeleteWrite(k.(f := k.f.(wWrite := false)))
    else k
  }

  /** comm_close */
  function CommClose(k: Core): (r: Core)
    ensures r.port.start == k.port.start && r.lost == k.lost
  {
    if k.f.closing then k
    else
      var k1 := CloseWriteSide(CloseReadSide(k.(f := k.f.(closing := true))));
      if !CloseReady(k1.f) then k1 else StartCleanup(k1)
  }

  // ------------------------------------------------------------------
  // Starting operations
  // ------------------------------------------------------------------

  /** The read becomes active, and the read event is on from now on. */
  function ReadStarted(k: Core): (r: Core)
    ensures r.port.start == k.port.start && r.lost == k.lost
  {
    if k.f.rRead then k.(f := k.f.(rActive := true))
    else AddRead(k.(f := k.f.(rActive := true, rRead := true)))
  }

  /** comm_read */
  function CommRead(k: Core): (r: Core)
    ensures r.port.start == k.port.start && r.lost == k.lost
  {
    if k.f.rActive then k
    else
      var k1 := ReadStarted(Emit(k, Started(ReadOp, 0)));
      if k1.f.rReady then AddReadCb(k1) else k1
  }

  /** The write becomes active, and the write event is on from now on. */
  function WriteStarted(k: Core): (r: Core)
    ensures r.port.start == k.port.start && r.lost == k.lost
  {
    if k.f.wWrite then k.(f := k.f.(wActive := true))
    else AddWrite(k.(f := k.f.(wActive := true, wWrite := true)))
  }

  /** comm_write */
  function CommWrite(k: Core, buf: seq<Byte>, start: int, len: int): (r: Core)
    ensures r.port.start == k.port.start && r.lost == k.lost
  {
    if k.f.wActive then k
    else
      var k1 := WriteStarted(Emit(k.(w := Transfer(buf, start, 0, len)), Started(WriteOp, len)));
      if k1.f.wReady then AddWriteCb(k1) else k1
  }

  /** comm_listen */
  function CommListen(k: Core): (r: Core)
    ensures r.port.start == k.port.start && r.lost == k.lost
  {
    if k.f.aActive then k
    else AddAccept(Emit(k.(f := k.f.(aActive := true)), Started(AcceptOp, 0)))
  }

  /** comm_connect */
  function CommConnect(k: Core, addrFits: bool): (r: Core)
    ensures r.port.start == k.port.start && r.lost == k.lost
  {
    if k.f.coActive || !addrFits then k
    else AddConnectStart(Emit(k.(f := k.f.(coActive := true)), Started(ConnectOp, 0)))
  }

  /** comm_udp_read */
  function CommUdpRead(k: Core, maxlen: int): (r: Core)
    ensures r.port.start == k.port.start && r.lost == k.lost
  {
    if k.f.urActive then k
    else AddUdpRead(Emit(k.(f := k.f.(urActive := true, urMaxlen := maxlen)), Started(UdpReadOp, 0)))
  }

  /** comm_udp_write_setup */
  function CommUdpWriteSetup(k: Core, max: int): (r: Core)
    ensures r.port.start == k.port.start && r.lost == k.lost
  {
    if k.f.uwActive then k
    else k.(f := k.f.(uwActive := true, uwPrimed := false), q := k.q.(max := max, qlen := 0))
  }

  /** The frame is taken: the owner gets it back in a report. */
  predicate TakesFrame(k: Core) {
    k.f.uwActive && !k.f.closing && k.q.qlen < k.q.max
  }

  /** comm_udp_write */
  function CommUdpWrite(k: Core, fr: Frame): (r: Core)
    ensures r.port.start == k.port.start && r.lost == k.lost
  {
    if !TakesFrame(k) then k
    else
      var k1 := Emit(k.(q := k.q.(frames := k.q.frames + [fr], qlen := k.q.qlen + 1)), Queued(fr));
      if k1.f.uwPrimed then k1
      else AddUdpWrite(k1.(f := k1.f.(uwPrimed := true)))
  }

  /**
   * The rules a user keeps: no operation is started on a closing comm, nor one
   * whose event would share (fd, filter) with another one; a write names a
   * slice of its buffer.
   */
  predicate Allowed(f: Flags, cmd: UserCmd) {
    match cmd
    case Close => true
    case Read => !f.closing && !f.aActive && !f.urActive
    case Write(buf, start, len) =>
      && !f.closing && !f.coActive && !f.uwActive
      && 0 <= start && 0 <= len && start + len <= |buf|
    case Listen => !f.closing && !f.rRead && !f.urActive
    case Connect(_) => !f.closing && !f.wWrite && !f.uwActive
    case UdpRead(_) => !f.closing && !f.rRead && !f.aActive
    case UdpWriteSetup(_) => !f.closing && !f.wWrite && !f.coActive
    case UdpWrite(_) => true
  }

  function DoCmd(k: Core, cmd: UserCmd): (r: Core)
    ensures r.port.start == k.port.start && r.lost == k.lost
  {
    match cmd
    case Close => CommClose(k)
    case Read => CommRead(k)
    case Write(buf, start, len) => CommWrite(k, buf, start, len)
    case Listen => CommListen(k)
    case Connect(addrFits) => CommConnect(k, addrFits)
    case UdpRead(maxlen) => CommUdpRead(k, maxlen)
    case UdpWriteSetup(max) => CommUdpWriteSetup(k, max)
    case UdpWrite(fr) => CommUdpWrite(k, fr)
  }

  /** A user callback; calls that break the rules are not part of it. */
  function RunScript(k: Core, script: Script): (r: Core)
    ensures r.port.start == k.port.start && r.lost == k.lost
    decreases |script|
  {
    if script == [] then k
    else RunScript(if Allowed(k.f, script[0]) then DoCmd(k, script[0]) else k, script[1..])
  }

  function Notify(k: Core, note: Note, script: Script): (r: Core)
    ensures r.port.start == k.port.start && r.lost == k.lost
  {
    RunScript(Emit(k, note), script)
  }

  // ------------------------------------------------------------------
  // Handlers
  // ------------------------------------------------------------------

  /** An operation stops because the comm is closing. */
  function CalledOff(f: Flags, op: Op): Flags {
    match op
    case ReadOp => f.(rActive := false)
    case WriteOp => f.(wActive := false, wReady := false)
    case AcceptOp => f.(aActive := false)
    case ConnectOp => f.(coActive := false)
    case UdpReadOp => f.(urActive := false)
  }

  /** comm_cb_read */
  function OnRead(k: Core): (r: Core)
    ensures r.port.start == k.port.start && r.lost == k.lost
  {
    var k1 := k.(f := k.f.(rReady := true));
    if !k.f.rActive then k1 else AddReadCb(k1)
  }

  function StopReading(k: Core): (r: Core)
    ensures r.port.start == k.port.start && r.lost == k.lost
  {
    var k1 := DeleteRead(k);
    k1.(f := k1.f.(rRead := false, rReady := false))
  }

  function ReadIo(k: Core, i: Input): (r: Core)
    ensures r.port.start == k.port.start && r.lost == k.lost
  {
    if !k.f.rActive then StopReading(k)
    else if i.io.Again? then k
    else if i.io.Done? && i.io.n > 0 then
      Notify(k.(f := k.f.(rActive := false)), Called(ReadOp, Completed, i.io.n), i.script)
    else
      var k1 := StopReading(k);
      var note := if i.io.Done? then Called(ReadOp, Eof, 0) else Called(ReadOp, Error, -1);
      Notify(k1.(f := k1.f.(rActive := false)), note, i.script)
  }

  /** comm_cb_read_cb */
  function OnReadCb(k: Core, i: Input): (r: Core)
    ensures r.port.start == k.port.start && r.lost == k.lost
  {
    if !k.f.closing then ReadIo(k, i)
    else
      var k1 := StopReading(Notify(k.(f := CalledOff(k.f, ReadOp)), Called(ReadOp, Closing, 0), i.script));
      if CloseReady(k1.f) then StartCleanup(k1) else ReadIo(k1, i)
  }

  /** comm_cb_write */
  function OnWrite(k: Core): (r: Core)
    ensures r.port.start == k.port.start && r.lost == k.lost
  {
    var k1 := k.(f := k.f.(wReady := true));
    if !k.f.wActive then k1 else AddWriteCb(k1)
  }

  /** comm_cb_write_complete, called for results 0 and -1. */
  function WriteComplete(k: Core, ret: int, script: Script): (r: Core)
    ensures r.port.start == k.port.start && r.lost == k.lost
  {
    if ret >= 0 && k.w.offset < k.w.len then k
    else
      var s := if ret < 0 then Error else if ret == 0 then Eof else Completed;
      Notify(k.(f := k.f.(wActive := false)), Called(WriteOp, s, k.w.offset), script)
  }

  function Min(a: int, b: int): int { if a < b then a else b }

  /** The next `n` bytes from the current position. */
  function Slice(w: Transfer, n: int): seq<Byte> {
    if 0 <= w.start + w.offset <= w.start + w.offset + n <= |w.buf|
    then w.buf[w.start + w.offset..w.start + w.offset + n] else []
  }

  function WriteIo(k: Core, i: Input): (r: Core)
    ensures r.port.start == k.port.start && r.lost == k.lost
  {
    if !k.f.wActive || !k.f.wReady then k
    else match i.io
      case Again => k
      case Done(n) =>
        var ret := Min(n, k.w.len - k.w.offset);
        if ret > 0 then Emit(k, Sent(Slice(k.w, ret))).(w := k.w.(offset := k.w.offset + ret))
        else WriteComplete(k, ret, i.script)
      case _ => WriteComplete(k, -1, i.script)
  }

  /** comm_cb_write_cb */
  function OnWriteCb(k: Core, i: Input): (r: Core)
    ensures r.port.start == k.port.start && r.lost == k.lost
  {
    if !k.f.closing then WriteIo(k, i)
    else
      var k1 := Notify(k.(f := CalledOff(k.f, WriteOp)), Called(WriteOp, Closing, k.w.offset), i.script);
      if CloseReady(k1.f) then StartCleanup(k1) else WriteIo(k1, i)
  }

  /** The accept loop: one callback for every new descriptor. */
  function AcceptLoop(k: Core, more: seq<(Outcome, Script)>): (r: Core)
    ensures r.port.start == k.port.start && r.lost == k.lost
    decreases |more|
  {
    if more == [] then k
    else AcceptLoop(Notify(k, Called(AcceptOp, Completed, 0), more[0].1), more[1..])
  }

  function AcceptIo(k: Core, i: Input): (r: Core)
    ensures r.port.start == k.port.start && r.lost == k.lost
  {
    if !k.f.aActive then k
    else
      var k1 := AddAccept(AcceptLoop(k, i.more));
      if i.transient then k1 else Notify(k1, Called(AcceptOp, Error, -1), i.script)
  }

  /** comm_cb_accept */
  function OnAccept(k: Core, i: Input): (r: Core)
    ensures r.port.start == k.port.start && r.lost == k.lost
  {
    if !k.f.closing then AcceptIo(k, i)
    else
      var k1 := Notify(k.(f := CalledOff(k.f, AcceptOp)), Called(AcceptOp, Closing, 0), i.script);
      if CloseReady(k1.f) then StartCleanup(k1) else AcceptIo(k1, i)
  }

  /** comm_cb_connect */
  function OnConnect(k: Core, i: Input): (r: Core)
    ensures r.port.start == k.port.start
  {
    if i.io.InProgress? then AddConnect(k)
    else
      var k1 := k.(f := k.f.(coActive := false));
      var k2 := k1.(lost := k.lost || CloseReady(k1.f));
      Notify(k2, Called(ConnectOp, if i.io.Done? then Completed else Error, 0), i.script)
  }

  function ConnectIo(k: Core, i: Input): (r: Core)
    ensures r.port.start == k.port.start && r.lost == k.lost
  {
    if !k.f.coActive then k
    else if i.io.InProgress? then AddConnect(k)
    else
      Notify(k.(f := k.f.(coActive := false)),
             Called(ConnectOp, if i.io.Done? then Completed else Error, 0), i.script)
  }

  /** comm_cb_connect_start */
  function OnConnectStart(k: Core, i: Input): (r: Core)
    ensures r.port.start == k.port.start && r.lost == k.lost
  {
    if !k.f.closing then ConnectIo(k, i)
    else
      var k1 := Notify(k.(f := CalledOff(k.f, ConnectOp)), Called(ConnectOp, Closing, 0), i.script);
      if CloseReady(k1.f) then StartCleanup(k1) else ConnectIo(k1, i)
  }

  function UdpReadIo(k: Core, i: Input): (r: Core)
    ensures r.port.start == k.port.start && r.lost == k.lost
  {
    if !k.f.urActive then k
    else Notify(AddUdpRead(k), Called(UdpReadOp, if i.io.Done? then Completed else Error, 0), i.script)
  }

  /** comm_cb_udp_read */
  function OnUdpRead(k: Core, i: Input): (r: Core)
    ensures r.port.start == k.port.start && r.lost == k.lost
  {
    if !k.f.closing then UdpReadIo(k, i)
    else
      var k1 := Notify(k.(f := CalledOff(k.f, UdpReadOp)), Called(UdpReadOp, Closing, 0), i.script);
      if CloseReady(k1.f) then StartCleanup(k1) else UdpReadIo(k1, i)
  }

  /** Takes the first frame off the queue and reports it. */
  function Report(k: Core, s: Status, script: Script): (r: Core)
    requires k.q.frames != []
    ensures r.port.start == k.port.start && r.lost == k.lost
  {
    var fr := k.q.frames[0];
    Notify(k.(q := k.q.(frames := k.q.frames[1..], qlen := k.q.qlen - 1)), Reported(fr, s), script)
  }

  /** On a closing comm a user callback can change nothing. */
  lemma {:induction false} ClosingScript(k: Core, script: Script)
    requires k.f.closing
    ensures RunScript(k, script) == k
  {
    if script != [] { ClosingScript(k, script[1..]); }
  }

  /** The closing drain: every queued frame is reported as CLOSING. */
  function Drain(k: Core, more: seq<(Outcome, Script)>): (r: Core)
    requires k.f.closing
    ensures r.port.start == k.port.start && r.lost == k.lost
    decreases |k.q.frames|
  {
    if k.q.frames == [] then k
    else
      var script := if more == [] then [] else more[0].1;
      ClosingScript(Emit(k.(q := k.q.(frames := k.q.frames[1..], qlen := k.q.qlen - 1)),
                         Reported(k.q.frames[0], Closing)), script);
      Drain(Report(k, Closing, script), if more == [] then [] else more[1..])
  }

  /** The send loop; the results given run out when the socket buffer is full. */
  function SendLoop(k: Core, more: seq<(Outcome, Script)>): (r: Core)
    ensures r.port.start == k.port.start && r.lost == k.lost
    decreases |more|
  {
    if k.q.frames == [] || more == [] then k
    else match more[0].0
      case Done(n) =>
        SendLoop(Report(k, if n == k.q.frames[0].len then Completed else Error, more[0].1), more[1..])
      case Failed => SendLoop(Report(k, Error, more[0].1), more[1..])
      case _ => k
  }

  function UdpWriteIo(k: Core, i: Input): (r: Core)
    ensures r.port.start == k.port.start && r.lost == k.lost
  {
    if !k.f.uwActive || !k.f.uwPrimed then k
    else
      var k1 := k.(f := k.f.(uwPrimed := false));
      if k1.q.frames == [] then k1
      else
        var k2 := SendLoop(k1, i.more);
        if k2.q.frames == [] then k2
        else AddUdpWrite(k2.(f := k2.f.(uwPrimed := true)))
  }

  function SendingOff(f: Flags): Flags {
    f.(uwActive := false, uwPrimed := false)
  }

  /** comm_cb_udp_write */
  function OnUdpWrite(k: Core, i: Input): (r: Core)
    ensures r.port.start == k.port.start && r.lost == k.lost
  {
    if !k.f.closing then UdpWriteIo(k, i)
    else
      var d := Drain(k, i.more);
      var k1 := d.(f := SendingOff(d.f));
      if CloseReady(k1.f) then StartCleanup(k1) else UdpWriteIo(k1, i)
  }

  const ALL_EVENTS: seq<Ev> :=
    [EvRead, EvReadCb, EvWrite, EvWriteCb, EvAccept, EvConnect, EvConnectStart, EvCleanup, EvUdpRead, EvUdpWrite]

  function ReleaseAll(k: Core, evs: seq<Ev>): (r: Core)
    ensures r.port.start == k.port.start && r.lost == k.lost
    decreases |evs|
  {
    if evs == [] then k
    else
      var act := Release(evs[0]);
      ReleaseAll(Asks(k, act, After(k.port.on, act), false), evs[1..])
  }

  /** comm_cb_cleanup */
  function OnCleanup(k: Core, i: Input): (r: Core)
    ensures r.port.start == k.port.start && r.lost == k.lost
  {
    var k1 := if k.port.start.closeCb then Notify(k, CloseCalled, i.script) else k;
    ReleaseAll(k1.(f := k1.f.(freed := true)), ALL_EVENTS)
  }

  function Dispatch(k: Core, ev: Ev, i: Input): (r: Core)
    ensures r.port.start == k.port.start
  {
    match ev
    case EvRead => OnRead(k)
    case EvReadCb => OnReadCb(k, i)
    case EvWrite => OnWrite(k)
    case EvWriteCb => OnWriteCb(k, i)
    case EvCleanup => OnCleanup(k, i)
    case EvAccept => OnAccept(k, i)
    case EvConnect => OnConnect(k, i)
    case EvConnectStart => OnConnectStart(k, i)
    case EvUdpRead => OnUdpRead(k, i)
    case EvUdpWrite => OnUdpWrite(k, i)
  }

  /** The comm when the loop runs the handler of one of its events. */
  function Fired(k: Core, ev: Ev): Core {
    k.(port := NewPort(if IsPersistent(ev) then k.port.on else Turn(k.port.on, ev, false)))
  }
}
