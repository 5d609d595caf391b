/**
 * What the trace of a comm always says: every accepted operation is completed
 * once, the bytes sent are the slice asked for, and every accepted datagram is
 * reported once and in order.
 */
module CommTraces {
  import opened Seqs
  import opened Comm
  import opened CommInvariants

  /** How often an operation was accepted. */
  function Starts(t: Trace, op: Op): nat {
    match t
    case Nothing => 0
    case Then(b, n) => Starts(b, op) + (if n.Started? && n.op == op then 1 else 0)
  }

  /** How often the owner of an operation was called. */
  function Calls(t: Trace, op: Op): nat {
    match t
    case Nothing => 0
    case Then(b, n) => Calls(b, op) + (if n.Called? && n.op == op then 1 else 0)
  }

  /** The length asked for by the latest write. */
  function LatestLen(t: Trace): int {
    match t
    case Nothing => 0
    case Then(b, n) => if n.Started? && n.op.WriteOp? then n.len else LatestLen(b)
  }

  /** The bytes the kernel took for the latest write. */
  function SentBytes(t: Trace): seq<Byte> {
    match t
    case Nothing => []
    case Then(b, n) =>
      if n.Started? && n.op.WriteOp? then []
      else if n.Sent? then SentBytes(b) + n.bytes
      else SentBytes(b)
  }

  /**
   * Every write callback reports the number of bytes the kernel took; none says
   * COMPLETED, and EOF means that the whole length went out.
   */
  ghost predicate WriteCallsRight(t: Trace) {
    match t
    case Nothing => true
    case Then(b, n) =>
      && WriteCallsRight(b)
      && (n.Called? && n.op.WriteOp? ==>
            && n.n == |SentBytes(b)| && !n.status.Completed?
            && (n.status.Eof? ==> n.n == LatestLen(b)))
  }

  function AcceptedFrames(t: Trace): seq<Frame> {
    match t
    case Nothing => []
    case Then(b, n) => if n.Queued? then AcceptedFrames(b) + [n.frame] else AcceptedFrames(b)
  }

  function ReportedFrames(t: Trace): seq<Frame> {
    match t
    case Nothing => []
    case Then(b, n) => if n.Reported? then ReportedFrames(b) + [n.frame] else ReportedFrames(b)
  }

  function CleanupsQueued(t: Trace): nat {
    match t
    case Nothing => 0
    case Then(b, n) => CleanupsQueued(b) + (if n.CleanupQueued? then 1 else 0)
  }

  function CloseCalls(t: Trace): nat {
    match t
    case Nothing => 0
    case Then(b, n) => CloseCalls(b) + (if n.CloseCalled? then 1 else 0)
  }

  /** Accepted starts are the callbacks delivered, plus one while active. */
  ghost predicate Balanced(f: Flags, t: Trace) {
    && Starts(t, ReadOp) == Calls(t, ReadOp) + One(f.rActive)
    && Starts(t, WriteOp) == Calls(t, WriteOp) + One(f.wActive)
    && Starts(t, ConnectOp) == Calls(t, ConnectOp) + One(f.coActive)
  }

  /** The bytes sent so far are the slice of the buffer up to the offset. */
  ghost predicate SliceSent(w: Transfer, t: Trace) {
    && 0 <= w.start && 0 <= w.offset <= w.len && w.start + w.len <= |w.buf|
    && LatestLen(t) == w.len
    && SentBytes(t) == w.buf[w.start..w.start + w.offset]
    && WriteCallsRight(t)
  }

  /** Accepted frames are the reported ones followed by the queue, which is bounded. */
  ghost predicate FramesKept(q: SendQueue, t: Trace) {
    && q.qlen == |q.frames|
    && (q.frames != [] ==> |q.frames| <= q.max)
    && AcceptedFrames(t) == ReportedFrames(t) + q.frames
  }

  ghost predicate CloseOnce(f: Flags, t: Trace) {
    CleanupsQueued(t) == One(f.cleanup) && CloseCalls(t) == 0
  }

  ghost predicate TraceInv(k: Core) {
    Balanced(k.f, k.trace) && SliceSent(k.w, k.trace) && FramesKept(k.q, k.trace) && CloseOnce(k.f, k.trace)
  }

  // ------------------------------------------------------------------
  // API calls
  // ------------------------------------------------------------------

  /** Requests to the loop play no part in the trace. */
  lemma ReadRequestsKeepTrace(k: Core)
    requires TraceInv(k)
    ensures TraceInv(AddRead(k))
    ensures TraceInv(AddReadCb(k))
    ensures TraceInv(DeleteRead(k))
  {
    hide Asks, After, CleanAct;
  }

  lemma WriteRequestsKeepTrace(k: Core)
    requires TraceInv(k)
    ensures TraceInv(AddWrite(k))
    ensures TraceInv(AddWriteCb(k))
    ensures TraceInv(DeleteWrite(k))
  {
    hide Asks, After, CleanAct;
  }

  lemma OtherRequestsKeepTrace(k: Core)
    requires TraceInv(k)
    ensures TraceInv(AddCleanup(k))
    ensures TraceInv(AddAccept(k))
    ensures TraceInv(AddConnect(k))
    ensures TraceInv(AddConnectStart(k))
  {
    hide Asks, After, CleanAct;
  }

  lemma UdpRequestsKeepTrace(k: Core)
    requires TraceInv(k)
    ensures TraceInv(AddUdpRead(k))
    ensures TraceInv(AddUdpWrite(k))
  {
    hide Asks, After, CleanAct;
  }

  /** Nor do flags other than those of the operations. */
  lemma FlagsKeepTrace(k: Core, f: Flags)
    requires TraceInv(k)
    requires f.cleanup == k.f.cleanup && f.rActive == k.f.rActive && f.wActive == k.f.wActive && f.coActive == k.f.coActive
    ensures TraceInv(k.(f := f))
  {
  }

  lemma StartCleanupKeepsTrace(k: Core)
    requires TraceInv(k)
    ensures TraceInv(StartCleanup(k))
  {
    if k.f.closing && !k.f.cleanup && CloseReady(k.f) {
      var a := Emit(k.(f := k.f.(cleanup := true)), CleanupQueued);
      assert TraceInv(a);
      hide TraceInv, AddCleanup;
      OtherRequestsKeepTrace(a);
    }
  }

  lemma CloseReadSideKeepsTrace(k: Core)
    requires TraceInv(k)
    ensures TraceInv(CloseReadSide(k))
  {
    hide TraceInv, Asks, AddReadCb, DeleteRead;
    ReadRequestsKeepTrace(k);
    var a := k.(f := k.f.(rRead := false));
    FlagsKeepTrace(k, k.f.(rRead := false));
    ReadRequestsKeepTrace(a);
  }

  lemma CloseWriteSideKeepsTrace(k: Core)
    requires TraceInv(k)
    ensures TraceInv(CloseWriteSide(k))
  {
    hide TraceInv, Asks, AddWriteCb, DeleteWrite;
    WriteRequestsKeepTrace(k);
    var a := k.(f := k.f.(wWrite := false));
    FlagsKeepTrace(k, k.f.(wWrite := false));
    WriteRequestsKeepTrace(a);
  }

  lemma CloseKeepsTrace(k: Core)
    requires TraceInv(k)
    ensures TraceInv(CommClose(k))
  {
    hide TraceInv, CloseReadSide, CloseWriteSide, StartCleanup;
    if !k.f.closing {
      var a := k.(f := k.f.(closing := true));
      FlagsKeepTrace(k, k.f.(closing := true));
      CloseReadSideKeepsTrace(a);
      CloseWriteSideKeepsTrace(CloseReadSide(a));
      StartCleanupKeepsTrace(CloseWriteSide(CloseReadSide(a)));
    }
  }

  lemma ReadStarts(k: Core)
    requires TraceInv(k) && !k.f.rActive
    ensures TraceInv(Emit(k, Started(ReadOp, 0)).(f := k.f.(rActive := true)))
    ensures TraceInv(Emit(k, Started(ReadOp, 0)).(f := k.f.(rActive := true, rRead := true)))
  {
    var a := Emit(k, Started(ReadOp, 0)).(f := k.f.(rActive := true));
    assert TraceInv(a);
    hide TraceInv;
    FlagsKeepTrace(a, k.f.(rActive := true, rRead := true));
  }

  lemma ReadKeepsTrace(k: Core)
    requires TraceInv(k)
    ensures TraceInv(CommRead(k))
  {
    hide TraceInv, Asks, AddRead, AddReadCb;
    if !k.f.rActive {
      ReadStarts(k);
      var a := Emit(k, Started(ReadOp, 0));
      ReadRequestsKeepTrace(a.(f := k.f.(rActive := true, rRead := true)));
      assert TraceInv(ReadStarted(a));
      hide ReadStarted;
      ReadRequestsKeepTrace(ReadStarted(a));
    }
  }

  lemma WriteBegins(k: Core, buf: seq<Byte>, start: int, len: int)
    requires TraceInv(k) && !k.f.wActive && Allowed(k.f, Write(buf, start, len))
    ensures TraceInv(Emit(k.(w := Transfer(buf, start, 0, len)), Started(WriteOp, len)).(f := k.f.(wActive := true)))
  {
  }

  lemma WriteStarts(k: Core, buf: seq<Byte>, start: int, len: int)
    requires TraceInv(k) && !k.f.wActive && Allowed(k.f, Write(buf, start, len))
    ensures TraceInv(Emit(k.(w := Transfer(buf, start, 0, len)), Started(WriteOp, len)).(f := k.f.(wActive := true)))
    ensures TraceInv(Emit(k.(w := Transfer(buf, start, 0, len)), Started(WriteOp, len))
                     .(f := k.f.(wActive := true, wWrite := true)))
  {
    hide TraceInv;
    WriteBegins(k, buf, start, len);
    FlagsKeepTrace(Emit(k.(w := Transfer(buf, start, 0, len)), Started(WriteOp, len)).(f := k.f.(wActive := true)),
                   k.f.(wActive := true, wWrite := true));
  }

  lemma WriteKeepsTrace(k: Core, buf: seq<Byte>, start: int, len: int)
    requires TraceInv(k) && Allowed(k.f, Write(buf, start, len))
    ensures TraceInv(CommWrite(k, buf, start, len))
  {
    hide TraceInv, Asks, AddWrite, AddWriteCb, Allowed;
    if !k.f.wActive {
      WriteStarts(k, buf, start, len);
      var a := Emit(k.(w := Transfer(buf, start, 0, len)), Started(WriteOp, len));
      WriteRequestsKeepTrace(a.(f := k.f.(wActive := true, wWrite := true)));
      assert TraceInv(WriteStarted(a));
      hide WriteStarted;
      WriteRequestsKeepTrace(WriteStarted(a));
    }
  }

  lemma ListenStarts(k: Core)
    requires TraceInv(k)
    ensures TraceInv(Emit(k.(f := k.f.(aActive := true)), Started(AcceptOp, 0)))
  {
  }

  lemma ListenKeepsTrace(k: Core)
    requires TraceInv(k)
    ensures TraceInv(CommListen(k))
  {
    hide TraceInv, AddAccept;
    if !k.f.aActive {
      ListenStarts(k);
      OtherRequestsKeepTrace(Emit(k.(f := k.f.(aActive := true)), Started(AcceptOp, 0)));
    }
  }

  lemma ConnectStarts(k: Core)
    requires TraceInv(k) && !k.f.coActive
    ensures TraceInv(Emit(k.(f := k.f.(coActive := true)), Started(ConnectOp, 0)))
  {
  }

  lemma ConnectKeepsTrace(k: Core, fits: bool)
    requires TraceInv(k)
    ensures TraceInv(CommConnect(k, fits))
  {
    hide TraceInv, AddConnectStart;
    if !k.f.coActive {
      ConnectStarts(k);
      OtherRequestsKeepTrace(Emit(k.(f := k.f.(coActive := true)), Started(ConnectOp, 0)));
    }
  }

  lemma UdpReadKeepsTrace(k: Core, maxlen: int)
    requires TraceInv(k)
    ensures TraceInv(CommUdpRead(k, maxlen))
  {
    if !k.f.urActive {
      var a := Emit(k.(f := k.f.(urActive := true, urMaxlen := maxlen)), Started(UdpReadOp, 0));
      assert TraceInv(a);
      hide TraceInv, AddUdpRead;
      UdpRequestsKeepTrace(a);
    }
  }

  lemma UdpSetupKeepsTrace(k: Core, max: int)
    requires TraceInv(k) && (!k.f.uwActive ==> k.q.frames == [])
    ensures TraceInv(CommUdpWriteSetup(k, max))
  {
  }

  lemma UdpWriteKeepsTrace(k: Core, fr: Frame)
    requires TraceInv(k)
    ensures TraceInv(CommUdpWrite(k, fr))
  {
    if TakesFrame(k) {
      var a := Emit(k.(q := k.q.(frames := k.q.frames + [fr], qlen := k.q.qlen + 1)), Queued(fr));
      assert AcceptedFrames(a.trace) == ReportedFrames(a.trace) + a.q.frames;
      assert TraceInv(a);
      hide TraceInv, Asks, AddUdpWrite;
      FlagsKeepTrace(a, a.f.(uwPrimed := true));
      UdpRequestsKeepTrace(a.(f := a.f.(uwPrimed := true)));
    }
  }

  lemma IdleQueueEmpty(k: Core, x: Exempt)
    requires FlagInv(k, x)
    ensures !k.f.uwActive ==> k.q.frames == []
  {
  }

  lemma DoCmdKeepsTrace(k: Core, cmd: UserCmd, x: Exempt)
    requires FlagInv(k, x) && TraceInv(k) && Allowed(k.f, cmd)
    ensures TraceInv(DoCmd(k, cmd))
  {
    hide FlagInv, TraceInv;
    match cmd
    case Close => CloseKeepsTrace(k);
    case Read => ReadKeepsTrace(k);
    case Write(buf, start, len) => WriteKeepsTrace(k, buf, start, len);
    case Listen => ListenKeepsTrace(k);
    case Connect(fits) => ConnectKeepsTrace(k, fits);
    case UdpRead(maxlen) => UdpReadKeepsTrace(k, maxlen);
    case UdpWriteSetup(max) => IdleQueueEmpty(k, x); UdpSetupKeepsTrace(k, max);
    case UdpWrite(fr) => UdpWriteKeepsTrace(k, fr);
  }

  lemma {:induction false} ScriptKeepsTrace(k: Core, script: Script, x: Exempt)
    requires FlagInv(k, x) && TraceInv(k)
    ensures TraceInv(RunScript(k, script))
    decreases |script|
  {
    hide FlagInv, TraceInv, DoCmd, Allowed;
    if script != [] {
      if Allowed(k.f, script[0]) {
        DoCmdKeepsFlags(k, script[0], x);
        DoCmdKeepsTrace(k, script[0], x);
        ScriptKeepsTrace(DoCmd(k, script[0]), script[1..], x);
      } else {
        ScriptKeepsTrace(k, script[1..], x);
      }
    }
  }

  /** A callback: if the note itself is right, so is everything the script adds. */
  lemma NotifyKeepsTrace(k: Core, note: Note, script: Script, x: Exempt)
    requires FlagInv(k, x) && TraceInv(Emit(k, note))
    ensures TraceInv(Notify(k, note, script))
  {
    assert FlagInv(Emit(k, note), x);
    hide FlagInv, TraceInv, RunScript;
    ScriptKeepsTrace(Emit(k, note), script, x);
  }

  // ------------------------------------------------------------------
  // Handlers
  // ------------------------------------------------------------------

  lemma FiredKeepsTrace(k: Core, ev: Ev)
    requires TraceInv(k)
    ensures TraceInv(Fired(k, ev)) && Fired(k, ev).f == k.f && Fired(k, ev).w == k.w && Fired(k, ev).q == k.q
  {
    hide Turn, OnAfter, CleanAfter;
  }

  /** Completing a read, a write or a connect settles exactly one start. */
  lemma ReadCall(k: Core, s: Status, n: int)
    requires TraceInv(k) && k.f.rActive
    ensures TraceInv(Emit(k.(f := k.f.(rActive := false)), Called(ReadOp, s, n)))
  {
  }

  lemma WriteCall(k: Core, s: Status, ready: bool)
    requires TraceInv(k) && k.f.wActive && !s.Completed? && (s.Eof? ==> k.w.offset == k.w.len)
    ensures TraceInv(Emit(k.(f := k.f.(wActive := false, wReady := ready)), Called(WriteOp, s, k.w.offset)))
  {
  }

  lemma ConnectCall(k: Core, s: Status, lost: bool)
    requires TraceInv(k) && k.f.coActive
    ensures TraceInv(Emit(k.(f := k.f.(coActive := false), lost := lost), Called(ConnectOp, s, 0)))
  {
  }

  lemma ConnectStartCall(k: Core, s: Status)
    requires TraceInv(k) && k.f.coActive
    ensures TraceInv(Emit(k.(f := k.f.(coActive := false)), Called(ConnectOp, s, 0)))
  {
  }

  /** Accept and datagram read report as often as they like. */
  lemma OtherCall(k: Core, op: Op, s: Status, n: int)
    requires TraceInv(k) && (op.AcceptOp? || op.UdpReadOp?)
    ensures TraceInv(Emit(k, Called(op, s, n)))
  {
  }

  lemma StopReadingKeepsTrace(k: Core)
    requires TraceInv(k)
    ensures TraceInv(StopReading(k)) && StopReading(k).f.rActive == k.f.rActive
  {
    ReadRequestsKeepTrace(k);
    hide TraceInv, Asks;
    var b := DeleteRead(k);
    FlagsKeepTrace(b, b.f.(rRead := false, rReady := false));
  }

  lemma OnReadKeepsTrace(k: Core)
    requires TraceInv(k)
    ensures TraceInv(OnRead(k))
  {
    hide TraceInv, Asks, AddReadCb;
    FlagsKeepTrace(k, k.f.(rReady := true));
    ReadRequestsKeepTrace(k.(f := k.f.(rReady := true)));
  }

  lemma OnWriteKeepsTrace(k: Core)
    requires TraceInv(k)
    ensures TraceInv(OnWrite(k))
  {
    hide TraceInv, Asks, AddWriteCb;
    FlagsKeepTrace(k, k.f.(wReady := true));
    WriteRequestsKeepTrace(k.(f := k.f.(wReady := true)));
  }

  lemma ReadIoKeepsTrace(k: Core, i: Input)
    requires FlagInv(k, None) && TraceInv(k) && k.f.rActive && !k.f.closing && !k.port.on.readCb
    ensures TraceInv(ReadIo(k, i))
  {
    if i.io.Done? && i.io.n > 0 {
      ReadInactive(k);
      ReadCall(k, Completed, i.io.n);
      hide FlagInv, TraceInv, Notify, StopReading;
      NotifyKeepsTrace(k.(f := k.f.(rActive := false)), Called(ReadOp, Completed, i.io.n), i.script, None);
    } else if !i.io.Again? {
      var b := StopReading(k);
      StopReadingKeepsBase(k);
      StopReadingKeepsFlags(k);
      StopReadingKeepsTrace(k);
      hide FlagInv, TraceInv, Notify, StopReading;
      ReadInactive(b);
      var s, n := if i.io.Done? then Eof else Error, if i.io.Done? then 0 else -1;
      ReadCall(b, s, n);
      NotifyKeepsTrace(b.(f := b.f.(rActive := false)), Called(ReadOp, s, n), i.script, None);
    }
  }

  lemma OnReadCbClosingTrace(k: Core, i: Input)
    requires TraceInv(k) && k.f.rActive && k.f.closing
    ensures TraceInv(OnReadCb(k, i))
  {
    var note := Called(ReadOp, Closing, 0);
    var a := k.(f := k.f.(rActive := false));
    ReadCall(k, Closing, 0);
    ClosingNotify(a, note, i.script);
    hide TraceInv, Notify, StopReading, StartCleanup;
    var b := StopReading(Emit(a, note));
    StopReadingKeepsTrace(Emit(a, note));
    StartCleanupKeepsTrace(b);
    StopReadingKeepsTrace(b);
  }

  lemma OnReadCbKeepsTrace(k: Core, i: Input)
    requires FlagInv(k, None) && TraceInv(k) && k.port.on.readCb
    ensures TraceInv(OnReadCb(Fired(k, EvReadCb), i))
  {
    FiredKeepsTrace(k, EvReadCb);
    if k.f.closing {
      ReadEnds(k);
      hide FlagInv, TraceInv, OnReadCb, Fired;
      assert k.f.rActive by { ReadCbActive(k); }
      OnReadCbClosingTrace(Fired(k, EvReadCb), i);
    } else {
      ReadFired(k);
      hide FlagInv, TraceInv, ReadIo, Fired;
      ReadIoKeepsTrace(Fired(k, EvReadCb), i);
    }
  }

  /** A queued event implies its operation is active. */
  lemma ReadCbActive(k: Core)
    requires FlagInv(k, None)
    ensures k.port.on.readCb ==> k.f.rActive
    ensures k.port.on.writeCb ==> k.f.wActive
  {
  }

  lemma BytesWritten(k: Core, ret: int)
    requires TraceInv(k) && 0 < ret <= k.w.len - k.w.offset
    ensures TraceInv(Emit(k, Sent(Slice(k.w, ret))).(w := k.w.(offset := k.w.offset + ret)))
  {
    var w := k.w;
    var t := Then(k.trace, Sent(Slice(w, ret)));
    assert SentBytes(t) == w.buf[w.start..w.start + (w.offset + ret)];
  }

  lemma WriteCompleteKeepsTrace(k: Core, ret: int, script: Script)
    requires FlagInv(k, None) && TraceInv(k) && k.f.wActive && !k.f.closing && !k.port.on.writeCb && ret <= 0
    ensures TraceInv(WriteComplete(k, ret, script))
  {
    if !(ret >= 0 && k.w.offset < k.w.len) {
      var s := if ret < 0 then Error else Eof;
      var a := k.(f := k.f.(wActive := false));
      assert k.f.(wActive := false) == k.f.(wActive := false, wReady := k.f.wReady);
      WriteInactive(k);
      WriteCall(k, s, k.f.wReady);
      hide FlagInv, TraceInv, Notify;
      NotifyKeepsTrace(a, Called(WriteOp, s, k.w.offset), script, None);
    }
  }

  lemma WriteInactive(k: Core)
    requires FlagInv(k, None) && !k.f.closing && !k.port.on.writeCb
    ensures FlagInv(k.(f := k.f.(wActive := false)), None)
  {
    hide Asks, OnAfter, CleanAfter;
  }

  lemma OffsetInRange(k: Core)
    requires TraceInv(k)
    ensures 0 <= k.w.offset <= k.w.len
  {
  }

  lemma WriteIoKeepsTrace(k: Core, i: Input)
    requires FlagInv(k, None) && TraceInv(k) && k.f.wActive && !k.f.closing && !k.port.on.writeCb
    ensures TraceInv(WriteIo(k, i))
  {
    hide FlagInv, TraceInv, WriteComplete, Slice;
    OffsetInRange(k);
    if k.f.wReady {
      match i.io
      case Again =>
      case Done(n) =>
        var ret := Min(n, k.w.len - k.w.offset);
        if ret > 0 { BytesWritten(k, ret); } else { WriteCompleteKeepsTrace(k, ret, i.script); }
      case _ => WriteCompleteKeepsTrace(k, -1, i.script);
    }
  }

  lemma WriteCbFired(k: Core)
    requires FlagInv(k, None) && k.port.on.writeCb && !k.f.closing
    ensures FlagInv(Fired(k, EvWriteCb), None) && !Fired(k, EvWriteCb).port.on.writeCb
  {
    hide Asks, OnAfter, CleanAfter;
  }

  lemma OnWriteCbClosingTrace(k: Core, i: Input)
    requires TraceInv(k) && k.f.wActive && k.f.closing
    ensures TraceInv(OnWriteCb(k, i))
  {
    var note := Called(WriteOp, Closing, k.w.offset);
    var a := k.(f := k.f.(wActive := false, wReady := false));
    WriteCall(k, Closing, false);
    ClosingNotify(a, note, i.script);
    hide TraceInv, Notify, StartCleanup;
    StartCleanupKeepsTrace(Emit(a, note));
  }

  lemma OnWriteCbKeepsTrace(k: Core, i: Input)
    requires FlagInv(k, None) && TraceInv(k) && k.port.on.writeCb
    ensures TraceInv(OnWriteCb(Fired(k, EvWriteCb), i))
  {
    FiredKeepsTrace(k, EvWriteCb);
    ReadCbActive(k);
    if k.f.closing {
      hide FlagInv, TraceInv, OnWriteCb, Fired;
      OnWriteCbClosingTrace(Fired(k, EvWriteCb), i);
    } else {
      WriteCbFired(k);
      hide FlagInv, TraceInv, WriteIo, Fired;
      WriteIoKeepsTrace(Fired(k, EvWriteCb), i);
    }
  }

  lemma {:induction false} AcceptLoopKeepsTrace(k: Core, more: seq<(Outcome, Script)>)
    requires FlagInv(k, AcceptLink) && TraceInv(k)
    ensures TraceInv(AcceptLoop(k, more))
    decreases |more|
  {
    hide FlagInv, TraceInv, Notify;
    if more != [] {
      var note := Called(AcceptOp, Completed, 0);
      OtherCall(k, AcceptOp, Completed, 0);
      NotifyKeepsFlags(k, note, more[0].1, AcceptLink);
      NotifyKeepsTrace(k, note, more[0].1, AcceptLink);
      AcceptLoopKeepsTrace(Notify(k, note, more[0].1), more[1..]);
    }
  }

  /** The closing branch of accept, connect start and datagram read. */
  lemma ClosingBranchTrace(a: Core, note: Note, script: Script)
    requires a.f.closing && TraceInv(Emit(a, note))
    ensures Notify(a, note, script) == Emit(a, note)
    ensures TraceInv(StartCleanup(Emit(a, note)))
  {
    ClosingNotify(a, note, script);
    hide TraceInv, Notify, StartCleanup;
    StartCleanupKeepsTrace(Emit(a, note));
  }

  lemma OnAcceptKeepsTrace(k: Core, i: Input)
    requires FlagInv(k, None) && TraceInv(k) && k.port.on.accept
    ensures TraceInv(OnAccept(Fired(k, EvAccept), i))
  {
    AcceptFired(k);
    FiredKeepsTrace(k, EvAccept);
    var f := Fired(k, EvAccept);
    hide FlagInv, TraceInv, ClosingReady, Fired, Notify, StartCleanup, AddAccept, AcceptLoop;
    if k.f.closing {
      FlagsKeepTrace(f, f.f.(aActive := false));
      var a := f.(f := f.f.(aActive := false));
      OtherCall(a, AcceptOp, Closing, 0);
      ClosingBranchTrace(a, Called(AcceptOp, Closing, 0), i.script);
    } else {
      AcceptLoopKeepsFlags(f, i.more);
      AcceptLoopKeepsTrace(f, i.more);
      var b := AcceptLoop(f, i.more);
      AcceptAgain(b);
      OtherRequestsKeepTrace(b);
      OtherCall(AddAccept(b), AcceptOp, Error, -1);
      NotifyKeepsTrace(AddAccept(b), Called(AcceptOp, Error, -1), i.script, None);
    }
  }

  lemma OnConnectKeepsTrace(k: Core, i: Input)
    requires FlagInv(k, None) && TraceInv(k) && k.port.on.connect
    ensures TraceInv(OnConnect(Fired(k, EvConnect), i))
  {
    ConnectFired(k);
    FiredKeepsTrace(k, EvConnect);
    var f := Fired(k, EvConnect);
    hide FlagInv, TraceInv, ClosingReady, Fired, Notify, AddConnect;
    OtherRequestsKeepTrace(f);
    if !i.io.InProgress? {
      var a := f.(f := f.f.(coActive := false));
      if k.f.closing { ConnectEndsClosing(a); }
      var b := a.(lost := CloseReady(a.f));
      assert !k.f.closing ==> b == a;
      var s := if i.io.Done? then Completed else Error;
      ConnectCall(f, s, CloseReady(a.f));
      NotifyKeepsTrace(b, Called(ConnectOp, s, 0), i.script, None);
    }
  }

  lemma OnConnectStartKeepsTrace(k: Core, i: Input)
    requires FlagInv(k, None) && TraceInv(k) && k.port.on.connectStart
    ensures TraceInv(OnConnectStart(Fired(k, EvConnectStart), i))
  {
    hide FlagInv, TraceInv, ClosingReady, Fired, Notify, StartCleanup, AddConnect;
    ConnectStartFired(k);
    FiredKeepsTrace(k, EvConnectStart);
    var f := Fired(k, EvConnectStart);
    var a := f.(f := f.f.(coActive := false));
    if k.f.closing {
      ConnectStartCall(f, Closing);
      ClosingBranchTrace(a, Called(ConnectOp, Closing, 0), i.script);
    } else {
      var s := if i.io.Done? then Completed else Error;
      OtherRequestsKeepTrace(f);
      ConnectStartCall(f, s);
      NotifyKeepsTrace(a, Called(ConnectOp, s, 0), i.script, None);
    }
  }

  lemma OnUdpReadKeepsTrace(k: Core, i: Input)
    requires FlagInv(k, None) && TraceInv(k) && k.port.on.udpRead
    ensures TraceInv(OnUdpRead(Fired(k, EvUdpRead), i))
  {
    UdpReadFired(k);
    FiredKeepsTrace(k, EvUdpRead);
    var f := Fired(k, EvUdpRead);
    hide FlagInv, TraceInv, ClosingReady, Fired, Notify, StartCleanup, AddUdpRead;
    if k.f.closing {
      FlagsKeepTrace(f, f.f.(urActive := false));
      var a := f.(f := f.f.(urActive := false));
      OtherCall(a, UdpReadOp, Closing, 0);
      ClosingBranchTrace(a, Called(UdpReadOp, Closing, 0), i.script);
    } else {
      UdpRequestsKeepTrace(f);
      var s := if i.io.Done? then Completed else Error;
      OtherCall(AddUdpRead(f), UdpReadOp, s, 0);
      NotifyKeepsTrace(AddUdpRead(f), Called(UdpReadOp, s, 0), i.script, None);
    }
  }

  function Popped(k: Core): Core
    requires k.q.frames != []
  {
    k.(q := k.q.(frames := k.q.frames[1..], qlen := k.q.qlen - 1))
  }

  lemma ReportsApart(f: Flags, w: Transfer, t: Trace, fr: Frame, s: Status)
    requires Balanced(f, t) && SliceSent(w, t) && CloseOnce(f, t)
    ensures Balanced(f, Then(t, Reported(fr, s))) && SliceSent(w, Then(t, Reported(fr, s)))
    ensures CloseOnce(f, Then(t, Reported(fr, s)))
  {
  }

  lemma FrameMoves(q: SendQueue, t: Trace, s: Status)
    requires FramesKept(q, t) && q.frames != []
    ensures FramesKept(q.(frames := q.frames[1..], qlen := q.qlen - 1), Then(t, Reported(q.frames[0], s)))
  {
    var u := Then(t, Reported(q.frames[0], s));
    assert AcceptedFrames(u) == ReportedFrames(u) + q.frames[1..];
  }

  /** Reporting the first frame moves it from the queue to the reported ones. */
  lemma FrameReported(k: Core, s: Status)
    requires TraceInv(k) && k.q.frames != []
    ensures TraceInv(Emit(Popped(k), Reported(k.q.frames[0], s)))
  {
    hide Balanced, SliceSent, FramesKept, CloseOnce;
    ReportsApart(k.f, k.w, k.trace, k.q.frames[0], s);
    FrameMoves(k.q, k.trace, s);
  }

  lemma PoppedKeepsFlags(k: Core)
    requires FlagInv(k, QueueLink) && k.q.frames != []
    ensures FlagInv(Popped(k), QueueLink)
  {
  }

  lemma ReportKeepsTrace(k: Core, s: Status, script: Script)
    requires FlagInv(k, QueueLink) && TraceInv(k) && k.q.frames != []
    ensures TraceInv(Report(k, s, script))
  {
    FrameReported(k, s);
    PoppedKeepsFlags(k);
    hide FlagInv, TraceInv, Notify;
    NotifyKeepsTrace(Popped(k), Reported(k.q.frames[0], s), script, QueueLink);
  }

  lemma {:induction false} SendLoopKeepsTrace(k: Core, more: seq<(Outcome, Script)>)
    requires FlagInv(k, QueueLink) && TraceInv(k)
    ensures TraceInv(SendLoop(k, more))
    decreases |more|
  {
    hide FlagInv, TraceInv, Report;
    if k.q.frames != [] && more != [] && (more[0].0.Done? || more[0].0.Failed?) {
      var s := if more[0].0.Done? && more[0].0.n == k.q.frames[0].len then Completed else Error;
      ReportKeepsFlags(k, s, more[0].1);
      ReportKeepsTrace(k, s, more[0].1);
      SendLoopKeepsTrace(Report(k, s, more[0].1), more[1..]);
    }
  }

  lemma {:induction false} DrainKeepsTrace(k: Core, more: seq<(Outcome, Script)>)
    requires k.f.closing && TraceInv(k)
    ensures TraceInv(Drain(k, more))
    decreases |k.q.frames|
  {
    if k.q.frames != [] {
      var script := if more == [] then [] else more[0].1;
      var note := Reported(k.q.frames[0], Closing);
      ClosingNotify(Popped(k), note, script);
      FrameReported(k, Closing);
      hide TraceInv, Notify;
      DrainKeepsTrace(Emit(Popped(k), note), if more == [] then [] else more[1..]);
    }
  }

  lemma OnUdpWriteKeepsTrace(k: Core, i: Input)
    requires FlagInv(k, None) && TraceInv(k) && k.port.on.udpWrite
    ensures TraceInv(OnUdpWrite(Fired(k, EvUdpWrite), i))
  {
    UdpWriteFired(k);
    FiredKeepsTrace(k, EvUdpWrite);
    var f := Fired(k, EvUdpWrite);
    hide FlagInv, TraceInv, ClosingReady, Fired, SendLoop, Drain, StartCleanup, AddUdpWrite;
    if k.f.closing {
      DrainKeepsTrace(f, i.more);
      var d := Drain(f, i.more);
      FlagsKeepTrace(d, d.f.(uwActive := false, uwPrimed := false));
      StartCleanupKeepsTrace(d.(f := d.f.(uwActive := false, uwPrimed := false)));
    } else {
      FlagsKeepTrace(f, f.f.(uwPrimed := false));
      var a := f.(f := f.f.(uwPrimed := false));
      SendLoopKeepsTrace(a, i.more);
      var b := SendLoop(a, i.more);
      FlagsKeepTrace(b, b.f.(uwPrimed := true));
      UdpRequestsKeepTrace(b.(f := b.f.(uwPrimed := true)));
    }
  }

  /** Every handler except the cleanup keeps the trace right, in every run of it. */
  lemma DispatchKeepsTrace(k: Core, ev: Ev, i: Input)
    requires FlagInv(k, None) && TraceInv(k) && Has(k.port.on, ev) && !ev.EvCleanup?
    ensures TraceInv(Dispatch(Fired(k, ev), ev, i))
  {
    FiredKeepsTrace(k, ev);
    hide FlagInv, TraceInv, Fired, OnRead, OnReadCb, OnWrite, OnWriteCb, OnAccept, OnConnect, OnConnectStart,
         OnUdpRead, OnUdpWrite;
    match ev
    case EvRead => OnReadKeepsTrace(Fired(k, ev));
    case EvReadCb => OnReadCbKeepsTrace(k, i);
    case EvWrite => OnWriteKeepsTrace(Fired(k, ev));
    case EvWriteCb => OnWriteCbKeepsTrace(k, i);
    case EvAccept => OnAcceptKeepsTrace(k, i);
    case EvConnect => OnConnectKeepsTrace(k, i);
    case EvConnectStart => OnConnectStartKeepsTrace(k, i);
    case EvUdpRead => OnUdpReadKeepsTrace(k, i);
    case EvUdpWrite => OnUdpWriteKeepsTrace(k, i);
  }
}
