/**
 * What one handler or API call does to a comm that is closing: it ends its own
 * operation and no other, and tells the owner of a read or write once.
 */
module CommClosing {
  import opened Seqs
  import opened Comm
  import opened CommInvariants
  import opened CommTraces

  /** How often the owner of an operation was told that the comm is closing. */
  function ClosingCalls(t: Trace, op: Op): nat {
    match t
    case Nothing => 0
    case Then(b, n) => ClosingCalls(b, op) + (if n.Called? && n.op == op && n.status.Closing? then 1 else 0)
  }

  /** On a closing comm a handler ends its own operation and nothing else. */
  ghost predicate EndsOnly(k: Core, ev: Ev, i: Input, r: Core) {
    && r.f.closing && (k.f.cleanup ==> r.f.cleanup)
    && r.f.rActive == (k.f.rActive && !ev.EvReadCb?)
    && r.f.wActive == (k.f.wActive && !ev.EvWriteCb?)
    && r.f.aActive == (k.f.aActive && !ev.EvAccept?)
    && r.f.coActive == (k.f.coActive && !ev.EvConnectStart? && (ev.EvConnect? ==> i.io.InProgress?))
    && r.f.urActive == (k.f.urActive && !ev.EvUdpRead?)
    && r.f.uwActive == (k.f.uwActive && !ev.EvUdpWrite?)
    && r.f.uwPrimed == (k.f.uwPrimed && !ev.EvUdpWrite?)
    && (!ev.EvConnect? ==> r.port.on.connect == k.port.on.connect)
  }

  /** ... and tells the owner of a stream operation once. */
  ghost predicate TellsOnce(k: Core, ev: Ev, r: Core) {
    && ClosingCalls(r.trace, ReadOp) == ClosingCalls(k.trace, ReadOp) + One(ev.EvReadCb?)
    && ClosingCalls(r.trace, WriteOp) == ClosingCalls(k.trace, WriteOp) + One(ev.EvWriteCb?)
  }

  lemma CleanupNoteKeepsEnds(k: Core, ev: Ev, i: Input, r: Core)
    requires EndsOnly(k, ev, i, r) && TellsOnce(k, ev, r)
    ensures EndsOnly(k, ev, i, Emit(r.(f := r.f.(cleanup := true)), CleanupQueued))
    ensures TellsOnce(k, ev, Emit(r.(f := r.f.(cleanup := true)), CleanupQueued))
  {
  }

  lemma ReadFlagsKeepEnds(k: Core, ev: Ev, i: Input, r: Core)
    requires EndsOnly(k, ev, i, r) && TellsOnce(k, ev, r)
    ensures EndsOnly(k, ev, i, r.(f := r.f.(rRead := false, rReady := false)))
    ensures TellsOnce(k, ev, r.(f := r.f.(rRead := false, rReady := false)))
  {
  }

  lemma CleanupRequest(a: Core)
    ensures AddCleanup(a).f == a.f && AddCleanup(a).trace == a.trace
    ensures AddCleanup(a).port.on.connect == a.port.on.connect
    ensures DeleteRead(a).f == a.f && DeleteRead(a).trace == a.trace
    ensures DeleteRead(a).port.on.connect == a.port.on.connect
  {
    hide Asks;
  }

  /** The final check adds nothing to this. */
  lemma StartCleanupKeepsEnds(k: Core, ev: Ev, i: Input, r: Core)
    requires EndsOnly(k, ev, i, r) && TellsOnce(k, ev, r)
    ensures EndsOnly(k, ev, i, StartCleanup(r)) && TellsOnce(k, ev, StartCleanup(r))
  {
    hide EndsOnly, TellsOnce, AddCleanup;
    var a := Emit(r.(f := r.f.(cleanup := true)), CleanupQueued);
    CleanupNoteKeepsEnds(k, ev, i, r);
    CleanupRequest(a);
    RequestKeepsEnds(k, ev, i, a, AddCleanup(a));
  }

  lemma RequestKeepsEnds(k: Core, ev: Ev, i: Input, a: Core, r: Core)
    requires EndsOnly(k, ev, i, a) && TellsOnce(k, ev, a)
    requires r.f == a.f && r.trace == a.trace && (!ev.EvConnect? ==> r.port.on.connect == a.port.on.connect)
    ensures EndsOnly(k, ev, i, r) && TellsOnce(k, ev, r)
  {
  }

  lemma StopReadingKeepsEnds(k: Core, ev: Ev, i: Input, r: Core)
    requires EndsOnly(k, ev, i, r) && TellsOnce(k, ev, r)
    ensures EndsOnly(k, ev, i, StopReading(r)) && TellsOnce(k, ev, StopReading(r))
  {
    hide EndsOnly, TellsOnce, DeleteRead;
    CleanupRequest(r);
    RequestKeepsEnds(k, ev, i, r, DeleteRead(r));
    ReadFlagsKeepEnds(k, ev, i, DeleteRead(r));
  }

  lemma ClosingReadCbMarks(k: Core, i: Input)
    requires k.f.closing
    ensures EndsOnly(k, EvReadCb, i, Emit(k.(f := CalledOff(k.f, ReadOp)), Called(ReadOp, Closing, 0)))
    ensures TellsOnce(k, EvReadCb, Emit(k.(f := CalledOff(k.f, ReadOp)), Called(ReadOp, Closing, 0)))
    ensures CalledOff(k.f, ReadOp).closing && !CalledOff(k.f, ReadOp).rActive
  {
  }

  lemma ClosingReadCb(k: Core, i: Input)
    requires k.f.closing
    ensures EndsOnly(k, EvReadCb, i, OnReadCb(k, i)) && TellsOnce(k, EvReadCb, OnReadCb(k, i))
  {
    var a, note := k.(f := CalledOff(k.f, ReadOp)), Called(ReadOp, Closing, 0);
    ClosingReadCbMarks(k, i);
    hide Notify, StartCleanup, EndsOnly, TellsOnce, CalledOff, DeleteRead;
    ClosingNotify(a, note, i.script);
    StopReadingKeepsEnds(k, EvReadCb, i, Emit(a, note));
    var b := StopReading(Emit(a, note));
    assert !b.f.rActive;
    hide StopReading;
    StartCleanupKeepsEnds(k, EvReadCb, i, b);
    StopReadingKeepsEnds(k, EvReadCb, i, b);
  }

  lemma ClosingWriteCbMarks(k: Core, i: Input)
    requires k.f.closing
    ensures EndsOnly(k, EvWriteCb, i, Emit(k.(f := k.f.(wActive := false, wReady := false)), Called(WriteOp, Closing, k.w.offset)))
    ensures TellsOnce(k, EvWriteCb, Emit(k.(f := k.f.(wActive := false, wReady := false)), Called(WriteOp, Closing, k.w.offset)))
  {
  }

  lemma ClosingWriteCb(k: Core, i: Input)
    requires k.f.closing
    ensures EndsOnly(k, EvWriteCb, i, OnWriteCb(k, i)) && TellsOnce(k, EvWriteCb, OnWriteCb(k, i))
  {
    var a, note := k.(f := k.f.(wActive := false, wReady := false)), Called(WriteOp, Closing, k.w.offset);
    hide Notify, StartCleanup, EndsOnly, TellsOnce;
    ClosingWriteCbMarks(k, i);
    ClosingNotify(a, note, i.script);
    StartCleanupKeepsEnds(k, EvWriteCb, i, Emit(a, note));
  }

  lemma ClosingAcceptMarks(k: Core, i: Input)
    requires k.f.closing
    ensures EndsOnly(k, EvAccept, i, Emit(k.(f := k.f.(aActive := false)), Called(AcceptOp, Closing, 0)))
    ensures TellsOnce(k, EvAccept, Emit(k.(f := k.f.(aActive := false)), Called(AcceptOp, Closing, 0)))
  {
  }

  lemma ClosingAccept(k: Core, i: Input)
    requires k.f.closing
    ensures EndsOnly(k, EvAccept, i, OnAccept(k, i)) && TellsOnce(k, EvAccept, OnAccept(k, i))
  {
    var a, note := k.(f := k.f.(aActive := false)), Called(AcceptOp, Closing, 0);
    hide Notify, StartCleanup, EndsOnly, TellsOnce;
    ClosingAcceptMarks(k, i);
    ClosingNotify(a, note, i.script);
    StartCleanupKeepsEnds(k, EvAccept, i, Emit(a, note));
  }

  lemma ClosingConnectStartMarks(k: Core, i: Input)
    requires k.f.closing
    ensures EndsOnly(k, EvConnectStart, i, Emit(k.(f := k.f.(coActive := false)), Called(ConnectOp, Closing, 0)))
    ensures TellsOnce(k, EvConnectStart, Emit(k.(f := k.f.(coActive := false)), Called(ConnectOp, Closing, 0)))
  {
  }

  lemma ClosingConnectStart(k: Core, i: Input)
    requires k.f.closing
    ensures EndsOnly(k, EvConnectStart, i, OnConnectStart(k, i)) && TellsOnce(k, EvConnectStart, OnConnectStart(k, i))
  {
    var a, note := k.(f := k.f.(coActive := false)), Called(ConnectOp, Closing, 0);
    hide Notify, StartCleanup, EndsOnly, TellsOnce;
    ClosingConnectStartMarks(k, i);
    ClosingNotify(a, note, i.script);
    StartCleanupKeepsEnds(k, EvConnectStart, i, Emit(a, note));
  }

  lemma ClosingUdpReadMarks(k: Core, i: Input)
    requires k.f.closing
    ensures EndsOnly(k, EvUdpRead, i, Emit(k.(f := k.f.(urActive := false)), Called(UdpReadOp, Closing, 0)))
    ensures TellsOnce(k, EvUdpRead, Emit(k.(f := k.f.(urActive := false)), Called(UdpReadOp, Closing, 0)))
  {
  }

  lemma ClosingUdpRead(k: Core, i: Input)
    requires k.f.closing
    ensures EndsOnly(k, EvUdpRead, i, OnUdpRead(k, i)) && TellsOnce(k, EvUdpRead, OnUdpRead(k, i))
  {
    var a, note := k.(f := k.f.(urActive := false)), Called(UdpReadOp, Closing, 0);
    hide Notify, StartCleanup, EndsOnly, TellsOnce;
    ClosingUdpReadMarks(k, i);
    ClosingNotify(a, note, i.script);
    StartCleanupKeepsEnds(k, EvUdpRead, i, Emit(a, note));
  }

  lemma ClosingConnectMarks(k: Core, i: Input, s: Status, lost: bool)
    requires k.f.closing
    ensures i.io.InProgress? ==> EndsOnly(k, EvConnect, i, k) && TellsOnce(k, EvConnect, k)
    ensures !i.io.InProgress? ==>
      EndsOnly(k, EvConnect, i, Emit(k.(f := k.f.(coActive := false), lost := lost), Called(ConnectOp, s, 0)))
    ensures !s.Closing? ==>
      TellsOnce(k, EvConnect, Emit(k.(f := k.f.(coActive := false), lost := lost), Called(ConnectOp, s, 0)))
  {
  }

  lemma ClosingConnect(k: Core, i: Input)
    requires k.f.closing
    ensures EndsOnly(k, EvConnect, i, OnConnect(k, i)) && TellsOnce(k, EvConnect, OnConnect(k, i))
  {
    hide Notify, EndsOnly, TellsOnce, AddConnect;
    var s, lost := if i.io.Done? then Completed else Error, k.lost || CloseReady(k.f.(coActive := false));
    ClosingConnectMarks(k, i, s, lost);
    if i.io.InProgress? {
      AddConnectChanges(k);
      RequestKeepsEnds(k, EvConnect, i, k, AddConnect(k));
    } else {
      ClosingNotify(k.(f := k.f.(coActive := false), lost := lost), Called(ConnectOp, s, 0), i.script);
    }
  }

  lemma AddConnectChanges(k: Core)
    ensures AddConnect(k).f == k.f && AddConnect(k).trace == k.trace
  {
    hide Asks;
  }

  lemma {:induction false} DrainTells(k: Core, more: seq<(Outcome, Script)>)
    requires k.f.closing
    ensures ClosingCalls(Drain(k, more).trace, ReadOp) == ClosingCalls(k.trace, ReadOp)
    ensures ClosingCalls(Drain(k, more).trace, WriteOp) == ClosingCalls(k.trace, WriteOp)
    ensures Drain(k, more).f == k.f && Drain(k, more).port == k.port
    decreases |k.q.frames|
  {
    if k.q.frames != [] {
      var script := if more == [] then [] else more[0].1;
      var note := Reported(k.q.frames[0], Closing);
      ClosingNotify(Popped(k), note, script);
      hide Notify;
      DrainTells(Emit(Popped(k), note), if more == [] then [] else more[1..]);
    }
  }

  lemma ClosingUdpWriteMarks(k: Core, i: Input, d: Core)
    requires k.f.closing && d.f == k.f && d.port == k.port
    requires ClosingCalls(d.trace, ReadOp) == ClosingCalls(k.trace, ReadOp)
    requires ClosingCalls(d.trace, WriteOp) == ClosingCalls(k.trace, WriteOp)
    ensures EndsOnly(k, EvUdpWrite, i, d.(f := d.f.(uwActive := false, uwPrimed := false)))
    ensures TellsOnce(k, EvUdpWrite, d.(f := d.f.(uwActive := false, uwPrimed := false)))
  {
  }

  lemma ClosingUdpWrite(k: Core, i: Input)
    requires k.f.closing
    ensures EndsOnly(k, EvUdpWrite, i, OnUdpWrite(k, i)) && TellsOnce(k, EvUdpWrite, OnUdpWrite(k, i))
  {
    hide Drain, StartCleanup, EndsOnly, TellsOnce, ClosingCalls, SendLoop, AddUdpWrite;
    DrainTells(k, i.more);
    var d := Drain(k, i.more);
    ClosingUdpWriteMarks(k, i, d);
    var a := d.(f := d.f.(uwActive := false, uwPrimed := false));
    assert UdpWriteIo(a, i) == a;
    hide UdpWriteIo;
    StartCleanupKeepsEnds(k, EvUdpWrite, i, a);
  }

  lemma ClosingRead(k: Core, i: Input)
    requires k.f.closing
    ensures EndsOnly(k, EvRead, i, OnRead(k)) && TellsOnce(k, EvRead, OnRead(k))
  {
    var a := k.(f := k.f.(rReady := true));
    assert EndsOnly(k, EvRead, i, a) && TellsOnce(k, EvRead, a);
    hide EndsOnly, TellsOnce;
    RequestKeepsEnds(k, EvRead, i, a, AddReadCb(a));
  }

  lemma ClosingWrite(k: Core, i: Input)
    requires k.f.closing
    ensures EndsOnly(k, EvWrite, i, OnWrite(k)) && TellsOnce(k, EvWrite, OnWrite(k))
  {
    var a := k.(f := k.f.(wReady := true));
    assert EndsOnly(k, EvWrite, i, a) && TellsOnce(k, EvWrite, a);
    hide EndsOnly, TellsOnce;
    RequestKeepsEnds(k, EvWrite, i, a, AddWriteCb(a));
  }

  lemma ClosingDispatch(k: Core, ev: Ev, i: Input)
    requires k.f.closing && !ev.EvCleanup?
    ensures EndsOnly(k, ev, i, Dispatch(k, ev, i))
    ensures TellsOnce(k, ev, Dispatch(k, ev, i))
  {
    hide EndsOnly, TellsOnce, OnRead, OnReadCb, OnWrite, OnWriteCb, OnAccept, OnConnect, OnConnectStart, OnUdpRead,
         OnUdpWrite;
    match ev
    case EvRead => ClosingRead(k, i);
    case EvReadCb => ClosingReadCb(k, i);
    case EvWrite => ClosingWrite(k, i);
    case EvWriteCb => ClosingWriteCb(k, i);
    case EvAccept => ClosingAccept(k, i);
    case EvConnect => ClosingConnect(k, i);
    case EvConnectStart => ClosingConnectStart(k, i);
    case EvUdpRead => ClosingUdpRead(k, i);
    case EvUdpWrite => ClosingUdpWrite(k, i);
  }

  /** An API call on a closing comm does nothing. */
  lemma ClosingApi(k: Core, cmd: UserCmd)
    requires k.f.closing && Allowed(k.f, cmd)
    ensures DoCmd(k, cmd) == k
  {
  }
}
