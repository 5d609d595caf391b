/**
 * struct fde_comm and its functions in their own imperative form, working on an
 * event loop object. Every method is tied to the function of module Comm that
 * specifies it, and the loop to the requests made of it, so the laws proved of
 * all runs are laws of this code.
 */
module CommObject {
  import opened Seqs
  import Fde
  import opened FdeLists
  import opened FdeLoop
  import opened Comm
  import opened CommWorld

  class FdeComm {
    const loop: EventLoop
    const base: nat
    const closeCb: bool
    var f: Flags
    var w: Transfer
    var q: SendQueue
    ghost var port: Port
    ghost var trace: Trace
    ghost var lost: bool
    ghost var entry: Loop   // the loop when the requests in `port` began

    ghost function View(): Core
      reads this
    {
      Core(f, w, q, port, trace, lost)
    }

    /** The loop is the one at entry with the requests of the port carried out. */
    ghost predicate InStep()
      reads this, loop, loop.changes
    {
      && loop.Inv() && port.on.base == base && port.on.closeCb == closeCb
      && port.start.base == base && port.start.closeCb == closeCb
      && loop.Snap() == Exec(entry, base, port.acts)
    }

    ghost predicate Attached()
      reads this, loop, loop.changes
    {
      InStep() && Synced(loop.Snap(), port.on.fd, port.on) && OwnsFd(loop.Snap(), base, port.on.fd)
    }

    /** comm_create, in a loop where nobody watches the descriptor. */
    constructor (h: EventLoop, fd: int, cb: bool)
      requires h.Inv()
      requires forall e :: e in h.events && h.events[e].kind.Io? ==> h.events[e].fd != fd
      modifies h, h.changes
      ensures loop == h && base == old(h.nextId) && Attached()
      ensures World(h.Snap(), View()) == Created(old(h.Snap()), fd, cb)
      ensures WorldInv(World(h.Snap(), View()))
    {
      loop, base, closeCb := h, h.nextId, cb;
      f := Flags(0, false, false, false, false, false, false, false, false, false,
                 false, false, false, false, false);
      w, q := Transfer([], 0, 0, 0), SendQueue(0, 0, []);
      port, trace, lost := NewPort(NoneOn(h.nextId, fd, cb)), Nothing, false;
      new;
      ghost var s := h.Snap();
      assert View() == NewComm(fd, s.nextId, cb);
      CreatedInv(s, fd, cb);
      hide WorldInv, KindOf, EvAt, NewComm, Sound;
      for n := 0 to 10
        invariant h.Inv() && h.Snap() == CreateUpTo(s, fd, n)
        invariant View() == NewComm(fd, s.nextId, cb) && loop == h && base == s.nextId && closeCb == cb
      {
        var ev := EvAt(n);
        var _ := h.Create(if IsCallback(ev) then -1 else fd, KindOf(ev), IsPersistent(ev));
      }
      entry := h.Snap();
      CreatedParts(s, fd, cb, World(h.Snap(), View()));
    }

    /** The call into the loop. */
    method Touch(act: Act)
      requires loop.Inv() && !act.Release?
      requires base + Index(act.ev) in loop.events && !loop.events[base + Index(act.ev)].kind.Timer?
      modifies loop, loop.changes
      ensures loop.Inv() && loop.Snap() == ExecAct(old(loop.Snap()), base, act)
    {
      if act.Arm? {
        loop.Add(base + Index(act.ev));
      } else {
        loop.Delete(base + Index(act.ev));
      }
    }

    /** fde_add or fde_delete of one of the comm's events. */
    method Request(act: Act)
      requires Attached() && !act.Release?
      modifies this`port, loop, loop.changes
      ensures Attached()
      ensures View() == Asked(old(View()), act)
    {
      hide Synced, OwnsFd, Sound, ExecAct, Turn, CleanAct, CleanAfter, OnAfter, Exec;
      ghost var s, p := loop.Snap(), port;
      OwnEventLive(s, p.on.fd, p.on, act);
      RequestInStep(s, p.on.fd, p.on, act);
      TurnHas(p.on, act.ev, act.Arm?, act.ev);
      ExecSnoc(entry, base, p.acts, act);
      hide After;
      Touch(act);
      port := Ask(p, act, After(p.on, act), CleanAct(p.on, act));
    }

    // fde_add and fde_delete of each event; these are the requests comm.c makes.

    method AddRead()
      requires Attached()
      modifies this`port, loop, loop.changes
      ensures Attached() && View() == Comm.AddRead(old(View()))
    {
      hide Asks, Exec, Synced, OwnsFd, Sound;
      assert Asked(View(), Arm(EvRead)) == Comm.AddRead(View());
      hide Asked, Comm.AddRead;
      Request(Arm(EvRead));
    }

    method AddReadCb()
      requires Attached()
      modifies this`port, loop, loop.changes
      ensures Attached() && View() == Comm.AddReadCb(old(View()))
    {
      hide Asks, Exec, Synced, OwnsFd, Sound;
      assert Asked(View(), Arm(EvReadCb)) == Comm.AddReadCb(View());
      hide Asked, Comm.AddReadCb;
      Request(Arm(EvReadCb));
    }

    method AddWrite()
      requires Attached()
      modifies this`port, loop, loop.changes
      ensures Attached() && View() == Comm.AddWrite(old(View()))
    {
      hide Asks, Exec, Synced, OwnsFd, Sound;
      assert Asked(View(), Arm(EvWrite)) == Comm.AddWrite(View());
      hide Asked, Comm.AddWrite;
      Request(Arm(EvWrite));
    }

    method AddWriteCb()
      requires Attached()
      modifies this`port, loop, loop.changes
      ensures Attached() && View() == Comm.AddWriteCb(old(View()))
    {
      hide Asks, Exec, Synced, OwnsFd, Sound;
      assert Asked(View(), Arm(EvWriteCb)) == Comm.AddWriteCb(View());
      hide Asked, Comm.AddWriteCb;
      Request(Arm(EvWriteCb));
    }

    method AddCleanup()
      requires Attached()
      modifies this`port, loop, loop.changes
      ensures Attached() && View() == Comm.AddCleanup(old(View()))
    {
      hide Asks, Exec, Synced, OwnsFd, Sound;
      assert Asked(View(), Arm(EvCleanup)) == Comm.AddCleanup(View());
      hide Asked, Comm.AddCleanup;
      Request(Arm(EvCleanup));
    }

    method AddAccept()
      requires Attached()
      modifies this`port, loop, loop.changes
      ensures Attached() && View() == Comm.AddAccept(old(View()))
    {
      hide Asks, Exec, Synced, OwnsFd, Sound;
      assert Asked(View(), Arm(EvAccept)) == Comm.AddAccept(View());
      hide Asked, Comm.AddAccept;
      Request(Arm(EvAccept));
    }

    method AddConnect()
      requires Attached()
      modifies this`port, loop, loop.changes
      ensures Attached() && View() == Comm.AddConnect(old(View()))
    {
      hide Asks, Exec, Synced, OwnsFd, Sound;
      assert Asked(View(), Arm(EvConnect)) == Comm.AddConnect(View());
      hide Asked, Comm.AddConnect;
      Request(Arm(EvConnect));
    }

    method AddConnectStart()
      requires Attached()
      modifies this`port, loop, loop.changes
      ensures Attached() && View() == Comm.AddConnectStart(old(View()))
    {
      hide Asks, Exec, Synced, OwnsFd, Sound;
      assert Asked(View(), Arm(EvConnectStart)) == Comm.AddConnectStart(View());
      hide Asked, Comm.AddConnectStart;
      Request(Arm(EvConnectStart));
    }

    method AddUdpRead()
      requires Attached()
      modifies this`port, loop, loop.changes
      ensures Attached() && View() == Comm.AddUdpRead(old(View()))
    {
      hide Asks, Exec, Synced, OwnsFd, Sound;
      assert Asked(View(), Arm(EvUdpRead)) == Comm.AddUdpRead(View());
      hide Asked, Comm.AddUdpRead;
      Request(Arm(EvUdpRead));
    }

    method AddUdpWrite()
      requires Attached()
      modifies this`port, loop, loop.changes
      ensures Attached() && View() == Comm.AddUdpWrite(old(View()))
    {
      hide Asks, Exec, Synced, OwnsFd, Sound;
      assert Asked(View(), Arm(EvUdpWrite)) == Comm.AddUdpWrite(View());
      hide Asked, Comm.AddUdpWrite;
      Request(Arm(EvUdpWrite));
    }

    method DeleteRead()
      requires Attached()
      modifies this`port, loop, loop.changes
      ensures Attached() && View() == Comm.DeleteRead(old(View()))
    {
      hide Asks, Exec, Synced, OwnsFd, Sound;
      assert Asked(View(), Disarm(EvRead)) == Comm.DeleteRead(View());
      hide Asked, Comm.DeleteRead;
      Request(Disarm(EvRead));
    }

    method DeleteWrite()
      requires Attached()
      modifies this`port, loop, loop.changes
      ensures Attached() && View() == Comm.DeleteWrite(old(View()))
    {
      hide Asks, Exec, Synced, OwnsFd, Sound;
      assert Asked(View(), Disarm(EvWrite)) == Comm.DeleteWrite(View());
      hide Asked, Comm.DeleteWrite;
      Request(Disarm(EvWrite));
    }

    /** comm_start_cleanup */
    method StartCleanup()
      requires Attached()
      modifies this`f, this`w, this`q, this`port, this`trace, loop, loop.changes
      ensures Attached() && View() == Comm.StartCleanup(old(View()))
    {
      hide Asks, Exec, Synced, OwnsFd, Sound, OnAfter, CleanAfter;
      if !f.closing {
        return;
      }
      if f.cleanup {
        return;
      }
      if !CloseReady(f) {
        return;
      }
      f := f.(cleanup := true);
      trace := Then(trace, CleanupQueued);
      hide Comm.AddCleanup;
      AddCleanup();
    }

    /** The read half of comm_close. */
    method CloseReadSide()
      requires Attached()
      modifies this`f, this`w, this`q, this`port, this`trace, loop, loop.changes
      ensures Attached() && View() == Comm.CloseReadSide(old(View()))
    {
      hide Asks, Exec, Synced, OwnsFd, Sound, OnAfter, CleanAfter, Comm.AddReadCb, Comm.DeleteRead;
      if f.rActive {
        AddReadCb();
      } else if f.rRead {
        f := f.(rRead := false);
        DeleteRead();
      }
    }

    /** The write half of comm_close. */
    method CloseWriteSide()
      requires Attached()
      modifies this`f, this`w, this`q, this`port, this`trace, loop, loop.changes
      ensures Attached() && View() == Comm.CloseWriteSide(old(View()))
    {
      hide Asks, Exec, Synced, OwnsFd, Sound, OnAfter, CleanAfter, Comm.AddWriteCb, Comm.DeleteWrite;
      if f.wActive {
        AddWriteCb();
      } else if f.wWrite {
        f := f.(wWrite := false);
        DeleteWrite();
      }
    }

    /** comm_close */
    method Close()
      requires Attached()
      modifies this`f, this`w, this`q, this`port, this`trace, loop, loop.changes
      ensures Attached() && View() == CommClose(old(View()))
    {
      hide Asks, Exec, Synced, OwnsFd, Sound, OnAfter, CleanAfter, Comm.CloseReadSide, Comm.CloseWriteSide,
           Comm.StartCleanup, CloseReady;
      if f.closing {
        return;
      }
      f := f.(closing := true);
      CloseReadSide();
      CloseWriteSide();
      if !CloseReady(f) {
        return;
      }
      StartCleanup();
    }

    /** The part of comm_read that makes the read active. */
    method StartReading()
      requires Attached()
      modifies this`f, this`port, loop, loop.changes
      ensures Attached() && View() == ReadStarted(old(View()))
    {
      hide Asks, Exec, Synced, OwnsFd, Sound, OnAfter, CleanAfter, Comm.AddRead;
      f := f.(rActive := true);
      if !f.rRead {
        f := f.(rRead := true);
        AddRead();
      }
    }

    /** comm_read; it returns 1 on success. */
    method Read() returns (ret: int)
      requires Attached()
      modifies this`f, this`w, this`q, this`port, this`trace, loop, loop.changes
      ensures Attached() && View() == CommRead(old(View()))
      ensures ret == if old(f.rActive) then -1 else 1
    {
      hide Asks, Exec, Synced, OwnsFd, Sound, OnAfter, CleanAfter, Comm.AddReadCb, ReadStarted;
      if f.rActive {
        return -1;
      }
      trace := Then(trace, Started(ReadOp, 0));
      StartReading();
      if f.rReady {
        AddReadCb();
      }
      return 1;
    }

    /** The part of comm_write that makes the write active. */
    method StartWriting()
      requires Attached()
      modifies this`f, this`port, loop, loop.changes
      ensures Attached() && View() == WriteStarted(old(View()))
    {
      hide Asks, Exec, Synced, OwnsFd, Sound, OnAfter, CleanAfter, Comm.AddWrite;
      if !f.wWrite {
        AddWriteFrame(View(), f.(wActive := true, wWrite := true));
        AddWrite();
        f := f.(wWrite := true);
      }
      f := f.(wActive := true);
    }

    /** comm_write */
    method Write(buf: seq<Byte>, start: int, len: int) returns (ret: int)
      requires Attached()
      modifies this`f, this`w, this`q, this`port, this`trace, loop, loop.changes
      ensures Attached() && View() == CommWrite(old(View()), buf, start, len)
      ensures ret == if old(f.wActive) then -1 else 0
    {
      hide Asks, Exec, Synced, OwnsFd, Sound, OnAfter, CleanAfter, Comm.AddWriteCb, Comm.AddWrite;
      if f.wActive {
        return -1;
      }
      w := Transfer(buf, start, 0, len);
      trace := Then(trace, Started(WriteOp, len));
      hide WriteStarted;
      StartWriting();
      if f.wReady {
        AddWriteCb();
      }
      return 0;
    }

    /** comm_listen */
    method Listen() returns (ret: int)
      requires Attached()
      modifies this`f, this`w, this`q, this`port, this`trace, loop, loop.changes
      ensures Attached() && View() == CommListen(old(View()))
      ensures ret == if old(f.aActive) then -1 else 0
    {
      hide Asks, Exec, Synced, OwnsFd, Sound, OnAfter, CleanAfter;
      if f.aActive {
        return -1;
      }
      trace := Then(trace, Started(AcceptOp, 0));
      AddAccept();
      f := f.(aActive := true);
      return 0;
    }

    /** comm_connect */
    method Connect(addrFits: bool) returns (ret: int)
      requires Attached()
      modifies this`f, this`w, this`q, this`port, this`trace, loop, loop.changes
      ensures Attached() && View() == CommConnect(old(View()), addrFits)
      ensures ret == if old(f.coActive) || !addrFits then -1 else 0
    {
      hide Asks, Exec, Synced, OwnsFd, Sound, OnAfter, CleanAfter, Comm.AddConnectStart;
      if f.coActive {
        return -1;
      }
      if !addrFits {
        return -1;
      }
      f := f.(coActive := true);
      trace := Then(trace, Started(ConnectOp, 0));
      AddConnectStart();
      return 0;
    }

    /** comm_udp_read */
    method UdpRead(maxlen: int) returns (ret: int)
      requires Attached()
      modifies this`f, this`w, this`q, this`port, this`trace, loop, loop.changes
      ensures Attached() && View() == CommUdpRead(old(View()), maxlen)
      ensures ret == if old(f.urActive) then -1 else 0
    {
      hide Asks, Exec, Synced, OwnsFd, Sound, OnAfter, CleanAfter, Comm.AddUdpRead;
      if f.urActive {
        return -1;
      }
      f := f.(urActive := true, urMaxlen := maxlen);
      trace := Then(trace, Started(UdpReadOp, 0));
      AddUdpRead();
      return 0;
    }

    /** comm_udp_write_setup */
    method UdpWriteSetup(max: int) returns (ret: int)
      requires Attached()
      modifies this`f, this`w, this`q, this`port, this`trace, loop, loop.changes
      ensures Attached() && View() == CommUdpWriteSetup(old(View()), max)
      ensures ret == if old(f.uwActive) then -1 else 0
    {
      hide Asks, Exec, Synced, OwnsFd, Sound, OnAfter, CleanAfter;
      if f.uwActive {
        return -1;
      }
      f := f.(uwActive := true, uwPrimed := false);
      q := q.(max := max, qlen := 0);
      return 0;
    }

    /** comm_udp_write */
    method UdpWrite(fr: Frame) returns (ret: int)
      requires Attached()
      modifies this`f, this`w, this`q, this`port, this`trace, loop, loop.changes
      ensures Attached() && View() == CommUdpWrite(old(View()), fr)
      ensures ret == if old(TakesFrame(View())) then 0 else -1
    {
      hide Asks, Exec, Synced, OwnsFd, Sound, OnAfter, CleanAfter, Comm.AddUdpWrite;
      if !f.uwActive || f.closing {
        return -1;
      }
      if q.qlen >= q.max {
        return -1;
      }
      q := q.(frames := q.frames + [fr], qlen := q.qlen + 1);
      trace := Then(trace, Queued(fr));
      if !f.uwPrimed {
        f := f.(uwPrimed := true);
        AddUdpWrite();
      }
      return 0;
    }

    /** One call of the API. */
    method Call(cmd: UserCmd)
      requires Attached()
      modifies this`f, this`w, this`q, this`port, this`trace, loop, loop.changes
      ensures Attached() && View() == DoCmd(old(View()), cmd)
    {
      hide Asks, Exec, Synced, OwnsFd, Sound, OnAfter, CleanAfter, CommClose, CommRead, CommWrite, CommListen,
           CommConnect, CommUdpRead, CommUdpWriteSetup, CommUdpWrite;
      match cmd
      case Close => Close();
      case Read => var _ := Read();
      case Write(buf, start, len) => var _ := Write(buf, start, len);
      case Listen => var _ := Listen();
      case Connect(addrFits) => var _ := Connect(addrFits);
      case UdpRead(maxlen) => var _ := UdpRead(maxlen);
      case UdpWriteSetup(max) => var _ := UdpWriteSetup(max);
      case UdpWrite(fr) => var _ := UdpWrite(fr);
    }

    /** A user callback. */
    method Callback(script: Script)
      requires Attached()
      modifies this`f, this`w, this`q, this`port, this`trace, loop, loop.changes
      ensures Attached() && View() == RunScript(old(View()), script)
    {
      hide Asks, Exec, Synced, OwnsFd, Sound, OnAfter, CleanAfter, DoCmd, Allowed;
      ghost var k := View();
      var i := 0;
      assert script[i..] == script;
      while i < |script|
        invariant 0 <= i <= |script| && Attached()
        invariant RunScript(View(), script[i..]) == RunScript(k, script)
      {
        assert script[i..][0] == script[i] && script[i..][1..] == script[i + 1..];
        if Allowed(f, script[i]) {
          Call(script[i]);
        }
        i := i + 1;
      }
    }

    /** The owner is told, and its callback runs. */
    method Tell(ghost note: Note, script: Script)
      requires Attached()
      modifies this`f, this`w, this`q, this`port, this`trace, loop, loop.changes
      ensures Attached() && View() == Notify(old(View()), note, script)
    {
      hide Asks, Exec, Synced, OwnsFd, Sound, OnAfter, CleanAfter, RunScript;
      trace := Then(trace, note);
      Callback(script);
    }

    /** An operation is over: its flags are cleared and its owner is told. */
    method Conclude(cleared: Flags, ghost note: Note, script: Script)
      requires Attached()
      modifies this`f, this`w, this`q, this`port, this`trace, loop, loop.changes
      ensures Attached() && View() == Notify(old(View()).(f := cleared), note, script)
    {
      hide Asks, Exec, Synced, OwnsFd, Sound, OnAfter, CleanAfter, Notify;
      f := cleared;
      Tell(note, script);
    }

    /** What a handler does first on a closing comm; the handler ends here if that was the last operation. */
    method CallOff(cleared: Flags, ghost note: Note, script: Script) returns (over: bool)
      requires Attached()
      modifies this`f, this`w, this`q, this`port, this`trace, loop, loop.changes
      ensures Attached()
      ensures over == CloseReady(Notify(old(View()).(f := cleared), note, script).f)
      ensures View() == if over then Comm.StartCleanup(Notify(old(View()).(f := cleared), note, script))
                        else Notify(old(View()).(f := cleared), note, script)
    {
      hide Asks, Exec, Synced, OwnsFd, Sound, OnAfter, CleanAfter, Notify, Comm.StartCleanup, CloseReady;
      Conclude(cleared, note, script);
      over := CloseReady(f);
      if over {
        StartCleanup();
      }
    }

    /** comm_cb_read */
    method OnRead()
      requires Attached()
      modifies this`f, this`w, this`q, this`port, this`trace, loop, loop.changes
      ensures Attached() && View() == Comm.OnRead(old(View()))
    {
      hide Asks, Exec, Synced, OwnsFd, Sound, OnAfter, CleanAfter, Comm.AddReadCb;
      f := f.(rReady := true);
      if !f.rActive {
        return;
      }
      AddReadCb();
    }

    /** fde_delete of the read event, and the flags that go with it. */
    method StopReading()
      requires Attached()
      modifies this`f, this`w, this`q, this`port, this`trace, loop, loop.changes
      ensures Attached() && View() == Comm.StopReading(old(View()))
    {
      hide Asks, Exec, Synced, OwnsFd, Sound, OnAfter, CleanAfter, Comm.DeleteRead;
      DeleteRead();
      f := f.(rRead := false, rReady := false);
    }

    /** comm_cb_read_cb, once it is past the closing check */
    method ReadIo(i: Input)
      requires Attached()
      modifies this`f, this`w, this`q, this`port, this`trace, loop, loop.changes
      ensures Attached() && View() == Comm.ReadIo(old(View()), i)
    {
      hide Asks, Exec, Synced, OwnsFd, Sound, OnAfter, CleanAfter, Comm.StopReading, Notify;
      if !f.rActive {
        StopReading();
        return;
      }
      if i.io.Again? {
        return;
      }
      if i.io.Done? && i.io.n > 0 {
        f := f.(rActive := false);
        Tell(Called(ReadOp, Completed, i.io.n), i.script);
      } else {
        StopReading();
        f := f.(rActive := false);
        Tell(if i.io.Done? then Called(ReadOp, Eof, 0) else Called(ReadOp, Error, -1), i.script);
      }
    }

    /** comm_cb_read_cb */
    method OnReadCb(i: Input)
      requires Attached()
      modifies this`f, this`w, this`q, this`port, this`trace, loop, loop.changes
      ensures Attached() && View() == Comm.OnReadCb(old(View()), i)
    {
      hide Asks, Exec, Synced, OwnsFd, Sound, OnAfter, CleanAfter, Comm.StopReading, Notify, Comm.ReadIo,
           Comm.StartCleanup, CloseReady, CalledOff;
      if f.closing {
        Conclude(CalledOff(f, ReadOp), Called(ReadOp, Closing, 0), i.script);
        StopReading();
        if CloseReady(f) {
          StartCleanup();
          return;
        }
      }
      ReadIo(i);
    }

    /** comm_cb_write */
    method OnWrite()
      requires Attached()
      modifies this`f, this`w, this`q, this`port, this`trace, loop, loop.changes
      ensures Attached() && View() == Comm.OnWrite(old(View()))
    {
      hide Asks, Exec, Synced, OwnsFd, Sound, OnAfter, CleanAfter, Comm.AddWriteCb;
      f := f.(wReady := true);
      if !f.wActive {
        return;
      }
      AddWriteCb();
    }

    /** comm_cb_write_complete */
    method WriteComplete(ret: int, script: Script)
      requires Attached()
      modifies this`f, this`w, this`q, this`port, this`trace, loop, loop.changes
      ensures Attached() && View() == Comm.WriteComplete(old(View()), ret, script)
    {
      hide Asks, Exec, Synced, OwnsFd, Sound, OnAfter, CleanAfter, Notify;
      if ret >= 0 && w.offset < w.len {
        return;
      }
      f := f.(wActive := false);
      var s := if ret < 0 then Error else if ret == 0 then Eof else Completed;
      Tell(Called(WriteOp, s, w.offset), script);
    }

    /** comm_cb_write_cb, once it is past the closing check */
    method WriteIo(i: Input)
      requires Attached()
      modifies this`f, this`w, this`q, this`port, this`trace, loop, loop.changes
      ensures Attached() && View() == Comm.WriteIo(old(View()), i)
    {
      hide Asks, Exec, Synced, OwnsFd, Sound, OnAfter, CleanAfter, Comm.WriteComplete, Slice;
      if !f.wActive || !f.wReady {
        return;
      }
      match i.io
      case Again =>
      case Done(n) =>
        var ret := Min(n, w.len - w.offset);
        if ret > 0 {
          trace := Then(trace, Sent(Slice(w, ret)));
          w := w.(offset := w.offset + ret);
        } else {
          WriteComplete(ret, i.script);
        }
      case _ => WriteComplete(-1, i.script);
    }

    /** comm_cb_write_cb */
    method OnWriteCb(i: Input)
      requires Attached()
      modifies this`f, this`w, this`q, this`port, this`trace, loop, loop.changes
      ensures Attached() && View() == Comm.OnWriteCb(old(View()), i)
    {
      hide Asks, Exec, Synced, OwnsFd, Sound, OnAfter, CleanAfter, Notify, Comm.WriteIo, Comm.StartCleanup,
           CloseReady, CalledOff;
      if f.closing {
        var over := CallOff(CalledOff(f, WriteOp), Called(WriteOp, Closing, w.offset), i.script);
        if over {
          return;
        }
      }
      WriteIo(i);
    }

    /** The loop over accept(); `more` holds its results until the first failure. */
    method AcceptAll(more: seq<(Outcome, Script)>)
      requires Attached()
      modifies this`f, this`w, this`q, this`port, this`trace, loop, loop.changes
      ensures Attached() && View() == AcceptLoop(old(View()), more)
    {
      hide Asks, Exec, Synced, OwnsFd, Sound, OnAfter, CleanAfter, Notify;
      ghost var k := View();
      var i := 0;
      assert more[i..] == more;
      while i < |more|
        invariant 0 <= i <= |more| && Attached()
        invariant AcceptLoop(View(), more[i..]) == AcceptLoop(k, more)
      {
        assert more[i..][0] == more[i] && more[i..][1..] == more[i + 1..];
        Tell(Called(AcceptOp, Completed, 0), more[i].1);
        i := i + 1;
      }
    }

    /** comm_cb_accept, once it is past the closing check */
    method AcceptIo(i: Input)
      requires Attached()
      modifies this`f, this`w, this`q, this`port, this`trace, loop, loop.changes
      ensures Attached() && View() == Comm.AcceptIo(old(View()), i)
    {
      hide Asks, Exec, Synced, OwnsFd, Sound, OnAfter, CleanAfter, Comm.AddAccept, AcceptLoop, Notify;
      if !f.aActive {
        return;
      }
      AcceptAll(i.more);
      AddAccept();
      if i.transient {
        return;
      }
      Tell(Called(AcceptOp, Error, -1), i.script);
    }

    /** comm_cb_accept */
    method OnAccept(i: Input)
      requires Attached()
      modifies this`f, this`w, this`q, this`port, this`trace, loop, loop.changes
      ensures Attached() && View() == Comm.OnAccept(old(View()), i)
    {
      hide Asks, Exec, Synced, OwnsFd, Sound, OnAfter, CleanAfter, Notify, Comm.AcceptIo, Comm.StartCleanup,
           CloseReady, CalledOff;
      if f.closing {
        var over := CallOff(CalledOff(f, AcceptOp), Called(AcceptOp, Closing, 0), i.script);
        if over {
          return;
        }
      }
      AcceptIo(i);
    }

    /** comm_cb_connect */
    method OnConnect(i: Input)
      requires Attached()
      modifies this`f, this`w, this`q, this`port, this`trace, this`lost, loop, loop.changes
      ensures Attached() && View() == Comm.OnConnect(old(View()), i)
    {
      hide Asks, Exec, Synced, OwnsFd, Sound, OnAfter, CleanAfter, Notify, Comm.AddConnect;
      if i.io.InProgress? {
        AddConnect();
      } else {
        f := f.(coActive := false);
        lost := lost || CloseReady(f);
        Tell(Called(ConnectOp, if i.io.Done? then Completed else Error, 0), i.script);
      }
    }

    /** comm_cb_connect_start, once it is past the closing check */
    method ConnectIo(i: Input)
      requires Attached()
      modifies this`f, this`w, this`q, this`port, this`trace, loop, loop.changes
      ensures Attached() && View() == Comm.ConnectIo(old(View()), i)
    {
      hide Asks, Exec, Synced, OwnsFd, Sound, OnAfter, CleanAfter, Notify, Comm.AddConnect;
      if !f.coActive {
        return;
      }
      if i.io.InProgress? {
        AddConnect();
        return;
      }
      f := f.(coActive := false);
      Tell(Called(ConnectOp, if i.io.Done? then Completed else Error, 0), i.script);
    }

    /** comm_cb_connect_start */
    method OnConnectStart(i: Input)
      requires Attached()
      modifies this`f, this`w, this`q, this`port, this`trace, loop, loop.changes
      ensures Attached() && View() == Comm.OnConnectStart(old(View()), i)
    {
      hide Asks, Exec, Synced, OwnsFd, Sound, OnAfter, CleanAfter, Notify, Comm.ConnectIo, Comm.StartCleanup,
           CloseReady, CalledOff;
      if f.closing {
        var over := CallOff(CalledOff(f, ConnectOp), Called(ConnectOp, Closing, 0), i.script);
        if over {
          return;
        }
      }
      ConnectIo(i);
    }

    /** comm_cb_udp_read, once it is past the closing check */
    method UdpReadIo(i: Input)
      requires Attached()
      modifies this`f, this`w, this`q, this`port, this`trace, loop, loop.changes
      ensures Attached() && View() == Comm.UdpReadIo(old(View()), i)
    {
      hide Asks, Exec, Synced, OwnsFd, Sound, OnAfter, CleanAfter, Notify, Comm.AddUdpRead;
      if !f.urActive {
        return;
      }
      AddUdpRead();
      Tell(Called(UdpReadOp, if i.io.Done? then Completed else Error, 0), i.script);
    }

    /** comm_cb_udp_read */
    method OnUdpRead(i: Input)
      requires Attached()
      modifies this`f, this`w, this`q, this`port, this`trace, loop, loop.changes
      ensures Attached() && View() == Comm.OnUdpRead(old(View()), i)
    {
      hide Asks, Exec, Synced, OwnsFd, Sound, OnAfter, CleanAfter, Notify, Comm.UdpReadIo, Comm.StartCleanup,
           CloseReady, CalledOff;
      if f.closing {
        var over := CallOff(CalledOff(f, UdpReadOp), Called(UdpReadOp, Closing, 0), i.script);
        if over {
          return;
        }
      }
      UdpReadIo(i);
    }

    /** The head of the send queue goes back to its owner. */
    method Return(s: Status, script: Script)
      requires Attached() && q.frames != []
      modifies this`f, this`w, this`q, this`port, this`trace, loop, loop.changes
      ensures Attached() && View() == Report(old(View()), s, script)
    {
      hide Asks, Exec, Synced, OwnsFd, Sound, OnAfter, CleanAfter, Notify;
      ghost var fr := q.frames[0];
      q := q.(frames := q.frames[1..], qlen := q.qlen - 1);
      Tell(Reported(fr, s), script);
    }

    /** The closing loop of comm_cb_udp_write. */
    method DrainAll(more: seq<(Outcome, Script)>)
      requires Attached() && f.closing
      modifies this`f, this`w, this`q, this`port, this`trace, loop, loop.changes
      ensures Attached() && View() == Drain(old(View()), more)
    {
      hide Asks, Exec, Synced, OwnsFd, Sound, OnAfter, CleanAfter, Report;
      ghost var k := View();
      var rest := more;
      while q.frames != []
        invariant Attached() && f.closing && Drain(View(), rest) == Drain(k, more)
        decreases |q.frames|
      {
        var script := if rest == [] then [] else rest[0].1;
        ReportClosing(View(), script);
        Return(Closing, script);
        rest := if rest == [] then [] else rest[1..];
      }
    }

    /** The closing part of comm_cb_udp_write. */
    method StopSending(more: seq<(Outcome, Script)>)
      requires Attached() && f.closing
      modifies this`f, this`w, this`q, this`port, this`trace, loop, loop.changes
      ensures Attached()
      ensures View() == Drain(old(View()), more).(f := SendingOff(Drain(old(View()), more).f))
    {
      hide Asks, Exec, Synced, OwnsFd, Sound, OnAfter, CleanAfter, Drain, SendingOff;
      DrainAll(more);
      f := SendingOff(f);
    }

    /** The sendto() loop; `more` holds the results until the socket buffer is full. */
    method SendAll(more: seq<(Outcome, Script)>)
      requires Attached()
      modifies this`f, this`w, this`q, this`port, this`trace, loop, loop.changes
      ensures Attached() && View() == SendLoop(old(View()), more)
    {
      hide Asks, Exec, Synced, OwnsFd, Sound, OnAfter, CleanAfter, Report;
      ghost var k := View();
      var i := 0;
      assert more[i..] == more;
      while q.frames != [] && i < |more|
        invariant 0 <= i <= |more| && Attached()
        invariant SendLoop(View(), more[i..]) == SendLoop(k, more)
        decreases |more| - i
      {
        assert more[i..][0] == more[i] && more[i..][1..] == more[i + 1..];
        match more[i].0 {
          case Done(n) => Return(if n == q.frames[0].len then Completed else Error, more[i].1);
          case Failed => Return(Error, more[i].1);
          case _ => return;
        }
        i := i + 1;
      }
    }

    /** comm_cb_udp_write, once it is past the closing check */
    method UdpWriteIo(i: Input)
      requires Attached()
      modifies this`f, this`w, this`q, this`port, this`trace, loop, loop.changes
      ensures Attached() && View() == Comm.UdpWriteIo(old(View()), i)
    {
      hide Asks, Exec, Synced, OwnsFd, Sound, OnAfter, CleanAfter, SendLoop, Comm.AddUdpWrite;
      if !f.uwActive || !f.uwPrimed {
        return;
      }
      if q.frames == [] {
        f := f.(uwPrimed := false);
        return;
      }
      f := f.(uwPrimed := false);
      SendAll(i.more);
      if q.frames != [] {
        f := f.(uwPrimed := true);
        AddUdpWrite();
      }
    }

    /** comm_cb_udp_write */
    method OnUdpWrite(i: Input)
      requires Attached()
      modifies this`f, this`w, this`q, this`port, this`trace, loop, loop.changes
      ensures Attached() && View() == Comm.OnUdpWrite(old(View()), i)
    {
      hide Asks, Exec, Synced, OwnsFd, Sound, OnAfter, CleanAfter, Drain, Comm.UdpWriteIo, Comm.StartCleanup,
           CloseReady, SendingOff;
      if f.closing {
        StopSending(i.more);
        if CloseReady(f) {
          StartCleanup();
          return;
        }
      }
      UdpWriteIo(i);
    }

    /** fde_free of one of the comm's events. */
    method FreeOne(ev: Ev)
      requires InStep() && Id(base, ev) in loop.events
      modifies this`port, loop, loop.changes
      ensures InStep() && View() == Released(old(View()), ev)
      ensures loop.events.Keys == old(loop.events.Keys) - {Id(base, ev)}
    {
      hide Synced, OwnsFd, Sound, OnAfter, CleanAfter, CleanAct, Exec, ExecAct, Turn;
      ghost var s, p, act := loop.Snap(), port, Release(ev);
      ReleaseStep(s, base, ev);
      ExecSnoc(entry, base, p.acts, act);
      TurnHas(p.on, ev, false, ev);
      ReleaseIsDirty(p.on, ev);
      hide After, Fde.FreeEvent;
      loop.Free(base + Index(ev));
      port := Ask(p, act, After(p.on, act), false);
    }

    method FreeAll(evs: seq<Ev>)
      requires InStep() && NoDup(evs) && forall ev :: ev in evs ==> Id(base, ev) in loop.events
      modifies this`port, loop, loop.changes
      ensures InStep() && View() == ReleaseAll(old(View()), evs)
    {
      hide Asks, Exec, Synced, OwnsFd, Sound, OnAfter, CleanAfter, Released, ReleaseAll;
      ghost var k := View();
      var n := 0;
      assert evs[n..] == evs;
      while n < |evs|
        invariant 0 <= n <= |evs| && InStep()
        invariant ReleaseAll(View(), evs[n..]) == ReleaseAll(k, evs)
        invariant forall m :: n <= m < |evs| ==> Id(base, evs[m]) in loop.events
      {
        assert evs[n..][0] == evs[n] && evs[n..][1..] == evs[n + 1..];
        ReleaseFirst(View(), evs[n..]);
        FreeOne(evs[n]);
        n := n + 1;
      }
      ReleaseNone(View());
    }

    /** comm_cb_cleanup */
    method OnCleanup(i: Input)
      requires Attached()
      modifies this`f, this`w, this`q, this`port, this`trace, loop, loop.changes
      ensures InStep() && View() == Comm.OnCleanup(old(View()), i)
    {
      hide Asks, Exec, Synced, OwnsFd, Sound, OnAfter, CleanAfter, Notify, ReleaseAll;
      if closeCb {
        Tell(CloseCalled, i.script);
      }
      f := f.(freed := true);
      OwnEventsLive(loop.Snap(), port.on.fd, port.on);
      hide Id;
      FreeAll(ALL_EVENTS);
    }

    /** The callback the loop has for an event of the comm. */
    method Handler(ev: Ev, i: Input)
      requires Attached()
      modifies this`f, this`w, this`q, this`port, this`trace, this`lost, loop, loop.changes
      ensures InStep() && View() == Dispatch(old(View()), ev, i)
    {
      hide Exec, Synced, OwnsFd, Sound, OnAfter, CleanAfter, Comm.OnRead, Comm.OnReadCb, Comm.OnWrite, Comm.OnWriteCb,
           Comm.OnCleanup, Comm.OnAccept, Comm.OnConnect, Comm.OnConnectStart, Comm.OnUdpRead, Comm.OnUdpWrite;
      match ev
      case EvRead => OnRead();
      case EvReadCb => OnReadCb(i);
      case EvWrite => OnWrite();
      case EvWriteCb => OnWriteCb(i);
      case EvCleanup => OnCleanup(i);
      case EvAccept => OnAccept(i);
      case EvConnect => OnConnect(i);
      case EvConnectStart => OnConnectStart(i);
      case EvUdpRead => OnUdpRead(i);
      case EvUdpWrite => OnUdpWrite(i);
    }

    /** A call of the API from outside any handler is one step of the two together. */
    method Api(cmd: UserCmd)
      requires loop.Inv() && port.on.base == base && port.on.closeCb == closeCb
      requires WorldInv(World(loop.Snap(), View())) && Enabled(World(loop.Snap(), View()), WLabel.Api(cmd))
      modifies this, loop, loop.changes
      ensures InStep() && World(loop.Snap(), View()) == Next(old(World(loop.Snap(), View())), WLabel.Api(cmd))
      ensures WorldInv(World(loop.Snap(), View()))
    {
      hide LiveInv, WorldInv, Exec, Synced, OwnsFd, Sound, OnAfter, CleanAfter, DoCmd, Allowed;
      ghost var w0 := World(loop.Snap(), View());
      NextKeepsInv(w0, WLabel.Api(cmd));
      ApiStep(w0, cmd);
      LiveParts(w0);
      hide Enabled, Next;
      port := NewPort(port.on);
      entry := loop.Snap();
      NothingAsked(entry, base);
      Call(cmd);
    }

    /**
     * The loop has just made the step `l` that fires one of the comm's events:
     * with the handler it is one step of the two together.
     */
    method Run(ev: Ev, i: Input, ghost s: Loop, ghost l: Fde.Label)
      requires loop.Inv() && port.on.base == base && port.on.closeCb == closeCb
      requires WorldInv(World(s, View())) && Enabled(World(s, View()), Step(l, i)) && RunsHandler(World(s, View()), l)
      requires ev == EvOf(base, l.e) && loop.Snap() == Fde.Next(s, l)
      modifies this, loop, loop.changes
      ensures InStep() && World(loop.Snap(), View()) == Next(old(World(s, View())), Step(l, i))
      ensures WorldInv(World(loop.Snap(), View()))
    {
      hide LiveInv, WorldInv, Exec, Synced, OwnsFd, Sound, OnAfter, CleanAfter, Dispatch, Fde.Next, Fde.Enabled;
      ghost var w0 := World(s, View());
      NextKeepsInv(w0, Step(l, i));
      HandlerRuns(w0, l, i, ev);
      LiveParts(w0);
      FireSyncs(w0, l);
      hide Enabled, Next, RunsHandler, Has;
      TurnHas(port.on, ev, false, ev);
      hide Turn;
      port := Fired(w0.k, ev).port;
      entry := loop.Snap();
      NothingAsked(entry, base);
      Handler(ev, i);
    }
  }

  /** The comm after a request. */
  ghost function Asked(k: Core, act: Act): Core {
    Asks(k, act, After(k.port.on, act), CleanAct(k.port.on, act))
  }

  lemma ReportClosing(k: Core, script: Script)
    requires k.f.closing && k.q.frames != []
    ensures Report(k, Closing, script).f.closing
    ensures Report(k, Closing, script).q.frames == k.q.frames[1..]
  {
    ClosingScript(Emit(k.(q := k.q.(frames := k.q.frames[1..], qlen := k.q.qlen - 1)),
                       Reported(k.q.frames[0], Closing)), script);
  }

  ghost function Released(k: Core, ev: Ev): Core {
    Asks(k, Release(ev), After(k.port.on, Release(ev)), false)
  }

  lemma ReleaseFirst(k: Core, evs: seq<Ev>)
    requires evs != []
    ensures ReleaseAll(k, evs) == ReleaseAll(Released(k, evs[0]), evs[1..])
  {
  }

  lemma NothingAsked(s: Loop, base: nat)
    ensures Exec(s, base, []) == s
  {
  }

  lemma ReleaseNone(k: Core)
    ensures ReleaseAll(k, []) == k
  {
  }

  lemma ReleaseStep(s: Loop, base: nat, ev: Ev)
    requires Sound(s) && Id(base, ev) in s.events
    ensures ExecAct(s, base, Release(ev)) == Fde.FreeEvent(s, Id(base, ev))
    ensures ExecAct(s, base, Release(ev)).events.Keys == s.events.Keys - {Id(base, ev)}
  {
    ExecRelease(s, base, ev);
    hide Sound;
  }

  lemma ReleaseIsDirty(on: On, ev: Ev)
    ensures !CleanAct(on, Release(ev))
  {
  }

  lemma OwnEventsLive(s: Loop, fd: int, on: On)
    requires Synced(s, fd, on)
    ensures NoDup(ALL_EVENTS) && forall ev :: ev in ALL_EVENTS ==> Id(on.base, ev) in s.events
  {
    forall ev ensures Id(on.base, ev) in s.events {
      assert LiveEvent(s, on.base, fd, on, ev);
    }
  }

  lemma ApiStep(w: World, cmd: UserCmd)
    requires Enabled(w, WLabel.Api(cmd))
    ensures !w.k.f.freed
    ensures Next(w, WLabel.Api(cmd)) ==
      World(Exec(w.loop, w.k.port.on.base, DoCmd(w.k.(port := NewPort(w.k.port.on)), cmd).port.acts),
            DoCmd(w.k.(port := NewPort(w.k.port.on)), cmd))
  {
    hide DoCmd, Exec, Allowed;
  }

  lemma HandlerRuns(w: World, l: Fde.Label, i: Input, ev: Ev)
    requires Enabled(w, Step(l, i)) && RunsHandler(w, l) && ev == EvOf(w.k.port.on.base, l.e)
    ensures !w.k.f.freed && Fde.Enabled(w.loop, l)
    ensures Next(w, Step(l, i)) ==
      World(Exec(Fde.Next(w.loop, l), w.k.port.on.base, Dispatch(Fired(w.k, ev), ev, i).port.acts),
            Dispatch(Fired(w.k, ev), ev, i))
  {
    hide Dispatch, Exec, Fde.Next, Fde.Enabled;
  }

  lemma LiveParts(w: World)
    requires WorldInv(w) && !w.k.f.freed
    ensures LiveInv(w)
    ensures Synced(w.loop, w.k.port.on.fd, w.k.port.on) && OwnsFd(w.loop, w.k.port.on.base, w.k.port.on.fd)
  {
  }

  /** The flags have no part in a request. */
  lemma AddWriteFrame(k: Core, f: Flags)
    ensures AddWrite(k.(f := f)) == AddWrite(k).(f := f)
  {
    hide Asks;
  }

  lemma CreatedParts(s: Loop, fd: int, closeCb: bool, w: World)
    requires WorldInv(Created(s, fd, closeCb)) && w == Created(s, fd, closeCb)
    ensures !w.k.f.freed && LiveInv(w) && w.k.port.on.base == s.nextId && w.k.port.on.fd == fd
    ensures w.k.port.acts == [] && w.k.port.start.base == s.nextId
    ensures w.k.port.start.closeCb == closeCb && w.k.port.on.closeCb == closeCb
  {
    NewCommFresh(fd, s.nextId, closeCb);
    hide LiveInv, EndInv;
  }

  lemma OwnEventLive(s: Loop, fd: int, on: On, act: Act)
    requires Synced(s, fd, on)
    ensures Id(on.base, act.ev) in s.events && !s.events[Id(on.base, act.ev)].kind.Timer?
  {
    assert LiveEvent(s, on.base, fd, on, act.ev);
  }

  /** A request carried out keeps the loop in step with the comm. */
  lemma RequestInStep(s: Loop, fd: int, on: On, act: Act)
    requires Synced(s, fd, on) && OwnsFd(s, on.base, fd) && !act.Release?
    ensures Id(on.base, act.ev) in s.events
    ensures ExecAct(s, on.base, act) ==
      if act.Arm? then Fde.AddEvent(s, Id(on.base, act.ev)) else Fde.DeleteEvent(s, Id(on.base, act.ev))
    ensures Synced(ExecAct(s, on.base, act), fd, After(on, act))
    ensures OwnsFd(ExecAct(s, on.base, act), on.base, fd)
  {
    var e := Id(on.base, act.ev);
    assert LiveEvent(s, on.base, fd, on, act.ev);
    if act.Arm? { AddChanges(s, e); } else { DeleteChanges(s, e); }
    hide Synced, OwnsFd, Fde.AddEvent, Fde.DeleteEvent, Turn;
    SwitchedSyncs(s, ExecAct(s, on.base, act), fd, on, act.ev, act.Arm?);
  }

  lemma ExecSnoc(s: Loop, base: nat, acts: seq<Act>, act: Act)
    ensures Exec(s, base, acts + [act]) == ExecAct(Exec(s, base, acts), base, act)
  {
    assert (acts + [act])[..|acts|] == acts;
  }
}
