/**
 * struct conn and its functions in their imperative form. Inside a callback of
 * the comm the connection works on the comm directly, and the script that stands
 * for this in ConnLife is proved to do the same; from outside, and with the
 * loop, each method is the step of ConnLife.
 */
module ConnObject {
  import Fde
  import opened FdeLists
  import opened FdeLoop
  import opened Comm
  import opened CommWorld
  import opened CommForgotten
  import opened CommLaws
  import opened CommObject
  import opened ConnLife

  class ServerConn {
    const comm: FdeComm
    const ev: Fde.EventId
    const buf: array<Byte>
    const limit: nat
    var state: ConnState
    var hasComm: bool
    var written: int
    ghost var past: seq<ConnState>
    ghost var closes: nat
    ghost var freed: nat

    ghost function View(): Conn
      reads this
    {
      Conn(state, past, hasComm, written, closes, freed)
    }

    /** Loop, comm and connection. */
    ghost function Sys(): System
      requires comm.loop.Inv()
      reads this, comm, comm.loop, comm.loop.changes, buf
    {
      System(World(comm.loop.Snap(), comm.View()), ev, View(), buf[..], limit)
    }

    /** conn_new with a buffer of that size, filled with digits */
    constructor (h: EventLoop, fd: int, size: nat, limit: nat)
      requires h.Inv()
      requires forall e :: e in h.events && h.events[e].kind.Io? ==> h.events[e].fd != fd
      modifies h, h.changes
      ensures h.Inv() && fresh(comm) && comm.loop == h && buf.Length == size
      ensures forall i :: 0 <= i < size ==> buf[i] == i % 10 + 48
      ensures Sys() == NewConn(old(h.Snap()), fd, buf[..], limit) && Life(Sys())
    {
      hide NewConn, Sound, Life;
      NewConnLife(h.Snap(), fd, DigitsOf(size), limit);
      var b := new Byte[size];
      FillDigits(b);
      assert b[..] == DigitsOf(size);
      var fc, e := OpenComm(h, fd, b[..], limit);
      buf, comm, ev := b, fc, e;
      this.limit := limit;
      state, hasComm, written, past, closes, freed := Running, true, 0, [Running], 0, 0;
    }

    /** conn_close, called by the connection inside a callback of its comm */
    method Close()
      requires state != Ending ==> comm.Attached()
      modifies this`state, this`hasComm, this`past, this`closes, comm, comm.loop, comm.loop.changes
      ensures View() == CloseConn(old(View())).0
      ensures old(state) == Ending ==> unchanged(comm) && unchanged(comm.loop) && unchanged(comm.loop.changes)
      ensures old(state) != Ending ==>
        comm.Attached() && comm.View() == RunScript(old(comm.View()), CloseConn(old(View())).1)
    {
      hide CommClose, Exec, Synced, OwnsFd, Sound;
      CloseScript(comm.View());
      hide RunScript;
      if state == Ending {
        return;
      }
      state, past := Ending, past + [Ending];
      closes := closes + 1;
      comm.Close();
      hasComm := false;
    }

    /** conn_close, called by the owner at any time before the FREEING notice */
    method OwnerClose()
      requires comm.loop.Inv() && comm.port.on.base == comm.base && comm.port.on.closeCb == comm.closeCb
      requires Life(Sys()) && freed == 0
      modifies this`state, this`hasComm, this`past, this`closes, comm, comm.loop, comm.loop.changes
      ensures comm.loop.Inv() && Sys() == Do(old(Sys()), Label.OwnerClose) && Life(Sys())
    {
      hide WorldInv, CommWorld.Next, CommWorld.Enabled, Sound, Life, Do;
      OwnerCloseKeeps(Sys());
      OwnerCloseIs(Sys());
      if state == Ending {
        return;
      }
      state, past := Ending, past + [Ending];
      closes := closes + 1;
      comm.Api(UserCmd.Close);
      hasComm := false;
    }

    /** conn_write_cb, with the owner's answer to an error */
    method WriteCb(s: Status, n: int, now: bool)
      requires comm.Attached() && (state == Running ==> OnlyWrites(comm.f) && !comm.f.closing)
      modifies this`state, this`hasComm, this`past, this`closes, this`written, comm, comm.loop, comm.loop.changes
      ensures comm.Attached() && View() == OnWritten(old(View()), s, n, limit, buf[..], now).0
      ensures comm.View() == RunScript(old(comm.View()), OnWritten(old(View()), s, n, limit, buf[..], now).1)
    {
      hide CommClose, CommWrite, Exec, Synced, OwnsFd, Sound;
      NoScript(comm.View());
      if state == Running { WriteScript(comm.View(), buf[..]); }
      hide RunScript;
      if state != Running {
        return;
      }
      if s != Completed {
        Fail(now);
        return;
      }
      written := written + n;
      if limit != 0 && written > limit {
        Close();
        return;
      }
      if n != buf.Length {
        Fail(now);
        return;
      }
      var _ := comm.Write(buf[..], 0, buf.Length);
    }

    /** The connection enters ERROR and its owner hears of it. */
    method Fail(now: bool)
      requires comm.Attached()
      modifies this`state, this`hasComm, this`past, this`closes, comm, comm.loop, comm.loop.changes
      ensures comm.Attached() && View() == HearsError(Enter(old(View()), Errored), now).0
      ensures comm.View() == RunScript(old(comm.View()), HearsError(Enter(old(View()), Errored), now).1)
    {
      hide Exec, Synced, OwnsFd, Sound;
      NoScript(comm.View());
      hide RunScript;
      state, past := Errored, past + [Errored];
      if now {
        Close();
      }
    }

    /** client_ev_close_cb: the comm is gone, and the connection's own cleanup is queued for the next round. */
    method CommClosed()
      requires comm.loop.Inv() && WorldInv(Sys().w) && !Owned(comm.port.on.base, ev)
      requires EventOk(comm.loop.Snap(), ev, false, freed)
      modifies this`hasComm, comm.loop, comm.loop.changes
      ensures comm.loop.Inv() && Sys() == CommGone(old(Sys()).(c := old(View()).(hasComm := false)))
      ensures WorldInv(Sys().w) && EventOk(comm.loop.Snap(), ev, true, freed)
      ensures IsActiveCallback(comm.loop.Snap(), ev)
    {
      CommGoneKeeps(Sys());
      hide WorldInv, Sound, Fde.AddEvent;
      hasComm := false;
      comm.loop.Add(ev);
    }

    /** client_ev_cleanup_cb, called by the loop: the one FREEING notice, after which the event is gone. */
    method Tidy(ghost s: System, ghost i: Input, ghost now: bool)
      requires comm.loop.Inv() && Life(s) && CanDo(s, Turn(Fde.FireCb(ev), i, now)) && s.ev == ev
      requires Sys() == s.(w := World(Fde.Next(s.w.loop, Fde.FireCb(ev)), s.w.k))
      modifies this`freed, comm.loop, comm.loop.changes
      ensures comm.loop.Inv() && Sys() == Do(s, Turn(Fde.FireCb(ev), i, now)) && Life(Sys())
      ensures s.w.k.f.freed && s.c.freed == 0 && freed == 1 && ev !in comm.loop.events
    {
      NotOurHandler(s);
      TidyTurn(s, Fde.FireCb(ev), i, now);
      TidyStep(s, Fde.FireCb(ev), i, now);
      hide Life, Sound, Fde.Next, CommWorld.Next, CommWorld.Enabled;
      freed := freed + 1;
      comm.loop.Free(ev);
    }
  }

  lemma NotOurHandler(s: System)
    requires Life(s)
    ensures !RunsHandler(s.w, Fde.FireCb(s.ev))
  {
  }

  lemma TidyStep(s: System, l: Fde.Label, i: Input, now: bool)
    requires Life(s) && CanDo(s, Turn(l, i, now)) && !RunsHandler(s.w, l) && Tidies(s, l)
    ensures s.ev in Fde.Next(s.w.loop, l).events
    ensures Do(s, Turn(l, i, now)) ==
      s.(w := World(Fde.FreeEvent(Fde.Next(s.w.loop, l), s.ev), s.w.k), c := s.c.(freed := s.c.freed + 1))
    ensures Life(Do(s, Turn(l, i, now))) && s.c.freed == 0 ==> s.ev !in Do(s, Turn(l, i, now)).w.loop.events
  {
    DeleteChanges(s.w.loop, s.ev);
    hide Fde.DeleteEvent, WorldInv;
  }

  /** The digits conn_new writes into the buffer. */
  function DigitsOf(size: nat): (r: seq<Byte>) {
    seq(size, i requires 0 <= i < size => i % 10 + 48)
  }

  /** The loop in conn_new that fills the buffer. */
  method FillDigits(buf: array<Byte>)
    modifies buf
    ensures forall i :: 0 <= i < buf.Length ==> buf[i] == i % 10 + 48
  {
    for i := 0 to buf.Length
      invariant forall k :: 0 <= k < i ==> buf[k] == k % 10 + 48
    {
      buf[i] := i % 10 + 48;
    }
  }

  /** The comm and the event of a new connection, with the first write under way. */
  method OpenComm(h: EventLoop, fd: int, buf: seq<Byte>, ghost limit: nat) returns (fc: FdeComm, ev: Fde.EventId)
    requires h.Inv()
    requires forall e :: e in h.events && h.events[e].kind.Io? ==> h.events[e].fd != fd
    modifies h, h.changes
    ensures h.Inv() && fresh(fc) && fc.loop == h
    ensures NewConn(old(h.Snap()), fd, buf, limit) ==
      System(World(h.Snap(), fc.View()), ev, Conn(Running, [Running], true, 0, 0, 0), buf, limit)
  {
    hide Created, Opened, NewConn, Next, Enabled, Exec, Synced, OwnsFd, Sound, WorldInv;
    ghost var s := h.Snap();
    FirstStep(s, fd, buf, limit);
    fc := new FdeComm(h, fd, true);
    ev := h.Create(-1, Fde.Callback, false);
    fc.Api(Write(buf, 0, |buf|));
  }

  /** conn_new is comm_create, fde_create and the first comm_write. */
  lemma FirstStep(s: Loop, fd: int, buf: seq<Byte>, limit: nat)
    requires FreeFd(s, fd)
    ensures Opened(s, fd) == World(Fde.CreateEvent(Created(s, fd, true).loop, -1, Fde.Callback, false), Created(s, fd, true).k)
    ensures WorldInv(Opened(s, fd)) && Created(s, fd, true).loop.nextId == s.nextId + 10
    ensures Enabled(Opened(s, fd), Api(Write(buf, 0, |buf|)))
    ensures NewConn(s, fd, buf, limit) ==
      System(Next(Opened(s, fd), Api(Write(buf, 0, |buf|))), s.nextId + 10,
             Conn(Running, [Running], true, 0, 0, 0), buf, limit)
    ensures Opened(s, fd).k.port.on.closeCb && Opened(s, fd).k.port.on.base == s.nextId
  {
    OpenedIs(s, fd);
    hide Created, Opened, Exec, DoCmd, Allowed, Sound, WorldInv, CreateUpTo, IsNew;
    OpenedLife(s, fd);
    CreatedPlain(s, fd, true);
    CreatedFlags(s, fd);
    CreateUpToEffect(s, fd, 10);
    FirstWrite(Opened(s, fd).k.(port := NewPort(Opened(s, fd).k.port.on)), buf);
  }

  lemma OpenedIs(s: Loop, fd: int)
    ensures Opened(s, fd) == World(Fde.CreateEvent(Created(s, fd, true).loop, -1, Fde.Callback, false), Created(s, fd, true).k)
  {
    hide Created;
  }

  lemma NoScript(k: Core)
    ensures RunScript(k, []) == k
  {
  }

  lemma WriteScript(k: Core, buf: seq<Byte>)
    requires OnlyWrites(k.f) && !k.f.closing
    ensures RunScript(k, [Write(buf, 0, |buf|)]) == CommWrite(k, buf, 0, |buf|)
  {
    hide CommWrite;
    assert [Write(buf, 0, |buf|)][1..] == [];
  }
}
