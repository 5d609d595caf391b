/**
 * The laws of every run of a comm in a loop that runs any other events beside
 * it: exactly-once completion, the stream write and datagram queue laws, and
 * close safety.
 */
module CommLaws {
  import opened Seqs
  import Fde
  import opened FdeLists
  import opened FdeKernel
  import opened Comm
  import opened CommTraces
  import opened CommWorld
  import opened CommKernel
  import opened CommClosing
  import opened CommForgotten
  import opened CommBoundedClose

  // ------------------------------------------------------------------
  // Laws of every run of a new comm
  // ------------------------------------------------------------------

  /** A sound loop in which nobody watches the descriptor. */
  ghost predicate FreeFd(s: Loop, fd: int) {
    Sound(s) && forall e :: e in s.events && s.events[e].kind.Io? ==> s.events[e].fd != fd
  }

  /** The world after a run of a comm created in loop `s`. */
  function Reached(s: Loop, fd: int, closeCb: bool, ls: seq<WLabel>): World {
    Run(Created(s, fd, closeCb), ls)
  }

  lemma RunInv(s: Loop, fd: int, closeCb: bool, ls: seq<WLabel>)
    requires FreeFd(s, fd) && Valid(Created(s, fd, closeCb), ls)
    ensures WorldInv(Reached(s, fd, closeCb, ls))
  {
    hide Next, Enabled, WorldInv, LiveInv;
    CreatedInv(s, fd, closeCb);
    hide WorldInv, Run, Valid, Created;
    WorldInvariant(Created(s, fd, closeCb), ls);
  }

  lemma TraceOf(w: World)
    requires WorldInv(w)
    ensures Balanced(w.k.f, w.k.trace) && SliceSent(w.k.w, w.k.trace)
    ensures CleanupsQueued(w.k.trace) == One(w.k.f.cleanup)
    ensures !w.k.f.freed ==> FramesKept(w.k.q, w.k.trace) && CloseCalls(w.k.trace) == 0
    ensures w.k.f.freed ==> AcceptedFrames(w.k.trace) == ReportedFrames(w.k.trace)
    ensures w.k.f.cleanup ==> CloseReady(w.k.f)
  {
    hide Sound, Synced, OwnsFd, Gone, SliceSent, AcceptedFrames, ReportedFrames;
  }

  /**
   * Exactly-once completion: for read, write and connect, in every run,
   * accepted starts are the callbacks delivered plus one while still active.
   */
  lemma ExactlyOnceCompletion(s: Loop, fd: int, closeCb: bool, ls: seq<WLabel>)
    requires FreeFd(s, fd) && Valid(Created(s, fd, closeCb), ls)
    ensures Balanced(Reached(s, fd, closeCb, ls).k.f, Reached(s, fd, closeCb, ls).k.trace)
  {
    hide Next, Enabled;
    RunInv(s, fd, closeCb, ls);
    hide WorldInv, Reached, Valid, Created;
    TraceOf(Reached(s, fd, closeCb, ls));
  }

  /**
   * Stream write: the bytes taken by the kernel for the latest write are exactly
   * the buffer slice of length offset, every write callback counts exactly the
   * bytes taken, none says COMPLETED, and EOF means that the whole length went.
   */
  lemma StreamWriteLaw(s: Loop, fd: int, closeCb: bool, ls: seq<WLabel>)
    requires FreeFd(s, fd) && Valid(Created(s, fd, closeCb), ls)
    ensures SliceSent(Reached(s, fd, closeCb, ls).k.w, Reached(s, fd, closeCb, ls).k.trace)
  {
    hide Next, Enabled;
    RunInv(s, fd, closeCb, ls);
    hide WorldInv, Reached, Valid, Created, SliceSent;
    TraceOf(Reached(s, fd, closeCb, ls));
  }

  /** Closing, with no connect pending and nothing lost. */
  predicate NoConnect(w: World) {
    !w.k.f.freed ==> w.k.f.closing && !w.k.f.coActive && !w.k.lost
  }

  lemma NoConnectStep(w: World, wl: WLabel)
    requires WorldInv(w) && NoConnect(w) && Enabled(w, wl)
    ensures NoConnect(Next(w, wl))
  {
    hide Dispatch, DoCmd, Exec;
    if w.k.f.freed {
      FreedStays(w, wl);
    } else {
      hide LiveInv, TellsOnce, Next, Has;
      StepLost(w, wl);
      NoConnectOn(w);
      if !HandlesAny(w, wl) {
        IdleStep(w, wl);
      } else {
        var ev := EvOf(w.k.port.on.base, wl.l.e);
        FireSyncs(w, wl.l);
        ConnectOff(w.k.port.on, ev);
        if ev.EvCleanup? { CleanupStep(w, wl); } else { HandlerStep(w, wl, ev); }
      }
    }
  }

  /** A comm closed with no connect pending is never forgotten, in any later run. */
  lemma {:induction false} NoConnectNeverForgotten(w: World, ls: seq<WLabel>)
    requires WorldInv(w) && NoConnect(w) && Valid(w, ls)
    ensures NoConnect(Run(w, ls)) && !Forgotten(Run(w, ls))
    decreases |ls|
  {
    hide WorldInv, Next, Enabled, NoConnect;
    if ls != [] {
      var rest := ls[..|ls| - 1];
      NoConnectNeverForgotten(w, rest);
      WorldInvariant(w, rest);
      NoConnectStep(Run(w, rest), ls[|ls| - 1]);
    }
    WorldInvariant(w, ls);
    NotForgotten(Run(w, ls));
  }

  lemma NotForgotten(w: World)
    requires WorldInv(w) && NoConnect(w)
    ensures !Forgotten(w)
  {
    hide WorldInv;
    ForgottenIsLost(w);
  }

  /**
   * Datagram queue conservation: the frames accepted are the frames reported,
   * once each and in order, followed by the queue, whose length is the counter
   * and within the limit; a freed comm has reported them all.
   */
  lemma DatagramConservation(s: Loop, fd: int, closeCb: bool, ls: seq<WLabel>)
    requires FreeFd(s, fd) && Valid(Created(s, fd, closeCb), ls)
    ensures !Reached(s, fd, closeCb, ls).k.f.freed ==>
      FramesKept(Reached(s, fd, closeCb, ls).k.q, Reached(s, fd, closeCb, ls).k.trace)
    ensures Reached(s, fd, closeCb, ls).k.f.freed ==>
      AcceptedFrames(Reached(s, fd, closeCb, ls).k.trace) == ReportedFrames(Reached(s, fd, closeCb, ls).k.trace)
  {
    hide Next, Enabled;
    RunInv(s, fd, closeCb, ls);
    hide WorldInv, Reached, Valid, Created, FramesKept;
    TraceOf(Reached(s, fd, closeCb, ls));
  }

  /** The write-ready event is armed exactly when primed, and no frame waits without it. */
  ghost predicate NoneStranded(w: World) {
    var e := Id(w.k.port.on.base, EvUdpWrite);
    && e in w.loop.events
    && (w.k.f.uwPrimed <==> w.loop.events[e].active)
    && (w.k.q.frames != [] ==> w.k.f.uwPrimed)
  }

  lemma NoStrandedFrame(s: Loop, fd: int, closeCb: bool, ls: seq<WLabel>)
    requires FreeFd(s, fd) && Valid(Created(s, fd, closeCb), ls)
    ensures !Reached(s, fd, closeCb, ls).k.f.freed ==> NoneStranded(Reached(s, fd, closeCb, ls))
  {
    hide Next, Enabled;
    RunInv(s, fd, closeCb, ls);
    var w := Reached(s, fd, closeCb, ls);
    hide Run, Valid, Created, TraceInv, Sound, EndInv;
    if !w.k.f.freed {
      assert LiveEvent(w.loop, w.k.port.on.base, w.k.port.on.fd, w.k.port.on, EvUdpWrite);
    }
  }

  /** The event belongs to no list, no batch and no registration of the loop. */
  ghost predicate Unreachable(s: Loop, e: Fde.EventId) {
    && e !in s.events && e !in s.head && e !in s.cbHead && e !in s.tHead && e !in Batch(s)
    && forall k :: k in Fde.Effective(s) ==> Fde.Effective(s)[k].udata != e
  }

  lemma GoneUnreachable(s: Loop, base: nat, e: Fde.EventId)
    requires Sound(s) && KernelInv(s) && Gone(s, base) && Owned(base, e)
    ensures Unreachable(s, e)
  {
    assert e !in s.events;
    assert !Fde.IsActive(s, e) && !IsActiveCallback(s, e) && !IsActiveTimer(s, e);
    forall x | x in Batch(s) ensures x in s.events {
      assert BatchEntryOk(s, x);
    }
    forall k | k in Fde.Effective(s) ensures Fde.Effective(s)[k].udata != e {
      assert IsActiveIo(s, Fde.Effective(s)[k].udata);
    }
  }

  lemma {:induction false} CreateUpToKernel(s: Loop, fd: int, n: nat)
    requires Sound(s) && KernelInv(s) && n <= 10
    ensures KernelInv(CreateUpTo(s, fd, n)) && Batch(CreateUpTo(s, fd, n)) == Batch(s)
  {
    hide Has, KernelInv;
    if n > 0 {
      CreateUpToKernel(s, fd, n - 1);
      CreateUpToEffect(s, fd, n - 1);
      var a, ev := CreateUpTo(s, fd, n - 1), EvAt(n - 1);
      hide Sound, KernelInv, KindOf, EvAt;
      NextKeepsKernel(a, Fde.Call(Fde.Create(if IsCallback(ev) then -1 else fd, KindOf(ev), IsPersistent(ev))));
    }
  }

  lemma BatchFresh(s: Loop)
    requires Sound(s) && KernelInv(s)
    ensures forall e :: e in Batch(s) ==> e < s.nextId
  {
    SoundIdsFresh(s);
    forall e | e in Batch(s) ensures e < s.nextId {
      assert BatchEntryOk(s, e);
    }
  }

  lemma CreatedKernel(s: Loop, fd: int, closeCb: bool)
    requires FreeFd(s, fd) && KernelInv(s)
    ensures KernelWorld(Created(s, fd, closeCb))
  {
    hide WorldInv, KernelInv, Sound, CreateUpTo, Created, Batch;
    BatchFresh(s);
    CreatedInv(s, fd, closeCb);
    CreateUpToKernel(s, fd, 10);
    CreatedPlain(s, fd, closeCb);
  }

  /**
   * Close safety: in every run the cleanup is scheduled at most once, and only
   * when closing with all six kinds of operation inactive; the close callback is
   * made only when the comm is freed, then exactly once; and from then on no
   * list, batch or kernel registration leads to an event of the comm.
   */
  lemma CloseSafety(s: Loop, fd: int, closeCb: bool, ls: seq<WLabel>, e: Fde.EventId)
    requires FreeFd(s, fd) && KernelInv(s)
    requires Valid(Created(s, fd, closeCb), ls) && PoliteRun(Created(s, fd, closeCb), ls)
    ensures CleanupsQueued(Reached(s, fd, closeCb, ls).k.trace) == One(Reached(s, fd, closeCb, ls).k.f.cleanup)
    ensures Reached(s, fd, closeCb, ls).k.f.cleanup ==> CloseReady(Reached(s, fd, closeCb, ls).k.f)
    ensures CloseCalls(Reached(s, fd, closeCb, ls).k.trace) ==
      One(Reached(s, fd, closeCb, ls).k.f.freed && closeCb)
    ensures Reached(s, fd, closeCb, ls).k.f.freed ==>
      Owned(Reached(s, fd, closeCb, ls).k.port.on.base, e) ==> Unreachable(Reached(s, fd, closeCb, ls).loop, e)
  {
    hide Run, Valid, Created, PoliteRun, EndInv, LiveInv, KernelInv, Sound, Unreachable, CleanupsQueued, CloseCalls;
    var w := Created(s, fd, closeCb);
    CreatedKernel(s, fd, closeCb);
    CreatedPlain(s, fd, closeCb);
    KernelWorldInvariant(w, ls);
    SameCloseCb(w, ls);
    var r := Run(w, ls);
    TraceOf(r);
    if r.k.f.freed {
      FreedCloseCalls(r);
      if Owned(r.k.port.on.base, e) { GoneUnreachable(r.loop, r.k.port.on.base, e); }
    }
  }
}
