/**
 * Kernel agreement for a comm inside a loop: the comm's own requests always
 * respect the loop's discipline, so agreement holds in every run in which the
 * other users of the loop respect it.
 */
module CommKernel {
  import opened Seqs
  import Fde
  import opened FdeLists
  import opened FdeKernel
  import opened Comm
  import opened CommInvariants
  import opened CommTraces
  import opened CommWorld

  /** A one-shot event of the comm whose delivery is pending is still active. */
  ghost predicate BatchOurs(s: Loop, base: nat) {
    forall e :: e in Batch(s) && Owned(base, e) && e in s.events && !s.events[e].persist ==> s.events[e].active
  }

  lemma RivalSlots(on: On, a: Ev, b: Ev)
    requires a != b && Has(on, a) && KindOf(a) == KindOf(b) && KindOf(b).Io?
    ensures RivalOn(on, b)
  {
  }

  lemma ArmDisciplined(s: Loop, fd: int, on: On, ev: Ev)
    requires Synced(s, fd, on) && OwnsFd(s, on.base, fd) && CleanAct(on, Arm(ev)) && BatchOurs(s, on.base)
    ensures Disciplined(s, Fde.Call(Fde.Add(Id(on.base, ev))))
  {
    var e := Id(on.base, ev);
    IdsDiffer(on.base, ev, ev);
    assert LiveEvent(s, on.base, fd, on, ev);
    hide Has, RivalOn, KindOf;
    if !s.events[e].active && s.events[e].kind.Io? {
      IoOnOurFd(ev, s.events[e], fd);
      forall f | IsActiveIo(s, f) ensures s.events[f].Slot() != s.events[e].Slot() {
        if Owned(on.base, f) {
          var x := EvOf(on.base, f);
          assert LiveEvent(s, on.base, fd, on, x);
          if s.events[f].kind == s.events[e].kind {
            RivalSlots(on, x, ev);
            assert false;
          }
        }
      }
    }
  }

  lemma IoOnOurFd(ev: Ev, x: Fde.Event, fd: int)
    requires Shaped(x, ev, fd) && x.kind.Io?
    ensures x.fd == fd
  {
  }

  lemma ActKeepsBatch(s: Loop, fd: int, on: On, act: Act)
    requires Synced(s, fd, on) && CleanAct(on, act) && BatchOurs(s, on.base)
    ensures BatchOurs(ExecAct(s, on.base, act), on.base)
  {
    ActSwitches(s, fd, on, act);
    assert LiveEvent(s, on.base, fd, on, act.ev);
    hide ExecAct, Has, RivalOn, KindOf;
    if act.Disarm? { assert s.events[Id(on.base, act.ev)].persist by { PersistentShape(act.ev, s.events[Id(on.base, act.ev)], fd); } }
  }

  lemma PersistentShape(ev: Ev, x: Fde.Event, fd: int)
    requires Shaped(x, ev, fd) && IsPersistent(ev)
    ensures x.persist
  {
  }

  lemma ExecActKernel(s: Loop, fd: int, on: On, act: Act)
    requires Sound(s) && KernelInv(s) && Synced(s, fd, on) && OwnsFd(s, on.base, fd)
    requires CleanAct(on, act) && BatchOurs(s, on.base)
    ensures KernelInv(ExecAct(s, on.base, act)) && BatchOurs(ExecAct(s, on.base, act), on.base)
  {
    hide Has, KernelInv;
    ActSwitches(s, fd, on, act);
    ActKeepsBatch(s, fd, on, act);
    if act.Arm? { ArmDisciplined(s, fd, on, act.ev); }
    hide Sound, KernelInv, Synced, OwnsFd, ExecAct, BatchOurs, Has, RivalOn;
    NextKeepsKernel(s, Fde.Call(CmdOf(on.base, act)));
  }

  lemma {:induction false} ExecKernel(s: Loop, fd: int, on: On, acts: seq<Act>)
    requires Sound(s) && KernelInv(s) && Synced(s, fd, on) && OwnsFd(s, on.base, fd)
    requires CleanAfter(on, acts) && BatchOurs(s, on.base)
    ensures KernelInv(Exec(s, on.base, acts)) && BatchOurs(Exec(s, on.base, acts), on.base)
    decreases |acts|
  {
    hide Sound, KernelInv, Synced, OwnsFd, ExecAct, BatchOurs, CleanAct, After;
    if acts != [] {
      var rest := acts[..|acts| - 1];
      ExecKernel(s, fd, on, rest);
      ExecSyncs(s, fd, on, rest);
      OnAfterBase(on, rest);
      ExecActKernel(Exec(s, on.base, rest), fd, OnAfter(on, rest), acts[|acts| - 1]);
    }
  }

  lemma {:induction false} ExecReleasesKernel(s: Loop, base: nat, evs: seq<Ev>)
    requires Sound(s) && KernelInv(s) && Batch(s) == []
    ensures KernelInv(Exec(s, base, Releases(evs))) && Batch(Exec(s, base, Releases(evs))) == []
    decreases |evs|
  {
    hide Sound, KernelInv, ExecAct;
    if evs != [] {
      var rest, ev := evs[..|evs| - 1], evs[|evs| - 1];
      assert Releases(evs)[..|evs| - 1] == Releases(rest);
      ExecReleasesKernel(s, base, rest);
      ExecReleases(s, base, rest);
      ReleaseKernel(Exec(s, base, Releases(rest)), base, ev);
    }
  }

  lemma ReleaseKernel(s: Loop, base: nat, ev: Ev)
    requires Sound(s) && KernelInv(s) && Batch(s) == []
    ensures KernelInv(ExecAct(s, base, Release(ev))) && Batch(ExecAct(s, base, Release(ev))) == []
  {
    hide Has, KernelInv;
    ExecRelease(s, base, ev);
    hide Sound, KernelInv;
    if Id(base, ev) in s.events {
      NextKeepsKernel(s, Fde.Call(Fde.Free(Id(base, ev))));
    }
  }

  ghost predicate KernelWorld(w: World) {
    WorldInv(w) && KernelInv(w.loop) && (!w.k.f.freed ==> BatchOurs(w.loop, w.k.port.on.base))
  }

  /** The other users of the loop respect its discipline. */
  ghost predicate Polite(w: World, wl: WLabel) {
    wl.Step? ==> Disciplined(w.loop, wl.l)
  }

  ghost predicate PoliteRun(w: World, ls: seq<WLabel>)
    decreases |ls|
  {
    ls == [] || (PoliteRun(w, ls[..|ls| - 1]) && Polite(Run(w, ls[..|ls| - 1]), ls[|ls| - 1]))
  }

  /** The loop's own part of a step keeps pending one-shot deliveries active. */
  lemma StepKeepsBatch(s: Loop, l: Fde.Label, base: nat)
    requires Sound(s) && KernelInv(s) && Fde.Enabled(s, l) && BatchOurs(s, base)
    requires l.Call? ==> l.cmd.Create? || !Owned(base, l.cmd.e)
    ensures BatchOurs(Fde.Next(s, l), base)
  {
    hide Has, KernelInv;
    match l
    case Call(c) =>
      SoundIdsFresh(s);
      CallChanges(s, c);
      CallKeepsBatchList(s, c);
      NewNotInBatch(s);
      hide Fde.Next, Sound, KernelInv;
    case FireCb(e) => StepChanges(s, l);
    case FireTimer(e, _) => StepChanges(s, l);
    case Wait(got) => WaitBatchActive(s, got);
    case Deliver(e) => DeliverKeepsBatch(s, e, base);
    case _ =>
  }

  lemma NewNotInBatch(s: Loop)
    requires KernelInv(s) && IdsFresh(s)
    ensures s.nextId !in Batch(s)
  {
    forall e | e in Batch(s) ensures e < s.nextId {
      assert BatchEntryOk(s, e);
    }
  }

  lemma CallKeepsBatchList(s: Loop, c: Fde.Cmd)
    requires Fde.CmdOk(s, c)
    ensures Batch(Fde.Do(s, c)) == Batch(s)
  {
    hide Fde.Push;
  }

  lemma WaitBatchActive(s: Loop, got: seq<Fde.Key>)
    requires KernelInv(s) && Fde.Enabled(s, Fde.Wait(got))
    ensures forall e :: e in Batch(Fde.Next(s, Fde.Wait(got))) ==> IsActiveIo(s, e)
  {
    var t := Fde.KernelWait(s, got);
    forall e | e in t.phase.batch ensures IsActiveIo(s, e) {
      var i :| 0 <= i < |got| && t.phase.batch[i] == e;
      assert got[i] in Fde.Effective(s);
    }
  }

  lemma DeliverKeepsBatch(s: Loop, e: Fde.EventId, base: nat)
    requires KernelInv(s) && Fde.Enabled(s, Fde.Deliver(e)) && BatchOurs(s, base)
    ensures BatchOurs(Fde.Reach(s, e), base)
  {
    var t := Fde.Reach(s, e);
    assert s.phase.batch == [e] + t.phase.batch;
    hide Remove;
    forall x | x in Batch(t) && Owned(base, x) && x in t.events && !t.events[x].persist ensures t.events[x].active {
      assert x in Batch(s) && x != e;
    }
  }

  lemma LiveHandlerKernel(w: World, l: Fde.Label, i: Input)
    requires KernelWorld(w) && Enabled(w, Step(l, i)) && Polite(w, Step(l, i)) && RunsHandler(w, l)
    requires !EvOf(w.k.port.on.base, l.e).EvCleanup?
    ensures KernelInv(Next(w, Step(l, i)).loop) && BatchOurs(Next(w, Step(l, i)).loop, w.k.port.on.base)
  {
    hide Dispatch, DoCmd, Exec;
    var ev := EvOf(w.k.port.on.base, l.e);
    FireSyncs(w, l);
    StepKeepsBatch(w.loop, l, w.k.port.on.base);
    NextKeepsKernel(w.loop, l);
    TurnHas(w.k.port.on, ev, false, ev);
    var f := Fired(w.k, ev);
    hide FlagInv, TraceInv, Sound, KernelInv, Synced, OwnsFd, BatchOurs, Dispatch, Exec, Has, Turn, Fde.Next;
    DispatchKeepsFlags(w.k, ev, i);
    var k := Dispatch(f, ev, i);
    PortClean(k);
    ExecKernel(Fde.Next(w.loop, l), f.port.on.fd, f.port.on, k.port.acts);
  }

  lemma PortClean(k: Core)
    requires FlagInv(k, None)
    ensures CleanAfter(k.port.start, k.port.acts)
  {
  }

  lemma CleanupKernel(w: World, l: Fde.Label, i: Input)
    requires KernelWorld(w) && Enabled(w, Step(l, i)) && Polite(w, Step(l, i)) && RunsHandler(w, l)
    requires EvOf(w.k.port.on.base, l.e).EvCleanup?
    ensures KernelInv(Next(w, Step(l, i)).loop)
  {
    FireSyncs(w, l);
    NextKeepsKernel(w.loop, l);
    CleanupInRound(w, l);
    OnCleanupEffect(w.k, i);
    hide FlagInv, TraceInv, Sound, KernelInv, Synced, OwnsFd, OnCleanup, Exec, Fde.Next;
    ExecReleasesKernel(Fde.Next(w.loop, l), w.k.port.on.base, ALL_EVENTS);
  }

  lemma CleanupInRound(w: World, l: Fde.Label)
    requires LiveInv(w) && Fde.Enabled(w.loop, l) && RunsHandler(w, l)
    requires EvOf(w.k.port.on.base, l.e).EvCleanup?
    ensures l.FireCb? && Batch(Fde.Next(w.loop, l)) == []
  {
    assert LiveEvent(w.loop, w.k.port.on.base, w.k.port.on.fd, w.k.port.on, EvCleanup);
    if l.Deliver? {
      DeliveredIsIo(w.loop, l.e);
      assert false;
    }
    DeleteChanges(w.loop, l.e);
  }

  lemma ApiKernel(w: World, cmd: UserCmd)
    requires KernelWorld(w) && Enabled(w, Api(cmd))
    ensures KernelInv(Next(w, Api(cmd)).loop) && BatchOurs(Next(w, Api(cmd)).loop, w.k.port.on.base)
  {
    hide Dispatch, DoCmd, Exec;
    var a := w.k.(port := NewPort(w.k.port.on));
    FreshPort(w.k);
    hide FlagInv, TraceInv, Sound, KernelInv, Synced, OwnsFd, BatchOurs, DoCmd, Exec, Allowed;
    DoCmdKeepsFlags(a, cmd, None);
    PortClean(DoCmd(a, cmd));
    ExecKernel(w.loop, w.k.port.on.fd, w.k.port.on, DoCmd(a, cmd).port.acts);
  }

  lemma SameBase(w: World, wl: WLabel)
    requires Enabled(w, wl)
    ensures Next(w, wl).k.port.on.base == w.k.port.on.base
    ensures Next(w, wl).k.port.on.fd == w.k.port.on.fd && Next(w, wl).k.port.on.closeCb == w.k.port.on.closeCb
  {
    hide Dispatch, DoCmd, Exec;
    match wl
    case Api(cmd) =>
      var k := DoCmd(w.k.(port := NewPort(w.k.port.on)), cmd);
      hide DoCmd, Exec;
      OnAfterBase(k.port.start, k.port.acts);
    case Step(l, i) =>
      if RunsHandler(w, l) {
        var ev := EvOf(w.k.port.on.base, l.e);
        var k := Dispatch(Fired(w.k, ev), ev, i);
        hide Dispatch, Exec, Turn;
        TurnHas(w.k.port.on, ev, false, ev);
        OnAfterBase(k.port.start, k.port.acts);
      }
  }

  lemma NextKeepsKernelWorld(w: World, wl: WLabel)
    requires KernelWorld(w) && Enabled(w, wl) && Polite(w, wl)
    ensures KernelWorld(Next(w, wl))
  {
    hide Dispatch, DoCmd, Exec;
    NextKeepsInv(w, wl);
    SameBase(w, wl);
    hide WorldInv, KernelInv, BatchOurs, Disciplined;
    match wl
    case Api(cmd) => ApiKernel(w, cmd);
    case Step(l, i) =>
      if RunsHandler(w, l) {
        if EvOf(w.k.port.on.base, l.e).EvCleanup? {
          CleanupKernel(w, l, i);
          CleanupFrees(w, l, i);
        } else {
          LiveHandlerKernel(w, l, i);
        }
      } else {
        ForeignKernel(w, l, i);
      }
  }

  lemma CleanupFrees(w: World, l: Fde.Label, i: Input)
    requires LiveInv(w) && Enabled(w, Step(l, i)) && RunsHandler(w, l)
    requires EvOf(w.k.port.on.base, l.e).EvCleanup?
    ensures Next(w, Step(l, i)).k.f.freed
  {
    FireSyncs(w, l);
    OnCleanupEffect(w.k, i);
    hide Exec, OnCleanup;
  }

  lemma ForeignKernel(w: World, l: Fde.Label, i: Input)
    requires KernelWorld(w) && Enabled(w, Step(l, i)) && Polite(w, Step(l, i)) && !RunsHandler(w, l)
    ensures KernelInv(Next(w, Step(l, i)).loop)
    ensures !w.k.f.freed ==> BatchOurs(Next(w, Step(l, i)).loop, w.k.port.on.base)
  {
    hide Dispatch, DoCmd, Exec;
    WorldSound(w);
    NextKeepsKernel(w.loop, l);
    hide WorldInv, KernelInv, BatchOurs, Sound, Fde.Next;
    if !w.k.f.freed { StepKeepsBatch(w.loop, l, w.k.port.on.base); }
  }

  lemma WorldSound(w: World)
    requires WorldInv(w)
    ensures Sound(w.loop)
  {
  }

  lemma {:induction false} KernelWorldInvariant(w: World, ls: seq<WLabel>)
    requires KernelWorld(w) && Valid(w, ls) && PoliteRun(w, ls)
    ensures KernelWorld(Run(w, ls))
    decreases |ls|
  {
    hide KernelWorld, Next, Enabled, Polite;
    if ls != [] {
      KernelWorldInvariant(w, ls[..|ls| - 1]);
      NextKeepsKernelWorld(Run(w, ls[..|ls| - 1]), ls[|ls| - 1]);
    }
  }
}
