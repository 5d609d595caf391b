/**
 * A loop used by any number of comms and nobody else: whatever their owners do,
 * the kernel watches exactly the active descriptor events, with no condition on
 * the run. Comms come and go; a descriptor can be used again after its comm.
 */
module CommMany {
  import Fde
  import opened FdeLists
  import opened FdeKernel
  import opened Comm
  import W = CommWorld
  import opened CommWorld
  import opened CommKernel
  import opened CommForgotten
  import opened CommLaws

  /** The comms, in the order of their creation. */
  datatype Many = Many(loop: Loop, ks: seq<Core>)

  datatype Label =
    | New(fd: int, closeCb: bool)
    | Call(j: nat, cmd: UserCmd)
    | Fire(j: nat, l: Fde.Label, i: Input)
    | Turn(l: Fde.Label)

  function Nth(m: Many, j: nat): World
    requires j < |m.ks|
  {
    World(m.loop, m.ks[j])
  }

  /** A new comm, an API call, a step that runs a handler of one comm, or one that runs none. */
  ghost predicate Can(m: Many, x: Label) {
    match x
    case New(fd, _) => forall e :: e in m.loop.events && m.loop.events[e].kind.Io? ==> m.loop.events[e].fd != fd
    case Call(j, cmd) => j < |m.ks| && W.Enabled(Nth(m, j), Api(cmd))
    case Fire(j, l, i) =>
      !l.Call? && j < |m.ks| && W.Enabled(Nth(m, j), Step(l, i)) && RunsHandler(Nth(m, j), l)
    case Turn(l) =>
      !l.Call? && Fde.Enabled(m.loop, l) && forall j :: 0 <= j < |m.ks| ==> !RunsHandler(Nth(m, j), l)
  }

  /** One step; a label that is not possible changes nothing. */
  ghost function Do(m: Many, x: Label): Many {
    if !Can(m, x) then m else match x
    case New(fd, closeCb) =>
      var w := Created(m.loop, fd, closeCb);
      Many(w.loop, m.ks + [w.k])
    case Call(j, cmd) =>
      var w := W.Next(Nth(m, j), Api(cmd));
      Many(w.loop, m.ks[j := w.k])
    case Fire(j, l, i) =>
      var w := W.Next(Nth(m, j), Step(l, i));
      Many(w.loop, m.ks[j := w.k])
    case Turn(l) => m.(loop := Fde.Next(m.loop, l))
  }

  ghost predicate Possible(m: Many, xs: seq<Label>)
    decreases |xs|
  {
    xs == [] || (Possible(m, xs[..|xs| - 1]) && Can(After(m, xs[..|xs| - 1]), xs[|xs| - 1]))
  }

  ghost function After(m: Many, xs: seq<Label>): Many
    decreases |xs|
  {
    if xs == [] then m else Do(After(m, xs[..|xs| - 1]), xs[|xs| - 1])
  }

  // ------------------------------------------------------------------
  // What every step keeps
  // ------------------------------------------------------------------

  /** The part of the invariant that concerns one comm. */
  ghost predicate Member(s: Loop, k: Core) {
    WorldInv(World(s, k)) && (!k.f.freed ==> BatchOurs(s, k.port.on.base))
  }

  ghost predicate Apart(ks: seq<Core>) {
    forall i, j :: 0 <= i < j < |ks| ==> ks[i].port.on.base + 10 <= ks[j].port.on.base
  }

  ghost predicate Inv(m: Many) {
    && Sound(m.loop) && KernelInv(m.loop) && Apart(m.ks)
    && forall j :: 0 <= j < |m.ks| ==> Member(m.loop, m.ks[j])
  }

  lemma MemberId(s: Loop, k: Core)
    requires Member(s, k)
    ensures k.port.on.base + 10 <= s.nextId
  {
  }

  /** A call on somebody else's event. */
  lemma ForeignCall(s: Loop, k: Core, c: Fde.Cmd)
    requires Member(s, k) && Fde.CmdOk(s, c) && !c.Create? && !Owned(k.port.on.base, c.e)
    ensures Member(Fde.Do(s, c), k)
  {
    hide Dispatch, DoCmd, Exec, WorldInv, LiveInv;
    var i := Input(Done(0), [], [], true);
    WorldSound(World(s, k));
    SoundIdsFresh(s);
    CallChanges(s, c);
    CallKeepsBatchList(s, c);
    hide WorldInv, Sound, Fde.Do;
    NextKeepsInv(World(s, k), Step(Fde.Call(c), i));
    assert W.Next(World(s, k), Step(Fde.Call(c), i)) == World(Fde.Do(s, c), k);
  }

  lemma {:induction false} ForeignExec(s: Loop, k: Core, base: nat, acts: seq<Act>)
    requires Member(s, k) && (base + 10 <= k.port.on.base || k.port.on.base + 10 <= base)
    ensures Member(Exec(s, base, acts), k)
    decreases |acts|
  {
    hide Member, Fde.Do, Fde.CmdOk;
    if acts != [] {
      var rest, act := acts[..|acts| - 1], acts[|acts| - 1];
      ForeignExec(s, k, base, rest);
      var t := Exec(s, base, rest);
      if Fde.CmdOk(t, CmdOf(base, act)) { ForeignCall(t, k, CmdOf(base, act)); }
    }
  }

  /** A step of the loop that fires nothing of this comm. */
  lemma ForeignTurn(s: Loop, k: Core, l: Fde.Label)
    requires Member(s, k) && KernelInv(s) && !l.Call? && Fde.Enabled(s, l) && !RunsHandler(World(s, k), l)
    ensures Member(Fde.Next(s, l), k)
  {
    hide Dispatch, DoCmd, Exec;
    var i := Input(Done(0), [], [], true);
    WorldSound(World(s, k));
    hide WorldInv, Sound, KernelInv, BatchOurs, Fde.Next;
    NextKeepsInv(World(s, k), Step(l, i));
    if !k.f.freed { StepKeepsBatch(s, l, k.port.on.base); }
  }

  lemma {:induction false} ForeignCreates(s: Loop, k: Core, fd: int, n: nat)
    requires Member(s, k) && KernelInv(s) && n <= 10 && (!k.f.freed ==> k.port.on.fd != fd)
    ensures Member(CreateUpTo(s, fd, n), k)
  {
    hide Dispatch, DoCmd, Exec, WorldInv, Sound, KernelInv, BatchOurs, KindOf, EvAt, Fde.Next;
    if n > 0 {
      ForeignCreates(s, k, fd, n - 1);
      WorldSound(World(s, k));
      CreateUpToKernel(s, fd, n - 1);
      var a, ev, i := CreateUpTo(s, fd, n - 1), EvAt(n - 1), Input(Done(0), [], [], true);
      var l := Fde.Call(Fde.Create(if IsCallback(ev) then -1 else fd, KindOf(ev), IsPersistent(ev)));
      WorldSound(World(a, k));
      CallbackKind(ev);
      NextKeepsInv(World(a, k), Step(l, i));
      CreateIsNext(a, ev, fd, l);
      assert W.Next(World(a, k), Step(l, i)) == World(Fde.Next(a, l), k);
      if !k.f.freed { StepKeepsBatch(a, l, k.port.on.base); }
    }
  }

  lemma CallbackKind(ev: Ev)
    ensures KindOf(ev).Io? <==> !IsCallback(ev)
  {
  }

  lemma CreateIsNext(a: Loop, ev: Ev, fd: int, l: Fde.Label)
    requires l == Fde.Call(Fde.Create(if IsCallback(ev) then -1 else fd, KindOf(ev), IsPersistent(ev)))
    ensures CreateOne(a, ev, fd) == Fde.Next(a, l)
  {
  }

  /** A live comm watches its own descriptor, so no other comm is created on it. */
  lemma OtherFd(s: Loop, k: Core, fd: int)
    requires Member(s, k) && !k.f.freed
    requires forall e :: e in s.events && s.events[e].kind.Io? ==> s.events[e].fd != fd
    ensures k.port.on.fd != fd
  {
    assert LiveEvent(s, k.port.on.base, k.port.on.fd, k.port.on, EvRead);
  }

  lemma NewKeepsInv(m: Many, fd: int, closeCb: bool)
    requires Inv(m) && Can(m, New(fd, closeCb))
    ensures Inv(Do(m, New(fd, closeCb)))
  {
    hide Has, KernelInv, Next, Enabled, WorldInv, LiveInv;
    var w, r := Created(m.loop, fd, closeCb), Do(m, New(fd, closeCb));
    CreatedKernel(m.loop, fd, closeCb);
    CreatedPlain(m.loop, fd, closeCb);
    CreatedSound(m.loop, fd, closeCb);
    hide Created, KernelInv, Sound, WorldInv, BatchOurs;
    forall j | 0 <= j < |m.ks| ensures Member(r.loop, m.ks[j]) && m.ks[j].port.on.base + 10 <= m.loop.nextId {
      MemberId(m.loop, m.ks[j]);
      if !m.ks[j].f.freed { OtherFd(m.loop, m.ks[j], fd); }
      ForeignCreates(m.loop, m.ks[j], fd, 10);
    }
  }

  lemma CreatedSound(s: Loop, fd: int, closeCb: bool)
    requires Sound(s)
    ensures Sound(Created(s, fd, closeCb).loop)
  {
    hide Sound;
    CreateUpToEffect(s, fd, 10);
  }

  /** A step of comm `j`, API call or handler, with the effect on the others. */
  lemma MemberStep(m: Many, j: nat, wl: WLabel, r: Many)
    requires Inv(m) && j < |m.ks| && W.Enabled(Nth(m, j), wl)
    requires wl.Step? ==> !wl.l.Call? && RunsHandler(Nth(m, j), wl.l)
    requires r == Many(W.Next(Nth(m, j), wl).loop, m.ks[j := W.Next(Nth(m, j), wl).k])
    ensures Inv(r)
  {
    hide KernelInv, Sound, WorldInv, BatchOurs, W.Next, W.Enabled, Disciplined;
    var w := Nth(m, j);
    assert Member(m.loop, m.ks[j]);
    CallsAreDisciplined(w, wl);
    NextKeepsKernelWorld(w, wl);
    WorldSound(W.Next(w, wl));
    SameBase(w, wl);
    forall i | 0 <= i < |m.ks| && i != j ensures Member(r.loop, m.ks[i]) {
      assert Member(m.loop, m.ks[i]);
      BystanderStep(m, j, wl, i);
    }
  }

  lemma CallsAreDisciplined(w: World, wl: WLabel)
    requires wl.Step? ==> !wl.l.Call?
    ensures Polite(w, wl)
  {
  }

  lemma BystanderStep(m: Many, j: nat, wl: WLabel, i: nat)
    requires Inv(m) && j < |m.ks| && W.Enabled(Nth(m, j), wl) && i < |m.ks| && i != j
    requires wl.Step? ==> !wl.l.Call? && RunsHandler(Nth(m, j), wl.l)
    ensures Member(W.Next(Nth(m, j), wl).loop, m.ks[i])
  {
    hide KernelInv, Sound, Member, Dispatch, DoCmd, Exec, Fde.Next;
    var w, base := Nth(m, j), m.ks[j].port.on.base;
    match wl
    case Api(cmd) =>
      ForeignExec(m.loop, m.ks[i], base, DoCmd(w.k.(port := NewPort(w.k.port.on)), cmd).port.acts);
    case Step(l, inp) =>
      var ev := EvOf(base, l.e);
      ForeignTurn(m.loop, m.ks[i], l);
      ForeignExec(Fde.Next(m.loop, l), m.ks[i], base, Dispatch(Fired(w.k, ev), ev, inp).port.acts);
  }

  lemma TurnKeepsInv(m: Many, l: Fde.Label)
    requires Inv(m) && Can(m, Turn(l))
    ensures Inv(Do(m, Turn(l)))
  {
    hide Next, Enabled, WorldInv, LiveInv;
    NextKeepsSound(m.loop, l);
    NextKeepsKernel(m.loop, l);
    hide KernelInv, Sound, Member, Fde.Next;
    forall j | 0 <= j < |m.ks| ensures Member(Fde.Next(m.loop, l), m.ks[j]) {
      assert !RunsHandler(Nth(m, j), l);
      ForeignTurn(m.loop, m.ks[j], l);
    }
  }

  lemma StepKeepsInv(m: Many, x: Label)
    requires Inv(m) && Can(m, x)
    ensures Inv(Do(m, x))
  {
    hide Inv, W.Next, W.Enabled;
    match x
    case New(fd, closeCb) => NewKeepsInv(m, fd, closeCb);
    case Call(j, cmd) => MemberStep(m, j, Api(cmd), Do(m, x));
    case Fire(j, l, i) => MemberStep(m, j, Step(l, i), Do(m, x));
    case Turn(l) => TurnKeepsInv(m, l);
  }

  lemma {:induction false} RunKeepsInv(m: Many, xs: seq<Label>)
    requires Inv(m) && Possible(m, xs)
    ensures Inv(After(m, xs))
    decreases |xs|
  {
    hide Inv, Can, Do;
    if xs != [] {
      RunKeepsInv(m, xs[..|xs| - 1]);
      StepKeepsInv(After(m, xs[..|xs| - 1]), xs[|xs| - 1]);
    }
  }

  /**
   * In every run of any number of comms in one loop: each of them is in step
   * with the loop or gone from it, and whenever no delivery is pending the
   * kernel watches exactly the active descriptor events.
   */
  lemma CommsKernelAgreement(xs: seq<Label>)
    requires Possible(Many(Fde.Init(), []), xs)
    ensures var r := After(Many(Fde.Init(), []), xs);
      && (forall j :: 0 <= j < |r.ks| ==> WorldInv(World(r.loop, r.ks[j])))
      && (Batch(r.loop) == [] ==> Agreement(r.loop))
  {
    InitSound();
    InitKernel();
    hide After, Possible, WorldInv, Sound;
    RunKeepsInv(Many(Fde.Init(), []), xs);
    var r := After(Many(Fde.Init(), []), xs);
    forall j | 0 <= j < |r.ks| ensures WorldInv(World(r.loop, r.ks[j])) {
      assert Member(r.loop, r.ks[j]);
    }
    if Batch(r.loop) == [] { NoneAwaited(r.loop); }
  }

  lemma InitKernel()
    ensures KernelInv(Fde.Init())
  {
  }

  lemma NoneAwaited(s: Loop)
    requires KernelInv(s) && Batch(s) == []
    ensures Agreement(s)
  {
    hide Fde.Effective;
  }
}
