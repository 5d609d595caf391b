/**
 * List agreement: the three queues of the loop always hold exactly the active
 * events of their kind, each once, and the callback queue is ordered by
 * generation. Every step of the loop and every API call keeps this.
 */
module FdeLists {
  import opened Seqs
  import opened Timevals
  import opened Fde

  predicate IsActiveCallback(s: Loop, e: EventId) {
    IsActive(s, e) && s.events[e].kind.Callback?
  }

  predicate IsActiveTimer(s: Loop, e: EventId) {
    IsActive(s, e) && s.events[e].kind.Timer?
  }

  /** f_head holds exactly the active events, each once. */
  ghost predicate HeadAgrees(s: Loop) {
    NoDup(s.head) && forall e :: e in s.head <==> IsActive(s, e)
  }

  ghost predicate CallbacksAgree(s: Loop) {
    NoDup(s.cbHead) && forall e :: e in s.cbHead <==> IsActiveCallback(s, e)
  }

  ghost predicate TimersAgree(s: Loop) {
    NoDup(s.tHead) && forall e :: e in s.tHead <==> IsActiveTimer(s, e)
  }

  ghost predicate ListsAgree(s: Loop) {
    HeadAgrees(s) && CallbacksAgree(s) && TimersAgree(s)
  }

  predicate CallbacksLive(s: Loop) {
    forall e :: e in s.cbHead ==> e in s.events
  }

  /** The generation stamps along the callback queue. */
  function Gens(s: Loop): (r: seq<Gen>)
    requires CallbacksLive(s)
    ensures |r| == |s.cbHead|
    ensures forall i :: 0 <= i < |r| ==> r[i] == s.events[s.cbHead[i]].genid
  {
    seq(|s.cbHead|, i requires 0 <= i < |s.cbHead| => s.events[s.cbHead[i]].genid)
  }

  /** Some stamps equal to `cur`, then some equal to `next`. */
  ghost predicate TwoGens(gs: seq<Gen>, cur: Gen, next: Gen) {
    && (forall i :: 0 <= i < |gs| ==> gs[i] == cur || gs[i] == next)
    && (forall i, j :: 0 <= i < j < |gs| && gs[j] == cur ==> gs[i] == cur)
  }

  /**
   * During a round the queue is the rest of the round's generation followed by
   * the next one; outside a round it is all of the current generation. Only two
   * generations are ever alive, so the 32-bit wrap cannot confuse them.
   */
  ghost predicate GensOrdered(s: Loop)
    requires CallbacksLive(s)
  {
    match s.phase
    case InCallbacks(cur, _) => s.genid == NextGen(cur) && TwoGens(Gens(s), cur, s.genid)
    case _ => forall i :: 0 <= i < |s.cbHead| ==> Gens(s)[i] == s.genid
  }

  predicate IdsFresh(s: Loop) {
    forall e :: e in s.events ==> e < s.nextId
  }

  ghost predicate Wf(s: Loop) {
    && ListsAgree(s)
    && CallbacksLive(s)
    && GensOrdered(s)
    && IdsFresh(s)
    && |s.pending| < MAX_EVENTS
  }

  lemma GensSameEvents(s: Loop, t: Loop)
    requires CallbacksLive(s) && GensOrdered(s)
    requires t.cbHead == s.cbHead && t.phase == s.phase && t.genid == s.genid && CallbacksLive(t)
    requires forall e :: e in s.cbHead ==> t.events[e].genid == s.events[e].genid
    ensures GensOrdered(t)
  {
    assert Gens(t) == Gens(s);
  }

  lemma TwoGensWithout(gs: seq<Gen>, cur: Gen, next: Gen, k: nat)
    requires TwoGens(gs, cur, next) && k < |gs|
    ensures TwoGens(gs[..k] + gs[k + 1..], cur, next)
  {
    var r := gs[..k] + gs[k + 1..];
    assert forall i :: 0 <= i < |r| ==> r[i] == gs[if i < k then i else i + 1];
  }

  lemma GensWithout(s: Loop, t: Loop, k: nat)
    requires CallbacksLive(s) && CallbacksLive(t) && k < |s.cbHead|
    requires t.cbHead == s.cbHead[..k] + s.cbHead[k + 1..]
    requires forall i :: 0 <= i < |s.cbHead| && i != k ==>
      s.cbHead[i] in t.events && t.events[s.cbHead[i]].genid == s.events[s.cbHead[i]].genid
    ensures Gens(t) == Gens(s)[..k] + Gens(s)[k + 1..]
  {
    forall i | 0 <= i < |t.cbHead|
      ensures Gens(t)[i] == (Gens(s)[..k] + Gens(s)[k + 1..])[i]
    {
      assert t.cbHead[i] == s.cbHead[if i < k then i else i + 1];
    }
  }

  lemma GensAfterRemove(s: Loop, t: Loop, e: EventId)
    requires CallbacksLive(s) && GensOrdered(s) && NoDup(s.cbHead) && e in s.cbHead
    requires t.cbHead == Remove(s.cbHead, e) && t.phase == s.phase && t.genid == s.genid && CallbacksLive(t)
    requires forall x :: x in s.cbHead && x != e ==> x in t.events && t.events[x].genid == s.events[x].genid
    ensures GensOrdered(t)
  {
    var k := RemoveSplit(s.cbHead, e);
    forall i | 0 <= i < |s.cbHead| && i != k
      ensures s.cbHead[i] in t.events && t.events[s.cbHead[i]].genid == s.events[s.cbHead[i]].genid
    {
      assert s.cbHead[i] != s.cbHead[k];
    }
    GensWithout(s, t, k);
    if s.phase.InCallbacks? {
      TwoGensWithout(Gens(s), s.phase.cur, s.genid, k);
    }
  }

  lemma GensAfterAppend(s: Loop, t: Loop, e: EventId)
    requires CallbacksLive(s) && GensOrdered(s) && e !in s.cbHead
    requires t.cbHead == s.cbHead + [e] && t.phase == s.phase && t.genid == s.genid && CallbacksLive(t)
    requires forall x :: x in s.cbHead ==> t.events[x].genid == s.events[x].genid
    requires t.events[e].genid == s.genid
    ensures GensOrdered(t)
  {
    assert Gens(t) == Gens(s) + [s.genid];
  }

  lemma AddKeepsWf(s: Loop, e: EventId)
    requires Wf(s) && e in s.events
    ensures Wf(AddEvent(s, e))
  {
    var t := AddEvent(s, e);
    var ev := s.events[e];
    if !ev.active && !ev.kind.Timer? {
      assert e !in s.head && e !in s.cbHead && e !in s.tHead;
      if ev.kind.Callback? {
        GensAfterAppend(s, t, e);
      } else {
        GensSameEvents(s, t);
      }
    }
  }

  lemma DeleteKeepsWf(s: Loop, e: EventId)
    requires Wf(s) && e in s.events
    ensures Wf(DeleteEvent(s, e))
  {
    hide Remove, NoDup, TwoGens, GensOrdered, ApplyAll, Gens;
    var t := DeleteEvent(s, e);
    var ev := s.events[e];
    if ev.active {
      RemoveMembers(s.head, e);
      match ev.kind
      case Io(_) =>
        GensSameEvents(s, t);
      case Callback =>
        RemoveMembers(s.cbHead, e);
        GensAfterRemove(s, t, e);
      case Timer =>
        RemoveMembers(s.tHead, e);
        GensSameEvents(s, t);
    }
  }

  lemma FreeKeepsWf(s: Loop, e: EventId)
    requires Wf(s) && e in s.events
    ensures Wf(FreeEvent(s, e))
  {
    DeleteKeepsWf(s, e);
    GensSameEvents(DeleteEvent(s, e), FreeEvent(s, e));
  }

  lemma InsertedMembers<T>(s: seq<T>, i: nat, x: T)
    requires i <= |s| && NoDup(s) && x !in s
    ensures NoDup(InsertedAt(s, i, x))
    ensures forall y :: y in InsertedAt(s, i, x) <==> y in s || y == x
  {
    var r := InsertedAt(s, i, x);
    forall y | y in s ensures y in r {
      var j :| 0 <= j < |s| && s[j] == y;
      assert r[if j < i then j else j + 1] == y;
    }
  }

  lemma AddTimerKeepsWf(s: Loop, e: EventId, tv: Timeval)
    requires Wf(s) && CmdOk(s, AddTimeout(e, tv))
    ensures Wf(AddTimer(s, e, tv))
  {
    if !s.events[e].active {
      InsertedMembers(s.tHead, InsertAt(TimesOf(s.events, s.tHead), tv), e);
      GensSameEvents(s, AddTimer(s, e, tv));
    }
  }

  lemma CreateKeepsWf(s: Loop, fd: int, kind: Kind, persist: bool)
    requires Wf(s)
    ensures Wf(CreateEvent(s, fd, kind, persist))
  {
    GensSameEvents(s, CreateEvent(s, fd, kind, persist));
  }

  lemma DoKeepsWf(s: Loop, c: Cmd)
    requires Wf(s) && CmdOk(s, c)
    ensures Wf(Do(s, c))
  {
    match c
    case Create(fd, kind, persist) => CreateKeepsWf(s, fd, kind, persist);
    case Add(e) => AddKeepsWf(s, e);
    case AddTimeout(e, tv) => AddTimerKeepsWf(s, e, tv);
    case Delete(e) => DeleteKeepsWf(s, e);
    case Free(e) => FreeKeepsWf(s, e);
  }

  lemma ReachKeepsWf(s: Loop, e: EventId)
    requires Wf(s) && Enabled(s, Deliver(e))
    // only fd events are ever handed to the kernel
    requires IsActive(s, e) ==> s.events[e].kind.Io?
    ensures Wf(Reach(s, e))
  {
    RemoveMembers(s.head, e);
    assert Gens(Reach(s, e)) == Gens(s);
  }

  /** Ending the round: nothing of the old generation is left. */
  lemma EndRoundDrained(s: Loop)
    requires Wf(s) && Enabled(s, EndRound)
    ensures forall e :: e in s.cbHead ==> s.events[e].genid == s.genid
    ensures Wf(Next(s, EndRound))
  {
    forall i | 0 <= i < |s.cbHead| ensures Gens(s)[i] == s.genid {
      assert s.cbHead[0] in s.cbHead;
      assert Gens(s)[0] != s.phase.cur;
    }
    assert Gens(Next(s, EndRound)) == Gens(s);
  }

  /** Every udata in the kernel, in the batch or being delivered is an fd event. */
  ghost predicate KernelSane(s: Loop) {
    && (forall k :: k in Effective(s) ==> IoOrGone(s, Effective(s)[k].udata))
    && (s.phase.InIo? ==> forall e :: e in s.phase.batch ==> IoOrGone(s, e))
  }

  predicate IoOrGone(s: Loop, e: EventId) {
    e < s.nextId && (e in s.events ==> s.events[e].kind.Io?)
  }

  lemma EffectivePush(s: Loop, ch: Change)
    ensures Effective(Push(s, ch)) == ApplyChange(Effective(s), ch)
  {
    if |s.pending| < MAX_EVENTS - 1 {
      assert (s.pending + [ch])[..|s.pending|] == s.pending;
    } else {
      assert [ch][..0] == [];
      assert ApplyAll(Effective(s), [ch]) == ApplyChange(ApplyAll(Effective(s), [ch][..0]), ch);
    }
  }

  lemma EffectiveDo(s: Loop, c: Cmd)
    requires CmdOk(s, c)
    ensures match c
      case Add(e) =>
        Effective(Do(s, c)) ==
          if !s.events[e].active && s.events[e].kind.Io?
          then Effective(s)[s.events[e].Slot() := NoteOf(e, s.events[e])] else Effective(s)
      case Delete(e) =>
        Effective(Do(s, c)) ==
          if s.events[e].active && s.events[e].kind.Io?
          then Effective(s) - {s.events[e].Slot()} else Effective(s)
      case Free(e) => Effective(Do(s, c)) == Effective(DeleteEvent(s, e))
      case _ => Effective(Do(s, c)) == Effective(s)
  {
    match c
    case Add(e) =>
      if s.events[e].kind.Io? { EffectivePush(s, Register(s.events[e].Slot(), NoteOf(e, s.events[e]))); }
    case Delete(e) =>
      if s.events[e].kind.Io? { EffectivePush(s, Unregister(s.events[e].Slot())); }
    case _ =>
  }

  ghost predicate Sound(s: Loop) {
    Wf(s) && KernelSane(s)
  }

  lemma DoKeepsSane(s: Loop, c: Cmd)
    requires KernelSane(s) && IdsFresh(s) && CmdOk(s, c)
    ensures KernelSane(Do(s, c))
  {
    hide Wf, Effective, Push, Remove, InsertedAt;
    EffectiveDo(s, c);
    if c.Free? {
      EffectiveDo(s, Delete(c.e));
    }
  }

  lemma WaitKeepsSound(s: Loop, got: seq<Key>)
    requires Sound(s) && Enabled(s, Wait(got))
    ensures Sound(Next(s, Wait(got)))
  {
    var t := KernelWait(s, got);
    assert Gens(t) == Gens(s);
    assert Effective(t) == t.kernel;
    forall e | e in t.phase.batch ensures IoOrGone(s, e) {
      var i :| 0 <= i < |got| && t.phase.batch[i] == e;
      assert got[i] in Effective(s);
    }
  }

  lemma DeliverKeepsSound(s: Loop, e: EventId)
    requires Sound(s) && Enabled(s, Deliver(e))
    ensures Sound(Reach(s, e))
  {
    var t := Reach(s, e);
    assert s.phase.batch[0] in s.phase.batch;
    ReachKeepsWf(s, e);
    assert Effective(t) == Effective(s);
    forall x | x in t.phase.batch ensures IoOrGone(t, x) {
      assert x in s.phase.batch;
    }
  }

  lemma NextKeepsSound(s: Loop, l: Label)
    requires Sound(s) && Enabled(s, l)
    ensures Sound(Next(s, l))
  {
    var t := Next(s, l);
    match l
    case Call(c) =>
      DoKeepsWf(s, c);
      DoKeepsSane(s, c);
    case StartRound(_) =>
      assert Gens(t) == Gens(s) && Effective(t) == Effective(s);
    case FireCb(e) =>
      DeleteKeepsWf(s, e);
      DoKeepsSane(s, Delete(e));
    case EndRound =>
      EndRoundDrained(s);
      assert Effective(t) == Effective(s);
    case FireTimer(e, _) =>
      DeleteKeepsWf(s, e);
      DoKeepsSane(s, Delete(e));
    case Wait(got) =>
      WaitKeepsSound(s, got);
    case Deliver(e) =>
      DeliverKeepsSound(s, e);
    case Finish =>
      assert Gens(t) == Gens(s) && Effective(t) == Effective(s);
  }

  /**
   * In every reachable state, whatever the callbacks do, an event is active
   * exactly when it is on the main list, once, and the callback and timer
   * lists are exactly the active callbacks and timers.
   */
  lemma {:induction false} ListAgreement(s: Loop, ls: seq<Label>)
    requires Sound(s) && Valid(s, ls)
    ensures Sound(Run(s, ls))
    decreases |ls|
  {
    if ls != [] {
      ListAgreement(s, ls[..|ls| - 1]);
      NextKeepsSound(Run(s, ls[..|ls| - 1]), ls[|ls| - 1]);
    }
  }

  lemma InitSound()
    ensures Sound(Init())
  {
  }

  /** Arming an event keeps the lists right exactly when it is a timer, or active so that nothing happens. */
  lemma AddTimerKeepsSoundIff(s: Loop, e: EventId, tv: Timeval)
    requires Sound(s) && e in s.events && TimersLive(s)
    ensures Sound(AddTimer(s, e, tv)) <==> s.events[e].active || s.events[e].kind.Timer?
  {
    if s.events[e].kind.Timer? {
      NextKeepsSound(s, Call(AddTimeout(e, tv)));
    } else if !s.events[e].active {
      var t, p := AddTimer(s, e, tv), InsertAt(TimesOf(s.events, s.tHead), tv);
      hide InsertAt;
      assert t.tHead[p] == e;
      assert e in t.tHead && !IsActiveTimer(t, e);
    }
  }
}
