/**
 * Kernel agreement: after the pending batch is applied in order, the kernel
 * watches exactly the active fd events, at every phase boundary of every
 * disciplined run.
 */
module FdeKernel {
  import opened Seqs
  import opened Timevals
  import opened Fde
  import opened FdeLists

  predicate IsActiveIo(s: Loop, e: EventId) {
    IsActive(s, e) && s.events[e].kind.Io?
  }

  /** The kernel, once the batch is applied, reports this event. */
  predicate Registered(s: Loop, e: EventId)
    requires e in s.events && s.events[e].kind.Io?
  {
    var k := s.events[e].Slot();
    k in Effective(s) && Effective(s)[k] == NoteOf(e, s.events[e])
  }

  function Batch(s: Loop): seq<EventId> {
    if s.phase.InIo? then s.phase.batch else []
  }

  /** Delivered by the kernel and dropped there, not yet reached by the loop. */
  predicate Awaiting(s: Loop, e: EventId)
    requires e in s.events
  {
    e in Batch(s) && !s.events[e].persist
  }

  /** Every registration is that of an active fd event. */
  ghost predicate NotesRight(s: Loop) {
    forall k :: k in Effective(s) ==>
      var e := Effective(s)[k].udata;
      IsActiveIo(s, e) && s.events[e].Slot() == k && Registered(s, e)
  }

  ghost predicate SlotsDistinct(s: Loop) {
    forall e, f :: IsActiveIo(s, e) && IsActiveIo(s, f) && e != f ==> s.events[e].Slot() != s.events[f].Slot()
  }

  ghost predicate KernelInv(s: Loop) {
    && NotesRight(s)
    && SlotsDistinct(s)
    && NoDup(Batch(s))
    && (forall e :: IsActiveIo(s, e) ==> Registered(s, e) || Awaiting(s, e))
    && (forall e :: e in Batch(s) ==> BatchEntryOk(s, e))
  }

  /** An entry of the batch is live, and not registered a second time. */
  predicate BatchEntryOk(s: Loop, e: EventId) {
    && e in s.events && s.events[e].kind.Io?
    && (s.events[e].active && !s.events[e].persist ==> !Registered(s, e))
  }

  /** The kernel watches exactly the active fd events. */
  ghost predicate Agreement(s: Loop) {
    && NotesRight(s)
    && (forall e :: IsActiveIo(s, e) ==> Registered(s, e))
  }

  /**
   * What the callers must respect: no two active events on one (fd, filter),
   * no event freed while its delivery is pending, and no one-shot event deleted
   * and added again while its delivery is pending.
   */
  ghost predicate Disciplined(s: Loop, l: Label) {
    match l
    case Call(Add(e)) =>
      e in s.events && s.events[e].kind.Io? && !s.events[e].active ==>
        !Awaiting(s, e) && forall f :: IsActiveIo(s, f) ==> s.events[f].Slot() != s.events[e].Slot()
    case Call(Free(e)) => e !in Batch(s)
    case _ => true
  }

  ghost predicate DisciplinedRun(s: Loop, ls: seq<Label>)
    requires Valid(s, ls)
    decreases |ls|
  {
    ls == [] ||
    (DisciplinedRun(s, ls[..|ls| - 1]) && Disciplined(Run(s, ls[..|ls| - 1]), ls[|ls| - 1]))
  }

  /** A step that leaves fd events, registrations and batch alone. */
  lemma SameIoKeepsKernel(s: Loop, t: Loop)
    requires KernelInv(s) && Effective(t) == Effective(s) && Batch(t) == Batch(s)
    requires forall e :: e in s.events && s.events[e].kind.Io? ==> e in t.events && t.events[e] == s.events[e]
    requires forall e :: IsActiveIo(t, e) ==> IsActiveIo(s, e)
    ensures KernelInv(t)
  {
    forall e | IsActiveIo(t, e) ensures Registered(t, e) || Awaiting(t, e) {
      assert IsActiveIo(s, e);
    }
    forall e | e in Batch(t) ensures BatchEntryOk(t, e) {
      assert BatchEntryOk(s, e);
    }
  }

  lemma NewNoteKeepsKernel(s: Loop, t: Loop, e: EventId)
    requires KernelInv(s) && e in s.events && Disciplined(s, Call(Add(e)))
    requires s.events[e].kind.Io? && !s.events[e].active
    requires t.events == s.events[e := s.events[e].(active := true)] && Batch(t) == Batch(s)
    requires Effective(t) == Effective(s)[s.events[e].Slot() := NoteOf(e, s.events[e])]
    ensures KernelInv(t)
  {
    hide Effective, NoDup;
    assert IsActiveIo(t, e) && Registered(t, e);
    forall f | IsActiveIo(t, f) && f != e
      ensures IsActiveIo(s, f) && (Registered(t, f) || Awaiting(t, f))
    {
      assert IsActiveIo(s, f);
    }
    forall f | f in Batch(t) ensures BatchEntryOk(t, f) {
      assert BatchEntryOk(s, f);
    }
    forall k | k in Effective(t)
      ensures var f := Effective(t)[k].udata; IsActiveIo(t, f) && t.events[f].Slot() == k && Registered(t, f)
    {
      if k != s.events[e].Slot() {
        assert k in Effective(s);
      }
    }
  }

  lemma AddIoKeepsKernel(s: Loop, e: EventId)
    requires KernelInv(s) && e in s.events && Disciplined(s, Call(Add(e)))
    requires s.events[e].kind.Io? && !s.events[e].active
    ensures KernelInv(AddEvent(s, e))
  {
    EffectiveDo(s, Add(e));
    hide KernelInv, Disciplined, Effective;
    NewNoteKeepsKernel(s, AddEvent(s, e), e);
  }

  lemma AddKeepsKernel(s: Loop, e: EventId)
    requires KernelInv(s) && e in s.events && Disciplined(s, Call(Add(e)))
    ensures KernelInv(AddEvent(s, e))
  {
    if s.events[e].kind.Io? && !s.events[e].active {
      AddIoKeepsKernel(s, e);
    } else {
      EffectiveDo(s, Add(e));
      SameIoKeepsKernel(s, AddEvent(s, e));
    }
  }

  lemma NoteGoneKeepsKernel(s: Loop, t: Loop, e: EventId)
    requires KernelInv(s) && IsActiveIo(s, e)
    requires t.events == s.events[e := s.events[e].(active := false)] && Batch(t) == Batch(s)
    requires Effective(t) == Effective(s) - {s.events[e].Slot()}
    ensures KernelInv(t)
  {
    hide Effective, NoDup;
    forall f | IsActiveIo(t, f) ensures IsActiveIo(s, f) && (Registered(t, f) || Awaiting(t, f)) {
      assert IsActiveIo(s, f) && f != e;
    }
    forall f | f in Batch(t) ensures BatchEntryOk(t, f) {
      assert BatchEntryOk(s, f);
    }
    forall k | k in Effective(t)
      ensures var f := Effective(t)[k].udata; IsActiveIo(t, f) && t.events[f].Slot() == k && Registered(t, f)
    {
      assert k in Effective(s) && k != s.events[e].Slot();
    }
  }

  lemma DeleteIoKeepsKernel(s: Loop, e: EventId)
    requires KernelInv(s) && e in s.events && s.events[e].kind.Io? && s.events[e].active
    ensures KernelInv(DeleteEvent(s, e))
  {
    EffectiveDo(s, Delete(e));
    hide KernelInv, Effective, Remove;
    NoteGoneKeepsKernel(s, DeleteEvent(s, e), e);
  }

  lemma DeleteKeepsKernel(s: Loop, e: EventId)
    requires KernelInv(s) && e in s.events
    ensures KernelInv(DeleteEvent(s, e))
  {
    if s.events[e].kind.Io? && s.events[e].active {
      DeleteIoKeepsKernel(s, e);
    } else {
      EffectiveDo(s, Delete(e));
      SameIoKeepsKernel(s, DeleteEvent(s, e));
    }
  }

  lemma DropKeepsKernel(s: Loop, e: EventId)
    requires KernelInv(s) && e in s.events && !s.events[e].active && e !in Batch(s)
    ensures KernelInv(s.(events := s.events - {e}))
  {
    var t := s.(events := s.events - {e});
    assert Effective(t) == Effective(s);
    hide Effective;
    forall f | IsActiveIo(t, f) ensures Registered(t, f) || Awaiting(t, f) {
      assert IsActiveIo(s, f);
    }
    forall f | f in Batch(t) ensures BatchEntryOk(t, f) {
      assert BatchEntryOk(s, f);
    }
    assert NotesRight(t);
  }

  lemma OtherCallKeepsKernel(s: Loop, c: Cmd)
    requires KernelInv(s) && IdsFresh(s) && CmdOk(s, c) && (c.Create? || c.AddTimeout?)
    ensures KernelInv(Do(s, c))
  {
    EffectiveDo(s, c);
    SameIoKeepsKernel(s, Do(s, c));
  }

  lemma WaitKeepsKernel(s: Loop, got: seq<Key>)
    requires KernelInv(s) && Batch(s) == [] && Returnable(Effective(s), got)
    ensures KernelInv(KernelWait(s, got))
  {
    var t := KernelWait(s, got);
    var eff := Effective(s);
    assert Effective(t) == t.kernel == eff - OneShots(eff, got);
    hide ApplyAll, Effective;
    forall i | 0 <= i < |got| ensures BatchEntryOk(t, Udatas(eff, got)[i]) {
      assert got[i] in eff;
    }
    forall i, j | 0 <= i < j < |got| ensures Udatas(eff, got)[i] != Udatas(eff, got)[j] {
      assert got[i] in eff && got[j] in eff;
    }
    forall e | IsActiveIo(s, e) ensures Registered(t, e) || Awaiting(t, e) {
      var k := s.events[e].Slot();
      if k in got {
        var i :| 0 <= i < |got| && got[i] == k;
        assert Udatas(eff, got)[i] == e;
      }
    }
  }

  lemma ReachKeepsKernel(s: Loop, e: EventId)
    requires KernelInv(s) && Enabled(s, Deliver(e))
    ensures KernelInv(Reach(s, e))
  {
    var t := Reach(s, e);
    assert Effective(t) == Effective(s);
    hide Effective, Remove;
    assert s.phase.batch == [e] + t.phase.batch;
    assert BatchEntryOk(s, e);
    forall f | f in t.phase.batch ensures f in s.phase.batch && f != e && BatchEntryOk(t, f) {
      assert BatchEntryOk(s, f);
    }
    forall f | IsActiveIo(t, f) ensures Registered(t, f) || Awaiting(t, f) {
      assert IsActiveIo(s, f);
      if f in s.phase.batch && f != e {
        assert f in t.phase.batch;
      }
    }
    forall k | k in Effective(t)
      ensures var f := Effective(t)[k].udata; IsActiveIo(t, f) && t.events[f].Slot() == k && Registered(t, f)
    {
      assert k in Effective(s);
    }
  }

  lemma NextKeepsKernel(s: Loop, l: Label)
    requires Sound(s) && KernelInv(s) && Enabled(s, l) && Disciplined(s, l)
    ensures KernelInv(Next(s, l))
  {
    hide Wf, KernelSane, KernelInv, AddEvent, DeleteEvent, AddTimer;
    match l
    case Call(c) =>
      match c {
        case Add(e) => AddKeepsKernel(s, e);
        case Delete(e) => DeleteKeepsKernel(s, e);
        case Free(e) => FreeKeepsKernel(s, e);
        case _ => SoundIdsFresh(s); OtherCallKeepsKernel(s, c);
      }
    case FireCb(e) => DeleteKeepsKernel(s, e);
    case FireTimer(e, _) => DeleteKeepsKernel(s, e);
    case Wait(got) => WaitKeepsKernel(s, got);
    case Deliver(e) => ReachKeepsKernel(s, e);
    case _ => SameIoKeepsKernel(s, Next(s, l));
  }

  lemma SoundIdsFresh(s: Loop)
    requires Sound(s)
    ensures IdsFresh(s)
  {
  }

  lemma FreeKeepsKernel(s: Loop, e: EventId)
    requires KernelInv(s) && e in s.events && e !in Batch(s)
    ensures KernelInv(FreeEvent(s, e))
  {
    hide KernelInv;
    DeleteKeepsKernel(s, e);
    DropKeepsKernel(DeleteEvent(s, e), e);
  }

  lemma {:induction false} KernelInvariant(s: Loop, ls: seq<Label>)
    requires Sound(s) && KernelInv(s) && Valid(s, ls) && DisciplinedRun(s, ls)
    ensures KernelInv(Run(s, ls))
    decreases |ls|
  {
    hide Sound, KernelInv, Next, Enabled, Disciplined;
    if ls != [] {
      var rest := ls[..|ls| - 1];
      KernelInvariant(s, rest);
      ListAgreement(s, rest);
      NextKeepsKernel(Run(s, rest), ls[|ls| - 1]);
    }
  }

  /**
   * Kernel agreement at every phase boundary of every disciplined run that
   * starts from an empty loop, for any mix of persistent and one-shot events
   * and any re-entrant calls.
   */
  lemma KernelAgreement(ls: seq<Label>)
    requires Valid(Init(), ls) && DisciplinedRun(Init(), ls)
    requires Batch(Run(Init(), ls)) == []
    ensures Agreement(Run(Init(), ls))
  {
    assert Sound(Init()) && KernelInv(Init());
    hide Run, Valid, Init, DisciplinedRun, Effective;
    KernelInvariant(Init(), ls);
  }

  /**
   * The exact limit: reaching a delivered event keeps the registrations right
   * unless it is an active one-shot event that is registered again by then.
   */
  lemma ReachKeepsNotesIff(s: Loop, e: EventId)
    requires NotesRight(s) && Enabled(s, Deliver(e)) && e in s.events && s.events[e].kind.Io?
    ensures NotesRight(Reach(s, e)) <==> !(s.events[e].active && !s.events[e].persist && Registered(s, e))
  {
    var t := Reach(s, e);
    assert Effective(t) == Effective(s);
    hide ApplyAll, Effective, Remove;
    if s.events[e].active && !s.events[e].persist && Registered(s, e) {
      assert s.events[e].Slot() in Effective(t) && !IsActiveIo(t, e);
    } else {
      forall k | k in Effective(t)
        ensures var f := Effective(t)[k].udata; IsActiveIo(t, f) && t.events[f].Slot() == k && Registered(t, f)
      {
        assert Effective(s)[k].udata != e || t.events == s.events;
      }
    }
  }

  const READ5 := Key(5, ReadFilter)
  const READ6 := Key(6, ReadFilter)

  ghost predicate TwoOneShots(s: Loop) {
    && 0 in s.events && s.events[0] == Event(5, Io(ReadFilter), false, true, 0, Timeval(0, 0))
    && 1 in s.events && s.events[1] == Event(6, Io(ReadFilter), false, true, 0, Timeval(0, 0))
  }

  lemma TwoAdded() returns (ls: seq<Label>)
    ensures Valid(Init(), ls)
    ensures var s := Run(Init(), ls);
      && TwoOneShots(s) && s.phase.Idle? && s.cbHead == [] && s.tHead == []
      && Effective(s) == map[READ5 := Knote(0, true), READ6 := Knote(1, true)]
  {
    var c5, c6 := Call(Create(5, Io(ReadFilter), false)), Call(Create(6, Io(ReadFilter), false));
    var s0 := Init();
    var s1 := Next(s0, c5);
    var s2 := Next(s1, c6);
    var s3 := Next(s2, Call(Add(0)));
    EffectiveDo(s2, Add(0));
    EffectiveDo(s3, Add(1));
    ls := [];
    RunSnoc(s0, ls, c5); ls := ls + [c5];
    RunSnoc(s0, ls, c6); ls := ls + [c6];
    RunSnoc(s0, ls, Call(Add(0))); ls := ls + [Call(Add(0))];
    RunSnoc(s0, ls, Call(Add(1))); ls := ls + [Call(Add(1))];
  }

  lemma BatchOfTwo(s: Loop) returns (ls: seq<Label>)
    requires TwoOneShots(s) && s.phase.Idle? && s.cbHead == [] && s.tHead == []
    requires Effective(s) == map[READ5 := Knote(0, true), READ6 := Knote(1, true)]
    ensures Valid(s, ls)
    ensures var t := Run(s, ls); TwoOneShots(t) && t.phase == InIo([0, 1]) && Effective(t) == map[]
  {
    var zero, got := Timeval(0, 0), [READ5, READ6];
    var a := Next(s, StartRound(zero));
    var b := Next(a, EndRound);
    EffectiveSame(s, b);
    assert OneShots(Effective(b), got) == {READ5, READ6};
    var c := Next(b, Wait(got));
    assert c.phase.batch == [0, 1];
    assert Effective(c) == c.kernel;
    ls := [];
    RunSnoc(s, ls, StartRound(zero)); ls := ls + [StartRound(zero)];
    RunSnoc(s, ls, EndRound); ls := ls + [EndRound];
    RunSnoc(s, ls, Wait(got)); ls := ls + [Wait(got)];
  }

  /** Reach 0; its callback deletes and adds 1. */
  lemma LoseAgreement(s: Loop) returns (t: Loop, ls: seq<Label>)
    requires s.phase == InIo([0, 1]) && Effective(s) == map[] && TwoOneShots(s)
    ensures Valid(s, ls) && t == Run(s, ls) && t.phase == InIo([1])
    ensures IsActiveIo(t, 1) && !t.events[1].persist && Registered(t, 1)
  {
    var a := Reach(s, 0);
    EffectiveSame(s, a);
    hide Effective, Remove, Valid, Run;
    t := ReAdd(a, 1);
    EmptyRun(s);
    RunSnoc(s, [], Deliver(0));
    RunSnoc(s, [Deliver(0)], Call(Delete(1)));
    RunSnoc(s, [Deliver(0), Call(Delete(1))], Call(Add(1)));
    ls := [Deliver(0), Call(Delete(1)), Call(Add(1))];
  }

  /** Deleting and adding an fd event leaves it active and registered. */
  lemma ReAdd(s: Loop, e: EventId) returns (t: Loop)
    requires IsActiveIo(s, e)
    ensures e in DeleteEvent(s, e).events && t == AddEvent(DeleteEvent(s, e), e)
    ensures t.phase == s.phase && e in t.events && t.events[e] == s.events[e] && Registered(t, e)
  {
    var b := DeleteEvent(s, e);
    t := AddEvent(b, e);
    EffectiveDo(s, Delete(e));
    EffectiveDo(b, Add(e));
  }

  /**
   * Without the discipline agreement is lost: a one-shot event is deleted and
   * added again while its delivery is pending, then reached. It ends inactive
   * and still registered.
   */
  lemma ReAddBreaksAgreement() returns (ls: seq<Label>)
    ensures Valid(Init(), ls) && Run(Init(), ls).phase == InIo([])
    ensures !Agreement(Run(Init(), ls))
  {
    ls := TwoAdded();
    hide Init, Run, Valid, Effective, Remove;
    var batch := BatchOfTwo(Run(Init(), ls));
    RunAppend(Init(), ls, batch);
    ls := ls + batch;
    var t, more := LoseAgreement(Run(Init(), ls));
    RunAppend(Init(), ls, more);
    RunSnoc(Init(), ls + more, Deliver(1));
    ls := ls + more + [Deliver(1)];
    EffectiveSame(t, Reach(t, 1));
    var k := t.events[1].Slot();
    assert k in Effective(t) && Effective(t)[k].udata == 1 && !IsActiveIo(Reach(t, 1), 1);
  }

  lemma EffectiveSame(s: Loop, t: Loop)
    requires t.kernel == s.kernel && t.pending == s.pending
    ensures Effective(t) == Effective(s)
  {
  }
}
