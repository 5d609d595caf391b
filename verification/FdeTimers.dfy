/**
 * Timers: when the insertion keeps the list in order, what a timer round
 * fires, and how long the loop may sleep.
 */
module FdeTimers {
  import opened Seqs
  import opened Timevals
  import opened Fde
  import opened FdeLists

  predicate Sorted(ts: seq<Timeval>) {
    forall i, j :: 0 <= i < j < |ts| ==> NotAfter(ts[i], ts[j])
  }

  /** The insertion finds the right place: in front, at the end, or second. */
  predicate RightPlace(ts: seq<Timeval>, tv: Timeval) {
    || |ts| <= 1
    || NotAfter(tv, ts[0])
    || NotAfter(ts[|ts| - 1], tv)
    || NotAfter(tv, ts[1])
  }

  /** The three places the insertion can choose. */
  lemma InsertPlaces(ts: seq<Timeval>, tv: Timeval)
    ensures InsertAt(ts, tv) == 0 ==> ts == [] || NotAfter(tv, ts[0])
    ensures 0 < InsertAt(ts, tv) < |ts| ==> InsertAt(ts, tv) == 1 && NotAfter(ts[0], tv) && !NotAfter(ts[|ts| - 1], tv)
    ensures 0 < InsertAt(ts, tv) == |ts| ==> NotAfter(ts[|ts| - 1], tv)
    ensures 0 < InsertAt(ts, tv) ==> !NotAfter(tv, ts[0])
  {
    if ts != [] {
      CmpAntisymmetric(tv, ts[0]);
      CmpAntisymmetric(tv, ts[|ts| - 1]);
    }
  }

  /** In the right place, everything before is not after the new time and everything from there on is not before it. */
  lemma InsertSplits(ts: seq<Timeval>, tv: Timeval, i: nat)
    requires Sorted(ts) && RightPlace(ts, tv) && i < |ts|
    ensures if i < InsertAt(ts, tv) then NotAfter(ts[i], tv) else NotAfter(tv, ts[i])
  {
    InsertPlaces(ts, tv);
    var p := InsertAt(ts, tv);
    hide InsertAt, Cmp;
    if p == 0 {
      if i > 0 { NotAfterTransitive(tv, ts[0], ts[i]); }
    } else if p == |ts| {
      if i < |ts| - 1 { NotAfterTransitive(ts[i], ts[|ts| - 1], tv); }
    } else if i > 1 {
      NotAfterTransitive(tv, ts[1], ts[i]);
    }
  }

  lemma SplitInsertSorted(ts: seq<Timeval>, p: nat, tv: Timeval)
    requires Sorted(ts) && p <= |ts|
    requires forall i :: 0 <= i < |ts| ==> if i < p then NotAfter(ts[i], tv) else NotAfter(tv, ts[i])
    ensures Sorted(InsertedAt(ts, p, tv))
  {
    hide NotAfter;
    var r := InsertedAt(ts, p, tv);
    forall i, j | 0 <= i < j < |r| ensures NotAfter(r[i], r[j]) {
      assert r[i] == if i < p then ts[i] else if i == p then tv else ts[i - 1];
      assert r[j] == if j < p then ts[j] else if j == p then tv else ts[j - 1];
    }
  }

  lemma InsertKeepsSorted(ts: seq<Timeval>, tv: Timeval)
    requires Sorted(ts) && RightPlace(ts, tv)
    ensures Sorted(InsertedAt(ts, InsertAt(ts, tv), tv))
  {
    hide Sorted, RightPlace, InsertAt, InsertedAt, NotAfter;
    forall i | 0 <= i < |ts| ensures if i < InsertAt(ts, tv) then NotAfter(ts[i], tv) else NotAfter(tv, ts[i]) {
      InsertSplits(ts, tv, i);
    }
    SplitInsertSorted(ts, InsertAt(ts, tv), tv);
  }

  /**
   * Insertion into a sorted list leaves it sorted exactly when the new time is
   * not after the first, not before the last, or not after the second: the walk
   * always stops at the first element. With at most two timers queued one of
   * these always holds.
   */
  lemma InsertKeepsSortedIff(ts: seq<Timeval>, tv: Timeval)
    requires Sorted(ts)
    ensures Sorted(InsertedAt(ts, InsertAt(ts, tv), tv)) <==> RightPlace(ts, tv)
    ensures |ts| <= 2 ==> RightPlace(ts, tv)
  {
    if RightPlace(ts, tv) {
      InsertKeepsSorted(ts, tv);
    } else {
      InsertPlaces(ts, tv);
      CmpAntisymmetric(tv, ts[|ts| - 1]);
      hide InsertAt, Cmp;
      var r := InsertedAt(ts, InsertAt(ts, tv), tv);
      assert r[1] == tv && r[2] == ts[1];
      assert !NotAfter(r[1], r[2]);
    }
    if |ts| == 2 {
      CmpAntisymmetric(tv, ts[1]);
    }
  }

  function Times(s: Loop): seq<Timeval>
    requires TimersLive(s)
  {
    TimesOf(s.events, s.tHead)
  }

  lemma TimesInserted(m: map<EventId, Event>, n: map<EventId, Event>, q: seq<EventId>, p: nat, e: EventId)
    requires p <= |q| && forall x :: x in q ==> x in m
    requires forall x :: x in InsertedAt(q, p, e) ==> x in n
    requires forall x :: x in q ==> x in n && n[x].tv == m[x].tv
    ensures e in n
    ensures TimesOf(n, InsertedAt(q, p, e)) == InsertedAt(TimesOf(m, q), p, n[e].tv)
  {
    var r := InsertedAt(q, p, e);
    assert r[p] == e;
    forall i | 0 <= i < |r| ensures TimesOf(n, r)[i] == InsertedAt(TimesOf(m, q), p, n[e].tv)[i] {
      assert r[i] == if i < p then q[i] else if i == p then e else q[i - 1];
    }
  }

  lemma TimesAfterAdd(s: Loop, e: EventId, tv: Timeval)
    requires TimersAgree(s) && TimersLive(s) && e in s.events && s.events[e].kind.Timer? && !s.events[e].active
    ensures var t := AddTimer(s, e, tv);
      TimersLive(t) && Times(t) == InsertedAt(Times(s), InsertAt(Times(s), tv), tv)
  {
    var p := InsertAt(Times(s), tv);
    assert e !in s.tHead;
    InsertedMembers(s.tHead, p, e);
    hide InsertAt, InsertedAt, TimesOf, NoDup;
    TimesInserted(s.events, AddTimer(s, e, tv).events, s.tHead, p, e);
  }

  lemma TimesWithout(m: map<EventId, Event>, n: map<EventId, Event>, q: seq<EventId>, k: nat)
    requires k < |q| && forall e :: e in q ==> e in m
    requires forall e :: e in q[..k] + q[k + 1..] ==> e in n
    requires forall i :: 0 <= i < |q| && i != k ==> q[i] in n && n[q[i]].tv == m[q[i]].tv
    ensures TimesOf(n, q[..k] + q[k + 1..]) == TimesOf(m, q)[..k] + TimesOf(m, q)[k + 1..]
  {
    var r := q[..k] + q[k + 1..];
    forall i | 0 <= i < |r| ensures TimesOf(n, r)[i] == (TimesOf(m, q)[..k] + TimesOf(m, q)[k + 1..])[i] {
      assert r[i] == q[if i < k then i else i + 1];
    }
  }

  lemma TimesAfterDelete(s: Loop, e: EventId) returns (k: nat)
    requires TimersAgree(s) && TimersLive(s) && e in s.tHead
    ensures k < |s.tHead| && s.tHead[k] == e
    ensures TimersLive(DeleteEvent(s, e))
    ensures Times(DeleteEvent(s, e)) == Times(s)[..k] + Times(s)[k + 1..]
  {
    var t := DeleteEvent(s, e);
    RemoveMembers(s.tHead, e);
    k := RemoveSplit(s.tHead, e);
    hide Remove, TimesOf;
    assert IsActiveTimer(s, e);
    forall i | 0 <= i < |s.tHead| && i != k
      ensures s.tHead[i] in t.events && t.events[s.tHead[i]].tv == s.events[s.tHead[i]].tv
    {
      assert s.tHead[i] != s.tHead[k] && s.tHead[i] in s.tHead;
    }
    TimesWithout(s.events, t.events, s.tHead, k);
  }

  lemma SortedWithout(ts: seq<Timeval>, k: nat)
    requires Sorted(ts) && k < |ts|
    ensures Sorted(ts[..k] + ts[k + 1..])
  {
    var r := ts[..k] + ts[k + 1..];
    assert forall i :: 0 <= i < |r| ==> r[i] == ts[if i < k then i else i + 1];
  }

  /** How many times in the list are due. */
  function Due(ts: seq<Timeval>, now: Timeval): nat {
    if ts == [] then 0
    else (if Before(now, ts[|ts| - 1]) then 0 else 1) + Due(ts[..|ts| - 1], now)
  }

  lemma {:induction false} DueSplit(a: seq<Timeval>, b: seq<Timeval>, now: Timeval)
    ensures Due(a + b, now) == Due(a, now) + Due(b, now)
    decreases |b|
  {
    if b == [] {
      assert a + b == a;
    } else {
      assert (a + b)[..|a + b| - 1] == a + b[..|b| - 1];
      DueSplit(a, b[..|b| - 1], now);
    }
  }

  lemma DueWithout(ts: seq<Timeval>, k: nat, now: Timeval)
    requires k < |ts|
    ensures Due(ts, now) == Due(ts[..k] + ts[k + 1..], now) + (if Before(now, ts[k]) then 0 else 1)
  {
    assert ts == ts[..k] + ([ts[k]] + ts[k + 1..]);
    DueSplit(ts[..k], [ts[k]] + ts[k + 1..], now);
    DueSplit([ts[k]], ts[k + 1..], now);
    DueSplit(ts[..k], ts[k + 1..], now);
  }

  lemma DueWith(ts: seq<Timeval>, p: nat, tv: Timeval, now: Timeval)
    requires p <= |ts|
    ensures Due(InsertedAt(ts, p, tv), now) == Due(ts, now) + (if Before(now, tv) then 0 else 1)
  {
    var r := InsertedAt(ts, p, tv);
    DueWithout(r, p, now);
    assert r[..p] + r[p + 1..] == ts;
  }

  // ------------------------------------------------------------------
  // A timer round (fde_t_runloop)
  // ------------------------------------------------------------------

  /** Firing a timer, or a call that arms timers only later than `now` and in order. */
  predicate TimerStep(s: Loop, l: Label, now: Timeval) {
    match l
    case FireTimer(_, _) => true
    case Call(AddTimeout(e, tv)) =>
      TimersLive(s) && (IsActive(s, e) || (Before(now, tv) && RightPlace(Times(s), tv)))
    case Call(_) => true
    case _ => false
  }

  predicate TimerBody(s: Loop, ls: seq<Label>, now: Timeval)
    requires Valid(s, ls)
    decreases |ls|
  {
    ls == [] ||
    (TimerBody(s, ls[..|ls| - 1], now) && TimerStep(Run(s, ls[..|ls| - 1]), ls[|ls| - 1], now))
  }

  /** The times of the timers fired, in firing order. */
  function FireTimes(ls: seq<Label>): seq<Timeval> {
    if ls == [] then []
    else
      var l := ls[|ls| - 1];
      var before := FireTimes(ls[..|ls| - 1]);
      if l.FireTimer? then before + [l.at] else before
  }

  /**
   * What holds after every step of a timer round that started with `due` due
   * timers: `ts` are the times still queued, `fired` those fired so far.
   */
  ghost predicate RoundInv(ts: seq<Timeval>, fired: seq<Timeval>, now: Timeval, due: nat) {
    && Sorted(fired + ts)
    && (forall i :: 0 <= i < |fired| ==> NotAfter(fired[i], now))
    && |fired| + Due(ts, now) <= due
  }

  lemma SortedParts(a: seq<Timeval>, b: seq<Timeval>)
    requires Sorted(a + b)
    ensures Sorted(a) && Sorted(b)
  {
    assert forall i :: 0 <= i < |a| ==> a[i] == (a + b)[i];
    assert forall i :: 0 <= i < |b| ==> b[i] == (a + b)[|a| + i];
  }

  lemma RoundInvWithout(ts: seq<Timeval>, k: nat, fired: seq<Timeval>, now: Timeval, due: nat)
    requires RoundInv(ts, fired, now, due) && k < |ts|
    ensures RoundInv(ts[..k] + ts[k + 1..], fired, now, due)
  {
    var all, at := fired + ts, |fired| + k;
    SortedWithout(all, at);
    assert all[..at] + all[at + 1..] == fired + (ts[..k] + ts[k + 1..]);
    DueWithout(ts, k, now);
  }

  lemma NotBefore(a: Timeval, b: Timeval)
    requires !Before(a, b)
    ensures NotAfter(b, a)
  {
    CmpAntisymmetric(a, b);
  }

  lemma RoundInvFire(ts: seq<Timeval>, fired: seq<Timeval>, now: Timeval, due: nat)
    requires RoundInv(ts, fired, now, due) && ts != [] && !Before(now, ts[0])
    ensures RoundInv(ts[1..], fired + [ts[0]], now, due)
  {
    NotBefore(now, ts[0]);
    DueWithout(ts, 0, now);
    assert ts[..0] + ts[1..] == ts[1..];
    assert fired + [ts[0]] + ts[1..] == fired + ts;
    hide Sorted, NotAfter, Due;
  }

  lemma RoundInvInsert(ts: seq<Timeval>, tv: Timeval, fired: seq<Timeval>, now: Timeval, due: nat)
    requires RoundInv(ts, fired, now, due) && Before(now, tv) && RightPlace(ts, tv)
    ensures RoundInv(InsertedAt(ts, InsertAt(ts, tv), tv), fired, now, due)
  {
    var p := InsertAt(ts, tv);
    var r := InsertedAt(ts, p, tv);
    SortedParts(fired, ts);
    InsertKeepsSorted(ts, tv);
    DueWith(ts, p, tv, now);
    BeforeNotAfter(now, tv);
    hide Due, InsertAt, RightPlace, Cmp, Sorted;
    forall i, j | 0 <= i < |fired| && 0 <= j < |r| ensures NotAfter(fired[i], r[j]) {
      if j == p {
        NotAfterTransitive(fired[i], now, tv);
      } else {
        SortedAcross(fired, ts, i, if j < p then j else j - 1);
      }
    }
    SortedJoin(fired, r);
  }

  lemma SortedAcross(a: seq<Timeval>, b: seq<Timeval>, i: nat, j: nat)
    requires Sorted(a + b) && i < |a| && j < |b|
    ensures NotAfter(a[i], b[j])
  {
    assert (a + b)[i] == a[i] && (a + b)[|a| + j] == b[j];
  }

  lemma SortedJoin(a: seq<Timeval>, b: seq<Timeval>)
    requires Sorted(a) && Sorted(b) && forall i, j :: 0 <= i < |a| && 0 <= j < |b| ==> NotAfter(a[i], b[j])
    ensures Sorted(a + b)
  {
    hide NotAfter;
  }

  lemma BeforeNotAfter(a: Timeval, b: Timeval)
    requires Before(a, b)
    ensures NotAfter(a, b)
  {
  }

  ghost predicate TimerInv(s: Loop, fired: seq<Timeval>, now: Timeval, due: nat) {
    s.phase == InTimers(now) && TimersLive(s) && RoundInv(Times(s), fired, now, due)
  }

  lemma DeleteKeepsTimerInv(s: Loop, e: EventId, fired: seq<Timeval>, now: Timeval, due: nat)
    requires TimersAgree(s) && e in s.events && TimerInv(s, fired, now, due)
    ensures TimerInv(DeleteEvent(s, e), fired, now, due)
  {
    hide RoundInv, Remove;
    var t := DeleteEvent(s, e);
    if e in s.tHead {
      var k := TimesAfterDelete(s, e);
      RoundInvWithout(Times(s), k, fired, now, due);
    } else {
      assert Times(t) == Times(s);
    }
  }

  lemma FireKeepsTimerInv(s: Loop, fired: seq<Timeval>, now: Timeval, due: nat)
    requires TimersAgree(s) && TimerInv(s, fired, now, due) && TimerDue(s, now)
    ensures TimerInv(DeleteEvent(s, s.tHead[0]), fired + [Times(s)[0]], now, due)
  {
    hide RoundInv, Remove;
    var k := TimesAfterDelete(s, s.tHead[0]);
    assert k == 0;
    assert Times(s)[..0] + Times(s)[1..] == Times(s)[1..];
    RoundInvFire(Times(s), fired, now, due);
  }

  lemma AddKeepsTimerInv(s: Loop, e: EventId, tv: Timeval, fired: seq<Timeval>, now: Timeval, due: nat)
    requires TimersAgree(s) && CmdOk(s, AddTimeout(e, tv)) && TimerInv(s, fired, now, due)
    requires TimerStep(s, Call(AddTimeout(e, tv)), now)
    ensures TimerInv(AddTimer(s, e, tv), fired, now, due)
  {
    hide RoundInv, RightPlace;
    if !s.events[e].active {
      TimesAfterAdd(s, e, tv);
      RoundInvInsert(Times(s), tv, fired, now, due);
    }
  }

  lemma TimerStepKeepsInv(s: Loop, l: Label, fired: seq<Timeval>, now: Timeval, due: nat)
    requires Sound(s) && TimerInv(s, fired, now, due) && Enabled(s, l) && TimerStep(s, l, now)
    ensures TimerInv(Next(s, l), if l.FireTimer? then fired + [l.at] else fired, now, due)
  {
    hide TimerInv, HeadAgrees, CallbacksAgree, KernelSane, GensOrdered;
    match l
    case FireTimer(e, at) =>
      PhaseOf(s, fired, now, due);
      FireKeepsTimerInv(s, fired, now, due);
    case Call(AddTimeout(e, tv)) => AddKeepsTimerInv(s, e, tv, fired, now, due);
    case Call(Delete(e)) => DeleteKeepsTimerInv(s, e, fired, now, due);
    case Call(Free(e)) =>
      DeleteKeepsTimerInv(s, e, fired, now, due);
      DeleteKeepsWf(s, e);
      SameTimersKeepInv(DeleteEvent(s, e), Next(s, l), fired, now, due);
    case Call(_) => SameTimersKeepInv(s, Next(s, l), fired, now, due);
  }

  lemma PhaseOf(s: Loop, fired: seq<Timeval>, now: Timeval, due: nat)
    requires TimerInv(s, fired, now, due)
    ensures s.phase == InTimers(now)
  {
  }

  lemma SameTimersKeepInv(s: Loop, t: Loop, fired: seq<Timeval>, now: Timeval, due: nat)
    requires TimerInv(s, fired, now, due) && t.phase == s.phase && t.tHead == s.tHead
    requires forall e :: e in s.tHead ==> e in s.events && e in t.events && t.events[e].tv == s.events[e].tv
    ensures TimerInv(t, fired, now, due)
  {
    assert Times(t) == Times(s);
  }

  lemma {:induction false} TimersSoFar(s: Loop, ls: seq<Label>, now: Timeval)
    requires Sound(s) && TimerInv(s, [], now, Due(Times(s), now))
    requires Valid(s, ls) && TimerBody(s, ls, now)
    ensures TimerInv(Run(s, ls), FireTimes(ls), now, Due(Times(s), now))
    decreases |ls|
  {
    var due := Due(Times(s), now);
    hide Sound, TimerInv, TimerStep, Next, Enabled;
    if ls != [] {
      var rest := ls[..|ls| - 1];
      TimersSoFar(s, rest, now);
      ListAgreement(s, rest);
      TimerStepKeepsInv(Run(s, rest), ls[|ls| - 1], FireTimes(rest), now, due);
    }
  }

  lemma SoundTimersLive(s: Loop)
    requires Sound(s)
    ensures TimersLive(s)
  {
  }

  /**
   * A timer round over a sorted list, whose callbacks arm timers only later
   * than now and in order: timers fire in time order, none of them early, no
   * more of them than were due at the start, and when it stops nothing is due.
   */
  lemma TimerRound(s: Loop, ls: seq<Label>, now: Timeval)
    requires Sound(s) && s.phase == InTimers(now) && TimersLive(s) && Sorted(Times(s))
    requires Valid(s, ls) && TimerBody(s, ls, now)
    ensures Sorted(FireTimes(ls))
    ensures forall i :: 0 <= i < |FireTimes(ls)| ==> NotAfter(FireTimes(ls)[i], now)
    ensures |FireTimes(ls)| <= Due(Times(s), now)
    ensures var t := Run(s, ls);
      TimersLive(t) && Sorted(Times(t)) &&
      (!TimerDue(t, now) ==> forall e :: e in t.tHead ==> Before(now, t.events[e].tv))
  {
    var t := Run(s, ls);
    assert [] + Times(s) == Times(s);
    TimersSoFar(s, ls, now);
    SortedParts(FireTimes(ls), Times(t));
    hide Run, Valid, TimerBody, FireTimes, Due;
    if !TimerDue(t, now) {
      forall e | e in t.tHead ensures Before(now, t.events[e].tv) {
        var j :| 0 <= j < |t.tHead| && t.tHead[j] == e;
        assert t.tHead[0] in t.tHead;
        assert j == 0 || NotAfter(Times(t)[0], Times(t)[j]);
        NotAfterTransitive(now, Times(t)[0], Times(t)[j]);
      }
    }
  }

  // ------------------------------------------------------------------
  // Any timer round, in any order and with any callbacks
  // ------------------------------------------------------------------

  predicate TimerLabels(ls: seq<Label>) {
    forall i :: 0 <= i < |ls| ==> ls[i].FireTimer? || ls[i].Call?
  }

  /** The number of queued timers that are due. */
  ghost function DueCount(s: Loop, now: Timeval): nat {
    if TimersLive(s) then Due(Times(s), now) else 0
  }

  /** The call queues a timer that is due at once. */
  predicate ArmsDue(s: Loop, l: Label, now: Timeval) {
    l.Call? && l.cmd.AddTimeout? && !IsActive(s, l.cmd.e) && !Before(now, l.cmd.tv)
  }

  /** The call takes a due timer off the list. */
  predicate DropsDue(s: Loop, l: Label, now: Timeval) {
    && l.Call? && (l.cmd.Delete? || l.cmd.Free?)
    && l.cmd.e in s.tHead && l.cmd.e in s.events && !Before(now, s.events[l.cmd.e].tv)
  }

  function DueArms(s: Loop, ls: seq<Label>, now: Timeval): nat
    requires Valid(s, ls)
    decreases |ls|
  {
    if ls == [] then 0
    else DueArms(s, ls[..|ls| - 1], now) + One(ArmsDue(Run(s, ls[..|ls| - 1]), ls[|ls| - 1], now))
  }

  function DueDrops(s: Loop, ls: seq<Label>, now: Timeval): nat
    requires Valid(s, ls)
    decreases |ls|
  {
    if ls == [] then 0
    else DueDrops(s, ls[..|ls| - 1], now) + One(DropsDue(Run(s, ls[..|ls| - 1]), ls[|ls| - 1], now))
  }

  lemma SameTimersSameDue(s: Loop, t: Loop, now: Timeval)
    requires t.tHead == s.tHead && TimersLive(s)
    requires forall e :: e in s.tHead ==> e in t.events && t.events[e].tv == s.events[e].tv
    ensures DueCount(t, now) == DueCount(s, now)
  {
    assert Times(t) == Times(s);
  }

  lemma DeleteDue(s: Loop, e: EventId, now: Timeval)
    requires TimersAgree(s) && TimersLive(s) && e in s.events
    ensures DueCount(s, now) ==
      DueCount(DeleteEvent(s, e), now) + One(e in s.tHead && !Before(now, s.events[e].tv))
  {
    hide Remove, Due;
    if e in s.tHead {
      var k := TimesAfterDelete(s, e);
      DueWithout(Times(s), k, now);
    } else {
      assert Times(DeleteEvent(s, e)) == Times(s);
    }
  }

  lemma ArmDue(s: Loop, e: EventId, tv: Timeval, now: Timeval)
    requires TimersAgree(s) && TimersLive(s) && CmdOk(s, AddTimeout(e, tv))
    ensures DueCount(AddTimer(s, e, tv), now) == DueCount(s, now) + One(!IsActive(s, e) && !Before(now, tv))
  {
    hide InsertAt, InsertedAt, Due;
    if !s.events[e].active {
      TimesAfterAdd(s, e, tv);
      DueWith(Times(s), InsertAt(Times(s), tv), tv, now);
    }
  }

  lemma FreeDue(s: Loop, e: EventId, now: Timeval)
    requires Wf(s) && TimersLive(s) && e in s.events
    ensures DueCount(s, now) ==
      DueCount(FreeEvent(s, e), now) + One(e in s.tHead && !Before(now, s.events[e].tv))
  {
    hide Due, GensOrdered, HeadAgrees;
    DeleteDue(s, e, now);
    DeleteKeepsWf(s, e);
    SameTimersSameDue(DeleteEvent(s, e), FreeEvent(s, e), now);
  }

  lemma CallDue(s: Loop, l: Label, now: Timeval)
    requires Sound(s) && Enabled(s, l) && l.Call?
    ensures Next(s, l).phase == s.phase
    ensures DueCount(Next(s, l), now) + One(DropsDue(s, l, now)) == DueCount(s, now) + One(ArmsDue(s, l, now))
  {
    SoundTimersLive(s);
    CallSamePhase(s, l.cmd);
    match l.cmd
    case AddTimeout(e, tv) =>
      hide Wf, KernelSane, DueCount, AddTimer;
      SoundTimersAgree(s);
      ArmDue(s, e, tv, now);
    case Delete(e) =>
      hide Wf, KernelSane, DueCount, DeleteEvent;
      SoundTimersAgree(s);
      DeleteDue(s, e, now);
    case Free(e) =>
      hide KernelSane, DueCount, DeleteEvent, Wf;
      FreeDue(s, e, now);
    case _ =>
      hide KernelSane, GensOrdered, DueCount;
      SameTimersSameDue(s, Next(s, l), now);
  }

  lemma CallSamePhase(s: Loop, c: Cmd)
    requires CmdOk(s, c)
    ensures Do(s, c).phase == s.phase
  {
    hide Push, InsertAt, InsertedAt;
  }

  lemma SoundTimersAgree(s: Loop)
    requires Sound(s)
    ensures TimersAgree(s)
  {
  }

  lemma FireDue(s: Loop, l: Label, now: Timeval)
    requires Sound(s) && s.phase == InTimers(now) && Enabled(s, l) && l.FireTimer?
    ensures Next(s, l).phase == s.phase && DueCount(s, now) == DueCount(Next(s, l), now) + 1
    ensures NotAfter(l.at, now)
  {
    SoundTimersLive(s);
    assert l.e in s.tHead;
    CmpAntisymmetric(now, l.at);
    hide DueCount;
    DeleteDue(s, l.e, now);
  }

  /**
   * The exact length of a timer round, for any callbacks and a list in any
   * order: it has fired as many timers as were due at its start and were armed
   * for now or earlier since, less the due ones deleted and those still queued.
   * None of them fired early.
   */
  lemma {:induction false} TimerCount(s: Loop, ls: seq<Label>, now: Timeval)
    requires Sound(s) && s.phase == InTimers(now) && Valid(s, ls) && TimerLabels(ls)
    ensures Run(s, ls).phase == s.phase
    ensures |FireTimes(ls)| + DueCount(Run(s, ls), now) + DueDrops(s, ls, now) ==
      DueCount(s, now) + DueArms(s, ls, now)
    ensures forall i :: 0 <= i < |FireTimes(ls)| ==> NotAfter(FireTimes(ls)[i], now)
    decreases |ls|
  {
    hide Sound, DueCount, Next, Enabled, ArmsDue, DropsDue, NotAfter;
    if ls != [] {
      var rest, l := ls[..|ls| - 1], ls[|ls| - 1];
      assert forall i :: 0 <= i < |rest| ==> rest[i] == ls[i];
      TimerCount(s, rest, now);
      ListAgreement(s, rest);
      if l.Call? {
        CallDue(Run(s, rest), l, now);
      } else {
        FireDue(Run(s, rest), l, now);
        NoDueCall(Run(s, rest), l, now);
      }
    }
  }

  lemma NoDueCall(s: Loop, l: Label, now: Timeval)
    requires !l.Call?
    ensures !ArmsDue(s, l, now) && !DropsDue(s, l, now)
  {
  }

  /**
   * Why "later than now" is needed: a timer whose callback arms it again for
   * the current time fires as often as one likes within one round.
   */
  lemma {:induction false} RearmAtNowNeverEnds(s: Loop, e: EventId, now: Timeval, n: nat) returns (ls: seq<Label>)
    requires Sound(s) && s.phase == InTimers(now) && s.tHead == [e] && e in s.events && NotAfter(s.events[e].tv, now)
    ensures Valid(s, ls) && |FireTimes(ls)| == n
    ensures var t := Run(s, ls); Sound(t) && t.phase == InTimers(now) && t.tHead == [e] && e in t.events && NotAfter(t.events[e].tv, now)
  {
    if n == 0 {
      ls := [];
    } else {
      ls := RearmAtNowNeverEnds(s, e, now, n - 1);
      var a := Run(s, ls);
      var fire, arm := FireTimer(e, a.events[e].tv), Call(AddTimeout(e, now));
      hide Run, Valid, Sound;
      OneMoreRearm(a, e, now);
      RunSnoc(s, ls, fire);
      RunSnoc(s, ls + [fire], arm);
      assert (ls + [fire])[..|ls|] == ls;
      assert (ls + [fire] + [arm])[..|ls + [fire]|] == ls + [fire];
      ls := ls + [fire] + [arm];
    }
  }

  lemma OneMoreRearm(a: Loop, e: EventId, now: Timeval)
    requires Sound(a) && a.phase == InTimers(now) && a.tHead == [e] && e in a.events && NotAfter(a.events[e].tv, now)
    ensures var fire, arm := FireTimer(e, a.events[e].tv), Call(AddTimeout(e, now));
      && Enabled(a, fire) && Enabled(Next(a, fire), arm)
      && var t := Next(Next(a, fire), arm);
         Sound(t) && t.phase == InTimers(now) && t.tHead == [e] && e in t.events && NotAfter(t.events[e].tv, now)
  {
    var fire, arm := FireTimer(e, a.events[e].tv), Call(AddTimeout(e, now));
    CmpAntisymmetric(a.events[e].tv, now);
    NextKeepsSound(a, fire);
    RemoveHead(a.tHead);
    assert e in a.tHead;
    assert DeleteEvent(a, e).tHead == [];
    NextKeepsSound(Next(a, fire), arm);
  }

  // ------------------------------------------------------------------
  // How long to sleep (fde_t_get_timeout)
  // ------------------------------------------------------------------

  predicate AllNormalised(ts: seq<Timeval>) {
    forall i :: 0 <= i < |ts| ==> Normalised(ts[i])
  }

  function GetTimeout(s: Loop, now: Timeval, timeout: Timeval): Timeval
    requires TimersLive(s)
  {
    if s.tHead == [] then timeout
    else if Cmp(now, Times(s)[0]) >= 0 then Timeval(0, 0)
    else Delta(now, Times(s)[0])
  }

  /**
   * With a sorted list the wait never passes a timer that is still to come, and
   * reaches the first one exactly. The caller's timeout plays no part as soon
   * as any timer is queued.
   */
  lemma SleepPassesNoTimer(s: Loop, now: Timeval, timeout: Timeval, other: Timeval, e: EventId)
    requires TimersLive(s) && Sorted(Times(s)) && Normalised(now) && AllNormalised(Times(s))
    requires e in s.tHead && Before(now, s.events[e].tv)
    ensures Micros(now) + Micros(GetTimeout(s, now, timeout)) <= Micros(s.events[e].tv)
    ensures Normalised(GetTimeout(s, now, timeout))
    ensures GetTimeout(s, now, timeout) == GetTimeout(s, now, other)
    ensures Before(now, Times(s)[0]) ==>
      Micros(now) + Micros(GetTimeout(s, now, timeout)) == Micros(Times(s)[0])
  {
    var first := Times(s)[0];
    var j :| 0 <= j < |s.tHead| && s.tHead[j] == e;
    assert j == 0 || NotAfter(first, Times(s)[j]);
    CmpIsTimeOrderIff(first, s.events[e].tv);
    CmpIsTimeOrderIff(now, s.events[e].tv);
    if Before(now, first) {
      DeltaReachesTarget(now, first);
    }
  }

  /**
   * The cap the comments promise: the wait is within the caller's timeout
   * exactly when no timer is queued or the first one is due within it.
   */
  lemma SleepCappedIff(s: Loop, now: Timeval, timeout: Timeval)
    requires TimersLive(s) && Normalised(now) && Normalised(timeout) && AllNormalised(Times(s))
    ensures Micros(GetTimeout(s, now, timeout)) <= Micros(timeout) <==>
      s.tHead == [] || Micros(Times(s)[0]) <= Micros(now) + Micros(timeout)
  {
    if s.tHead != [] {
      CmpIsTimeOrderIff(now, Times(s)[0]);
      if Before(now, Times(s)[0]) { DeltaReachesTarget(now, Times(s)[0]); }
    }
  }

  // ------------------------------------------------------------------
  // Runs that show both limits
  // ------------------------------------------------------------------

  /** The list after arming timers for these times one after the other. */
  function Armed(tvs: seq<Timeval>): seq<Timeval> {
    if tvs == [] then []
    else
      var ts, tv := Armed(tvs[..|tvs| - 1]), tvs[|tvs| - 1];
      InsertedAt(ts, InsertAt(ts, tv), tv)
  }

  /** Creating and arming timers in an empty loop. */
  lemma {:induction false} ArmingRun(tvs: seq<Timeval>) returns (ls: seq<Label>)
    ensures Valid(Init(), ls) && Sound(Run(Init(), ls)) && TimersLive(Run(Init(), ls))
    ensures Times(Run(Init(), ls)) == Armed(tvs) && Run(Init(), ls).phase.Idle?
  {
    if tvs == [] {
      ls := [];
      InitSound();
    } else {
      var rest := ArmingRun(tvs[..|tvs| - 1]);
      var tv := tvs[|tvs| - 1];
      var s := Run(Init(), rest);
      var make, arm := Call(Create(-1, Timer, false)), Call(AddTimeout(s.nextId, tv));
      ArmOne(s, tv);
      hide Run, Valid, Sound, Next, Init;
      RunSnoc(Init(), rest, make);
      RunSnoc(Init(), rest + [make], arm);
      ls := rest + [make] + [arm];
    }
  }

  lemma ArmOne(s: Loop, tv: Timeval)
    requires Sound(s) && TimersLive(s)
    ensures var make, arm := Call(Create(-1, Timer, false)), Call(AddTimeout(s.nextId, tv));
      && Enabled(s, make) && Enabled(Next(s, make), arm)
      && var t := Next(Next(s, make), arm);
         && Sound(t) && TimersLive(t) && t.phase == s.phase
         && Times(t) == InsertedAt(Times(s), InsertAt(Times(s), tv), tv)
  {
    var make, arm := Call(Create(-1, Timer, false)), Call(AddTimeout(s.nextId, tv));
    var a := Next(s, make);
    NextKeepsSound(s, make);
    SoundTimersLive(a);
    NextKeepsSound(a, arm);
    assert s.nextId !in s.events;
    assert Times(a) == Times(s);
    hide InsertAt, InsertedAt, GensOrdered, KernelSane, HeadAgrees;
    TimesAfterAdd(a, s.nextId, tv);
  }

  lemma ArmedFour(a: Timeval, b: Timeval, c: Timeval, d: Timeval)
    requires Before(a, b) && Before(b, d) && Before(d, c)
    ensures Armed([a, b, c, d]) == [a, d, b, c]
  {
    assert [a, b, c, d][..3] == [a, b, c] && [a, b, c][..2] == [a, b] && [a, b][..1] == [a] && [a][..0] == [];
    CmpAntisymmetric(a, b);
    CmpAntisymmetric(b, d);
    CmpAntisymmetric(c, d);
    NotAfterTransitive(b, d, c);
    NotAfterTransitive(a, b, d);
    NotAfterTransitive(a, b, c);
    CmpAntisymmetric(b, c);
    CmpAntisymmetric(a, d);
    CmpAntisymmetric(a, c);
    hide Cmp;
    assert Armed([a]) == [a];
    assert Armed([a, b]) == [a, b];
    assert Armed([a, b, c]) == [a, b, c];
  }

  /** Timers for 1, 2, 4 and 3 seconds, armed in this order, end up out of order. */
  lemma FourTimersUnsorted() returns (ls: seq<Label>)
    ensures Valid(Init(), ls) && TimersLive(Run(Init(), ls)) && !Sorted(Times(Run(Init(), ls)))
  {
    var a, b, c, d := Timeval(1, 0), Timeval(2, 0), Timeval(4, 0), Timeval(3, 0);
    ls := ArmingRun([a, b, c, d]);
    hide Run, Valid, Sound, Armed;
    ArmedFour(a, b, c, d);
    assert !NotAfter([a, d, b, c][1], [a, d, b, c][2]);
  }

  /** The server's wait of at most one second, with one timer five seconds ahead: it waits five. */
  lemma WaitPastTimeout() returns (ls: seq<Label>)
    ensures Valid(Init(), ls) && TimersLive(Run(Init(), ls))
    ensures GetTimeout(Run(Init(), ls), Timeval(100, 0), Timeval(1, 0)) == Timeval(5, 0)
  {
    var at := Timeval(105, 0);
    ls := ArmingRun([at]);
    assert [at][..0] == [];
    assert Armed([at]) == [at];
    hide Run, Valid, Sound;
  }
}
