/**
 * The event loop in its own imperative form. Every method is tied to the
 * transition system of module Fde: an execution of the loop, for any callbacks
 * and any kernel, is one of its runs, so what is proved of all runs holds of it.
 */
module FdeLoop {
  import opened Seqs
  import opened Timevals
  import opened Fde
  import opened FdeLists
  import opened FdeRounds
  import opened FdeTimers

  /**
   * The calls made by the callback of event `e` when it is the `n`th callback
   * run by the method at hand; any behaviour is some function of this type.
   */
  type Callbacks = (EventId, nat) -> seq<Cmd>

  predicate AllCalls(ls: seq<Label>) {
    forall i :: 0 <= i < |ls| ==> ls[i].Call?
  }

  /** From the callback numbered `quiet` on, none arms a timer for `now` or earlier. */
  ghost predicate Settles(cb: Callbacks, now: Timeval, quiet: nat) {
    forall e, n, i :: quiet <= n && 0 <= i < |cb(e, n)| && cb(e, n)[i].AddTimeout? ==> Before(now, cb(e, n)[i].tv)
  }

  class EventLoop {
    var events: map<EventId, Event>
    var nextId: EventId
    var head: seq<EventId>
    var cbHead: seq<EventId>
    var tHead: seq<EventId>
    const changes: array<Change>
    var n: nat
    var kq: Kernel
    var genid: Gen
    ghost var phase: Phase

    ghost function Snap(): Loop
      requires n <= changes.Length
      reads this, changes
    {
      Loop(events, nextId, head, cbHead, tHead, changes[..n], kq, genid, phase)
    }

    ghost predicate Inv()
      reads this, changes
    {
      changes.Length == MAX_EVENTS && n < MAX_EVENTS && Sound(Snap())
    }

    constructor ()
      ensures Inv() && Snap() == Init() && fresh(changes)
    {
      events, nextId, head, cbHead, tHead := map[], 0, [], [], [];
      changes := new Change[MAX_EVENTS](_ => Unregister(Key(0, ReadFilter)));
      n, kq, genid, phase := 0, map[], 0, Idle;
      new;
      InitSound();
    }

    /** fde_kq_flush */
    method Flush()
      requires n <= changes.Length == MAX_EVENTS
      modifies this`n, this`kq
      ensures n < MAX_EVENTS - 1
      ensures old(n) < MAX_EVENTS - 1 ==> n == old(n) && kq == old(kq)
      ensures old(n) >= MAX_EVENTS - 1 ==> n == 0 && kq == old(ApplyAll(kq, changes[..n]))
    {
      if n < MAX_EVENTS - 1 {
        return;
      }
      kq := KEvent(kq, changes, n);
      n := 0;
    }

    /** The changes of the buffer, applied one by one. */
    static method KEvent(k: Kernel, buf: array<Change>, count: nat) returns (r: Kernel)
      requires count <= buf.Length
      ensures r == ApplyAll(k, buf[..count])
    {
      r := k;
      for i := 0 to count
        invariant r == ApplyAll(k, buf[..i])
      {
        assert buf[..i + 1][..i] == buf[..i];
        r := ApplyChange(r, buf[i]);
      }
    }

    /** fde_kq_push */
    method PushChange(ch: Change)
      requires n <= changes.Length == MAX_EVENTS
      modifies this`n, this`kq, changes
      ensures n <= changes.Length
      ensures Snap() == Push(old(Snap()), ch)
    {
      Flush();
      changes[n] := ch;
      n := n + 1;
    }

    method Create(fd: int, kind: Kind, persist: bool) returns (e: EventId)
      requires Inv()
      modifies this
      ensures Inv() && e == old(nextId)
      ensures Snap() == CreateEvent(old(Snap()), fd, kind, persist)
    {
      DoKeepsWf(Snap(), Cmd.Create(fd, kind, persist));
      DoKeepsSane(Snap(), Cmd.Create(fd, kind, persist));
      e := nextId;
      events := events[e := Event(fd, kind, persist, false, 0, Timeval(0, 0))];
      nextId := nextId + 1;
    }

    /** fde_rw_add */
    method RwAdd(e: EventId)
      requires n <= changes.Length == MAX_EVENTS && e in events && events[e].kind.Io?
      modifies this, changes
      ensures n <= changes.Length && Snap() == AddEvent(old(Snap()), e)
    {
      if events[e].active {
        return;
      }
      PushChange(Register(events[e].Slot(), NoteOf(e, events[e])));
      events := events[e := events[e].(active := true)];
      head := head + [e];
    }

    /** fde_rw_delete */
    method RwDelete(e: EventId)
      requires n <= changes.Length == MAX_EVENTS && e in events && events[e].kind.Io?
      modifies this, changes
      ensures n <= changes.Length && Snap() == DeleteEvent(old(Snap()), e)
    {
      if !events[e].active {
        return;
      }
      PushChange(Unregister(events[e].Slot()));
      events := events[e := events[e].(active := false)];
      head := Remove(head, e);
    }

    /** fde_cb_add */
    method CbAdd(e: EventId)
      requires n <= changes.Length && e in events && events[e].kind.Callback?
      modifies this
      ensures n == old(n) && Snap() == AddEvent(old(Snap()), e)
    {
      if events[e].active {
        return;
      }
      events := events[e := events[e].(active := true, genid := genid)];
      head := head + [e];
      cbHead := cbHead + [e];
    }

    /** fde_cb_delete */
    method CbDelete(e: EventId)
      requires n <= changes.Length && e in events && events[e].kind.Callback?
      modifies this
      ensures n == old(n) && Snap() == DeleteEvent(old(Snap()), e)
    {
      if !events[e].active {
        return;
      }
      events := events[e := events[e].(active := false)];
      head := Remove(head, e);
      cbHead := Remove(cbHead, e);
    }

    /** fde_t_delete */
    method TDelete(e: EventId)
      requires n <= changes.Length && e in events && events[e].kind.Timer?
      modifies this
      ensures n == old(n) && Snap() == DeleteEvent(old(Snap()), e)
    {
      if !events[e].active {
        return;
      }
      events := events[e := events[e].(active := false)];
      head := Remove(head, e);
      tHead := Remove(tHead, e);
    }

    /** fde_add */
    method Add(e: EventId)
      requires Inv() && e in events
      modifies this, changes
      ensures Inv() && Snap() == AddEvent(old(Snap()), e)
    {
      DoKeepsWf(Snap(), Cmd.Add(e));
      DoKeepsSane(Snap(), Cmd.Add(e));
      match events[e].kind {
        case Io(_) => RwAdd(e);
        case Callback => CbAdd(e);
        case Timer =>
      }
    }

    /** fde_delete */
    method Delete(e: EventId)
      requires Inv() && e in events
      modifies this, changes
      ensures Inv() && Snap() == DeleteEvent(old(Snap()), e)
    {
      DoKeepsWf(Snap(), Cmd.Delete(e));
      DoKeepsSane(Snap(), Cmd.Delete(e));
      match events[e].kind {
        case Io(_) => RwDelete(e);
        case Callback => CbDelete(e);
        case Timer => TDelete(e);
      }
    }

    /** fde_free */
    method Free(e: EventId)
      requires Inv() && e in events
      modifies this, changes
      ensures Inv() && Snap() == FreeEvent(old(Snap()), e)
    {
      DoKeepsWf(Snap(), Cmd.Free(e));
      DoKeepsSane(Snap(), Cmd.Free(e));
      if events[e].active {
        Delete(e);
      }
      events := events - {e};
    }

    /** The list walk of fde_add_timeout: the first timer before `tv`. */
    method Walk(tv: Timeval) returns (i: nat)
      requires forall e :: e in tHead ==> e in events
      ensures i == WalkFrom(TimesOf(events, tHead), tv, 0)
    {
      i := 0;
      while i < |tHead| && Cmp(tv, events[tHead[i]].tv) <= 0
        invariant i <= |tHead|
        invariant WalkFrom(TimesOf(events, tHead), tv, i) == WalkFrom(TimesOf(events, tHead), tv, 0)
      {
        i := i + 1;
      }
    }

    /** fde_add_timeout; an event of another kind is queued all the same, and spoils the lists. */
    method AddTimeout(e: EventId, tv: Timeval)
      requires Inv() && e in events
      modifies this
      ensures n == old(n) && Snap() == AddTimer(old(Snap()), e, tv)
      ensures Inv() <==> old(events[e].active || events[e].kind.Timer?)
    {
      SoundTimersLive(Snap());
      AddTimerKeepsSoundIff(Snap(), e, tv);
      hide Sound;
      if events[e].active {
        return;
      }
      var p := 0;
      if tHead != [] && Cmp(tv, events[tHead[0]].tv) > 0 {
        if Cmp(tv, events[tHead[|tHead| - 1]].tv) >= 0 {
          p := |tHead|;
        } else {
          var i := Walk(tv);
          p := i + 1;
        }
      }
      assert p == InsertAt(TimesOf(events, tHead), tv);
      events := events[e := events[e].(active := true, tv := tv)];
      head := head + [e];
      tHead := InsertedAt(tHead, p, e);
    }

    /** What a callback does: the calls of its script that name a live event. */
    method Exec(cmds: seq<Cmd>) returns (ghost ls: seq<Label>)
      requires Inv()
      modifies this, changes
      ensures Inv() && Valid(old(Snap()), ls) && Run(old(Snap()), ls) == Snap() && AllCalls(ls)
      ensures forall i :: 0 <= i < |ls| ==> ls[i].cmd in cmds
    {
      ls := [];
      ghost var s0 := Snap();
      for i := 0 to |cmds|
        invariant Inv() && Valid(s0, ls) && Run(s0, ls) == Snap() && AllCalls(ls)
        invariant forall j :: 0 <= j < |ls| ==> ls[j].cmd in cmds
      {
        var ok := LiveCmd(cmds[i]);
        if ok {
          RunSnoc(s0, ls, Call(cmds[i]));
          ls := ls + [Call(cmds[i])];
          ExecOne(cmds[i]);
        }
      }
    }

    method LiveCmd(c: Cmd) returns (ok: bool)
      requires Inv()
      ensures ok <==> CmdOk(Snap(), c)
    {
      SoundTimersLive(Snap());
      match c {
        case Create(_, _, _) => ok := true;
        case AddTimeout(e, _) => ok := e in events && events[e].kind.Timer?;
        case Add(e) => ok := e in events;
        case Delete(e) => ok := e in events;
        case Free(e) => ok := e in events;
      }
    }

    method ExecOne(c: Cmd)
      requires Inv() && CmdOk(Snap(), c)
      modifies this, changes
      ensures Inv() && Snap() == Do(old(Snap()), c)
    {
      match c {
        case Create(fd, kind, persist) => var _ := Create(fd, kind, persist);
        case Add(e) => Add(e);
        case AddTimeout(e, tv) => AddTimeout(e, tv);
        case Delete(e) => Delete(e);
        case Free(e) => Free(e);
      }
    }

    /** One turn of the callback loop: take the first entry off and run it. */
    method FireFirst(k: nat, cb: Callbacks) returns (f: EventId, ghost ls: seq<Label>)
      requires Inv() && phase.InCallbacks? && RoundGoesOn(Snap(), phase.cur)
      modifies this, changes
      ensures Inv() && phase == old(phase)
      ensures Valid(old(Snap()), ls) && Run(old(Snap()), ls) == Snap()
      ensures RoundBody(ls) && Fired(ls) == [f]
      ensures |Left(Snap())| < |Left(old(Snap()))|
    {
      f := cbHead[0];
      ghost var a := Snap();
      FireShortens(a, f);
      hide Sound, Left;
      Delete(f);
      ghost var b := Snap();
      ghost var calls := Exec(cb(f, k));
      CallsShorten(b, calls);
      FireThenCalls(a, f, calls);
      ls := [FireCb(f)] + calls;
    }

    /**
     * fde_cb_runloop. It terminates for any callbacks, and runs the queue as it
     * was on entry, in order, without what was taken off before its turn.
     */
    method CbRunloop(now: Timeval, cb: Callbacks) returns (fired: seq<EventId>, ghost body: seq<Label>)
      requires Inv() && phase.Idle?
      modifies this, changes
      ensures Inv() && phase == InTimers(now)
      ensures fired == Kept(old(cbHead), TakenOff(body))
      ensures Valid(old(Snap()), [StartRound(now)] + body + [EndRound])
      ensures Snap() == Run(old(Snap()), [StartRound(now)] + body + [EndRound])
    {
      ghost var s0 := Snap();
      NextKeepsSound(s0, StartRound(now));
      var cur := genid;
      genid := NextGen(genid);
      phase := InCallbacks(cur, now);
      ghost var t0 := Snap();
      assert t0 == Next(s0, StartRound(now));
      EmptyRun(t0);
      fired, body := [], [];
      hide Sound, Left, Run, Valid, Kept, TakenOff;
      while cbHead != []
        invariant Inv() && phase == InCallbacks(cur, now)
        invariant Valid(t0, body) && Run(t0, body) == Snap() && RoundBody(body) && Fired(body) == fired
        decreases |Left(Snap())|
      {
        QueueLive(Snap());
        if events[cbHead[0]].genid != cur {
          break;
        }
        var f; ghost var ls;
        f, ls := FireFirst(|fired|, cb);
        RunAppend(t0, body, ls);
        FiredAppend(body, ls);
        fired, body := fired + [f], body + ls;
      }
      CallbackRound(s0, now, body);
      NextKeepsSound(Snap(), EndRound);
      WholeRound(s0, now, body);
      phase := InTimers(now);
    }

    /** One turn of the timer loop: take the first timer off and run it. */
    method FireTimerFirst(k: nat, cb: Callbacks, ghost quiet: nat) returns (ghost ls: seq<Label>)
      requires Inv() && phase.InTimers? && TimerDue(Snap(), phase.now) && Settles(cb, phase.now, quiet)
      modifies this, changes
      ensures Inv() && phase == old(phase)
      ensures Valid(old(Snap()), ls) && Run(old(Snap()), ls) == Snap() && TimerLabels(ls)
      ensures quiet <= k ==> DueCount(Snap(), phase.now) < DueCount(old(Snap()), phase.now)
    {
      var f := tHead[0];
      ghost var a := Snap();
      FireLessDue(a);
      hide Sound, DueCount;
      Delete(f);
      ghost var b := Snap();
      ghost var calls := Exec(cb(f, k));
      CallsKeepPhase(b, calls);
      if quiet <= k {
        forall i | 0 <= i < |calls| ensures LaterCall(calls[i], a.phase.now) {
          SettledAt(cb, f, k, a.phase.now, quiet, calls[i].cmd);
        }
        LaterCallsNoMoreDue(b, calls, a.phase.now);
      }
      TimerThenCalls(a, f, calls);
      ls := [FireTimer(f, a.events[f].tv)] + calls;
    }

    /**
     * fde_t_runloop, with callbacks that arm timers for now at most finitely
     * often: it stops, and then the first timer is not due.
     */
    method TRunloop(now: Timeval, cb: Callbacks, ghost quiet: nat) returns (ghost ls: seq<Label>)
      requires Inv() && phase == InTimers(now) && Settles(cb, now, quiet)
      modifies this, changes
      ensures Inv() && phase == old(phase) && !TimerDue(Snap(), now)
      ensures Valid(old(Snap()), ls) && Run(old(Snap()), ls) == Snap() && TimerLabels(ls)
    {
      ghost var s0 := Snap();
      EmptyRun(s0);
      ls := [];
      var k := 0;
      hide Sound, DueCount, Run, Valid, Settles;
      while tHead != []
        invariant Inv() && phase == InTimers(now)
        invariant Valid(s0, ls) && Run(s0, ls) == Snap() && TimerLabels(ls)
        decreases if k < quiet then quiet - k else 0, DueCount(Snap(), now)
      {
        FirstTimerLive(Snap());
        if Cmp(now, events[tHead[0]].tv) < 0 {
          break;
        }
        ghost var more := FireTimerFirst(k, cb, quiet);
        k := k + 1;
        RunAppend(s0, ls, more);
        ls := ls + more;
      }
    }

    /** The blocking kevent() of fde_rw_runloop; `pick` is the kernel's choice. */
    method WaitForEvents(pick: Kernel -> seq<Key>) returns (batch: seq<EventId>, ghost got: seq<Key>)
      requires Inv() && phase.InTimers? && !TimerDue(Snap(), phase.now)
      requires forall k :: Returnable(k, pick(k))
      modifies this
      ensures Inv() && Enabled(old(Snap()), Wait(got)) && Snap() == Next(old(Snap()), Wait(got))
      ensures phase == InIo(batch)
    {
      ghost var s0 := Snap();
      var k := KEvent(kq, changes, n);
      n := 0;
      got := pick(k);
      assert Returnable(k, pick(k));
      batch := Udatas(k, pick(k));
      kq := k - OneShots(k, pick(k));
      phase := InIo(batch);
      assert changes[..0] == [];
      NextKeepsSound(s0, Wait(got));
    }

    /** One entry of the returned event list. */
    method DeliverFirst(k: nat, f: EventId, cb: Callbacks) returns (ghost ls: seq<Label>)
      requires Inv() && phase.InIo? && phase.batch != [] && f == phase.batch[0]
      modifies this, changes
      ensures Inv() && phase == InIo(old(phase.batch)[1..])
      ensures Valid(old(Snap()), ls) && Run(old(Snap()), ls) == Snap()
    {
      ghost var a := Snap();
      NextKeepsSound(a, Deliver(f));
      ghost var called := IsActive(a, f);
      phase := InIo(phase.batch[1..]);
      if f in events && events[f].active {
        if !events[f].persist {
          events := events[f := events[f].(active := false)];
          head := Remove(head, f);
        }
        assert Snap() == Reach(a, f);
        hide Sound;
        ghost var b := Snap();
        ghost var calls := Exec(cb(f, k));
        CallsKeepPhase(b, calls);
        DeliverThenCalls(a, f, calls);
        ls := [Deliver(f)] + calls;
      } else {
        assert Snap() == Reach(a, f);
        EmptyRun(Snap());
        DeliverThenCalls(a, f, []);
        ls := [Deliver(f)] + [];
      }
    }

    /** fde_rw_runloop */
    method RwRunloop(pick: Kernel -> seq<Key>, cb: Callbacks) returns (ghost ls: seq<Label>)
      requires Inv() && phase.InTimers? && !TimerDue(Snap(), phase.now)
      requires forall k :: Returnable(k, pick(k))
      modifies this, changes
      ensures Inv() && phase.Idle?
      ensures Valid(old(Snap()), ls) && Run(old(Snap()), ls) == Snap()
    {
      ghost var s0 := Snap();
      var batch; ghost var got;
      batch, got := WaitForEvents(pick);
      EmptyRun(s0);
      RunSnoc(s0, [], Wait(got));
      ls := [] + [Wait(got)];
      hide Run, Valid, Sound;
      for i := 0 to |batch|
        invariant Inv() && phase == InIo(batch[i..])
        invariant Valid(s0, ls) && Run(s0, ls) == Snap()
      {
        ghost var more := DeliverFirst(i, batch[i], cb);
        RunAppend(s0, ls, more);
        ls := ls + more;
        assert batch[i..][1..] == batch[i + 1..];
      }
      NextKeepsSound(Snap(), Finish);
      RunSnoc(s0, ls, Finish);
      ls := ls + [Finish];
      phase := Idle;
    }

    /** fde_t_get_timeout, and the zero wait when callbacks are queued. */
    method SleepTime(now: Timeval, timeout: Timeval) returns (sleep: Timeval)
      requires Inv()
      ensures TimersLive(Snap())
      ensures sleep == if cbHead != [] then Timeval(0, 0) else GetTimeout(Snap(), now, timeout)
    {
      SoundTimersLive(Snap());
      FirstTimerLive(Snap());
      if cbHead != [] {
        return Timeval(0, 0);
      }
      if tHead == [] {
        return timeout;
      }
      var first := events[tHead[0]].tv;
      if Cmp(now, first) >= 0 {
        return Timeval(0, 0);
      }
      if now.usec > first.usec {
        return Timeval(Wrap(first.sec - now.sec - 1), Wrap(first.usec + MILLION - now.usec));
      }
      return Timeval(Wrap(first.sec - now.sec), Wrap(first.usec - now.usec));
    }

    /**
     * fde_runloop: one iteration is one run of the transition system from idle
     * to idle. `before` is the part of it that precedes the wait.
     */
    method Runloop(now: Timeval, timeout: Timeval, onCallback: Callbacks, onTimer: Callbacks, onIo: Callbacks,
        pick: Kernel -> seq<Key>, ghost quiet: nat)
      returns (sleep: Timeval, ghost before: seq<Label>, ghost io: seq<Label>)
      requires Inv() && phase.Idle? && Settles(onTimer, now, quiet)
      requires forall k :: Returnable(k, pick(k))
      modifies this, changes
      ensures Inv() && phase.Idle?
      ensures Valid(old(Snap()), before + io) && Snap() == Run(old(Snap()), before + io)
      ensures Valid(old(Snap()), before)
      ensures var mid := Run(old(Snap()), before);
        && TimersLive(mid) && !TimerDue(mid, now)
        && sleep == if mid.cbHead != [] then Timeval(0, 0) else GetTimeout(mid, now, timeout)
    {
      ghost var s0 := Snap();
      hide Run, Valid, Sound, Settles, TakenOff, Kept, GetTimeout;
      var fired; ghost var body;
      fired, body := CbRunloop(now, onCallback);
      before := [StartRound(now)] + body + [EndRound];
      ghost var timers := TRunloop(now, onTimer, quiet);
      RunAppend(s0, before, timers);
      before := before + timers;
      sleep := SleepTime(now, timeout);
      io := RwRunloop(pick, onIo);
      RunAppend(s0, before, io);
    }
  }

  lemma QueueLive(s: Loop)
    requires Sound(s)
    ensures CallbacksLive(s) && (s.cbHead != [] ==> s.cbHead[0] in s.events)
  {
    if s.cbHead != [] {
      assert s.cbHead[0] in s.cbHead;
    }
  }

  lemma FireThenCalls(s: Loop, f: EventId, calls: seq<Label>)
    requires Enabled(s, FireCb(f)) && Valid(DeleteEvent(s, f), calls) && AllCalls(calls)
    ensures Valid(s, [FireCb(f)] + calls) && Run(s, [FireCb(f)] + calls) == Run(DeleteEvent(s, f), calls)
    ensures RoundBody([FireCb(f)] + calls) && Fired([FireCb(f)] + calls) == [f]
  {
    EmptyRun(s);
    RunSnoc(s, [], FireCb(f));
    assert [] + [FireCb(f)] == [FireCb(f)];
    hide Run, Valid;
    RunAppend(s, [FireCb(f)], calls);
    FiredCalls([FireCb(f)], calls);
    FiredSnoc([], FireCb(f));
  }

  lemma {:induction false} FiredAppend(a: seq<Label>, b: seq<Label>)
    ensures Fired(a + b) == Fired(a) + Fired(b)
    decreases |b|
  {
    if b == [] {
      assert a + b == a;
    } else {
      assert (a + b)[..|a + b| - 1] == a + b[..|b| - 1];
      FiredAppend(a, b[..|b| - 1]);
    }
  }

  lemma {:induction false} RemoveNoLonger<T>(s: seq<T>, x: T)
    ensures |Remove(s, x)| <= |s|
  {
    if s != [] { RemoveNoLonger(s[1..], x); }
  }

  /** Calls inside a round never lengthen what is left of it. */
  lemma {:induction false} CallsShorten(s: Loop, ls: seq<Label>)
    requires Sound(s) && s.phase.InCallbacks? && Valid(s, ls) && AllCalls(ls)
    ensures Run(s, ls).phase == s.phase && |Left(Run(s, ls))| <= |Left(s)|
    decreases |ls|
  {
    hide Sound, Left, Next, Enabled;
    if ls != [] {
      var rest, l := ls[..|ls| - 1], ls[|ls| - 1];
      CallsShorten(s, rest);
      ListAgreement(s, rest);
      assert l.Call?;
      OneCallShortens(Run(s, rest), l);
    }
  }

  lemma OneCallShortens(s: Loop, l: Label)
    requires Sound(s) && s.phase.InCallbacks? && Enabled(s, l) && l.Call?
    ensures Next(s, l).phase == s.phase && |Left(Next(s, l))| <= |Left(s)|
  {
    hide Left, HeadAgrees, TimersAgree, TwoGens;
    LeftAfterCall(s, l.cmd);
    if l.cmd.Delete? || l.cmd.Free? {
      RemoveNoLonger(Left(s), l.cmd.e);
    }
  }

  lemma FiredSnoc(body: seq<Label>, l: Label)
    ensures Fired(body + [l]) == if l.FireCb? then Fired(body) + [l.e] else Fired(body)
  {
    assert (body + [l])[..|body|] == body;
  }

  lemma {:induction false} FiredCalls(body: seq<Label>, ls: seq<Label>)
    requires AllCalls(ls)
    ensures Fired(body + ls) == Fired(body)
    decreases |ls|
  {
    if ls == [] {
      assert body + ls == body;
    } else {
      assert body + ls == (body + ls[..|ls| - 1]) + [ls[|ls| - 1]];
      FiredSnoc(body + ls[..|ls| - 1], ls[|ls| - 1]);
      FiredCalls(body, ls[..|ls| - 1]);
    }
  }

  lemma WholeRound(s: Loop, now: Timeval, body: seq<Label>)
    requires Enabled(s, StartRound(now)) && Valid(Next(s, StartRound(now)), body)
    requires Enabled(Run(Next(s, StartRound(now)), body), EndRound)
    ensures var ls := [StartRound(now)] + body + [EndRound];
      Valid(s, ls) && Run(s, ls) == Next(Run(Next(s, StartRound(now)), body), EndRound)
  {
    EmptyRun(s);
    hide Enabled, Next;
    RunSnoc(s, [], StartRound(now));
    assert [] + [StartRound(now)] == [StartRound(now)];
    RunAppend(s, [StartRound(now)], body);
    RunSnoc(s, [StartRound(now)] + body, EndRound);
  }

  lemma FirstTimerLive(s: Loop)
    requires Sound(s)
    ensures s.tHead != [] ==> s.tHead[0] in s.events
  {
    if s.tHead != [] {
      assert s.tHead[0] in s.tHead;
    }
  }

  lemma SettledAt(cb: Callbacks, e: EventId, n: nat, now: Timeval, quiet: nat, c: Cmd)
    requires Settles(cb, now, quiet) && quiet <= n && c in cb(e, n)
    ensures c.AddTimeout? ==> Before(now, c.tv)
  {
    var i :| 0 <= i < |cb(e, n)| && cb(e, n)[i] == c;
  }

  lemma FireLessDue(s: Loop)
    requires Sound(s) && s.phase.InTimers? && TimerDue(s, s.phase.now)
    ensures Sound(DeleteEvent(s, s.tHead[0])) && DeleteEvent(s, s.tHead[0]).phase == s.phase
    ensures DueCount(DeleteEvent(s, s.tHead[0]), s.phase.now) < DueCount(s, s.phase.now)
  {
    var fire := FireTimer(s.tHead[0], s.events[s.tHead[0]].tv);
    NextKeepsSound(s, fire);
    hide DueCount, Sound;
    FireDue(s, fire, s.phase.now);
  }

  predicate LaterCall(l: Label, now: Timeval) {
    l.Call? && (l.cmd.AddTimeout? ==> Before(now, l.cmd.tv))
  }

  lemma OneCallNoMoreDue(s: Loop, l: Label, now: Timeval)
    requires Sound(s) && Enabled(s, l) && LaterCall(l, now)
    ensures Next(s, l).phase == s.phase && DueCount(Next(s, l), now) <= DueCount(s, now)
  {
    hide Sound, DueCount, Next, Enabled, DropsDue;
    CallDue(s, l, now);
  }

  lemma {:induction false} LaterCallsNoMoreDue(s: Loop, ls: seq<Label>, now: Timeval)
    requires Sound(s) && Valid(s, ls) && forall i :: 0 <= i < |ls| ==> LaterCall(ls[i], now)
    ensures Run(s, ls).phase == s.phase && DueCount(Run(s, ls), now) <= DueCount(s, now)
    decreases |ls|
  {
    hide Sound, DueCount, Next, Enabled, LaterCall;
    if ls != [] {
      var rest, l := ls[..|ls| - 1], ls[|ls| - 1];
      LaterCallsNoMoreDue(s, rest, now);
      ListAgreement(s, rest);
      OneCallNoMoreDue(Run(s, rest), l, now);
    }
  }

  lemma TimerThenCalls(s: Loop, f: EventId, calls: seq<Label>)
    requires f in s.events && Enabled(s, FireTimer(f, s.events[f].tv))
    requires Valid(DeleteEvent(s, f), calls) && AllCalls(calls)
    ensures var ls := [FireTimer(f, s.events[f].tv)] + calls;
      Valid(s, ls) && Run(s, ls) == Run(DeleteEvent(s, f), calls) && TimerLabels(ls)
  {
    var fire := FireTimer(f, s.events[f].tv);
    EmptyRun(s);
    RunSnoc(s, [], fire);
    assert [] + [fire] == [fire];
    hide Run, Valid;
    RunAppend(s, [fire], calls);
  }

  lemma {:induction false} CallsKeepPhase(s: Loop, ls: seq<Label>)
    requires Valid(s, ls) && AllCalls(ls)
    ensures Run(s, ls).phase == s.phase
    decreases |ls|
  {
    if ls != [] {
      CallsKeepPhase(s, ls[..|ls| - 1]);
      assert ls[|ls| - 1].Call?;
    }
  }

  lemma DeliverThenCalls(s: Loop, f: EventId, calls: seq<Label>)
    requires Enabled(s, Deliver(f)) && Valid(Reach(s, f), calls)
    ensures Valid(s, [Deliver(f)] + calls) && Run(s, [Deliver(f)] + calls) == Run(Reach(s, f), calls)
  {
    EmptyRun(s);
    RunSnoc(s, [], Deliver(f));
    assert [] + [Deliver(f)] == [Deliver(f)];
    hide Run, Valid;
    RunAppend(s, [Deliver(f)], calls);
  }
}
