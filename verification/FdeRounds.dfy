/**
 * Callback rounds (fde_cb_runloop): a round runs, in queue order, exactly the
 * callbacks that were queued when it started and were not taken off before
 * their turn, whatever the callbacks do meanwhile.
 */
module FdeRounds {
  import opened Seqs
  import opened Timevals
  import opened Fde
  import opened FdeLists

  /** Labels of the body of a round: callbacks firing and anything they call. */
  predicate RoundBody(body: seq<Label>) {
    forall i :: 0 <= i < |body| ==> body[i].FireCb? || body[i].Call?
  }

  function Fired(body: seq<Label>): seq<EventId> {
    if body == [] then []
    else
      var l := body[|body| - 1];
      var before := Fired(body[..|body| - 1]);
      if l.FireCb? then before + [l.e] else before
  }

  /** Events deleted or freed in the body before they fired in it. */
  function TakenOff(body: seq<Label>): set<EventId> {
    if body == [] then {}
    else
      var rest := body[..|body| - 1];
      var l := body[|body| - 1];
      if l.Call? && (l.cmd.Delete? || l.cmd.Free?) && l.cmd.e !in Fired(rest)
      then TakenOff(rest) + {l.cmd.e}
      else TakenOff(rest)
  }

  /** The part of a queue that carries stamp `g`. */
  function Stamped(events: map<EventId, Event>, q: seq<EventId>, g: Gen): seq<EventId> {
    if q == [] then []
    else (if q[0] in events && events[q[0]].genid == g then [q[0]] else []) + Stamped(events, q[1..], g)
  }

  lemma {:induction false} StampedMembers(events: map<EventId, Event>, q: seq<EventId>, g: Gen)
    ensures forall e :: e in Stamped(events, q, g) <==> e in q && e in events && events[e].genid == g
  {
    if q != [] { StampedMembers(events, q[1..], g); }
  }

  lemma {:induction false} StampedSame(m: map<EventId, Event>, n: map<EventId, Event>, q: seq<EventId>, g: Gen)
    requires forall e :: e in q ==> e in m && e in n && m[e].genid == n[e].genid
    ensures Stamped(m, q, g) == Stamped(n, q, g)
  {
    if q != [] { StampedSame(m, n, q[1..], g); }
  }

  lemma {:induction false} StampedAll(m: map<EventId, Event>, q: seq<EventId>, g: Gen)
    requires forall e :: e in q ==> e in m && m[e].genid == g
    ensures Stamped(m, q, g) == q
  {
    if q != [] { StampedAll(m, q[1..], g); }
  }

  lemma {:induction false} StampedRemove(m: map<EventId, Event>, n: map<EventId, Event>,
                                         q: seq<EventId>, g: Gen, x: EventId)
    requires NoDup(q)
    requires forall e :: e in q ==> e in m
    requires forall e :: e in q && e != x ==> e in n && m[e].genid == n[e].genid
    ensures Stamped(n, Remove(q, x), g) == Remove(Stamped(m, q, g), x)
  {
    if q != [] {
      var rest := Stamped(m, q[1..], g);
      if q[0] == x {
        assert x !in q[1..];
        StampedMembers(m, q[1..], g);
        StampedSame(m, n, q[1..], g);
        if m[x].genid == g { RemoveHead([x] + rest); }
      } else {
        StampedRemove(m, n, q[1..], g, x);
        assert q[0] in q;
        assert Remove(q, x)[1..] == Remove(q[1..], x);
        var first := if m[q[0]].genid == g then [q[0]] else [];
        RemoveBehind(first, rest, x);
      }
    }
  }

  lemma {:induction false} StampedNone(m: map<EventId, Event>, q: seq<EventId>, g: Gen)
    requires forall e :: e in q ==> e in m && m[e].genid != g
    ensures Stamped(m, q, g) == []
  {
    if q != [] { StampedNone(m, q[1..], g); }
  }

  lemma {:induction false} StampedAppend(m: map<EventId, Event>, n: map<EventId, Event>,
                                         q: seq<EventId>, g: Gen, x: EventId)
    requires forall e :: e in q ==> e in m && e in n && m[e].genid == n[e].genid
    requires x in n && n[x].genid != g
    ensures Stamped(n, q + [x], g) == Stamped(m, q, g)
  {
    if q != [] {
      assert (q + [x])[1..] == q[1..] + [x];
      StampedAppend(m, n, q[1..], g, x);
    } else {
      assert Stamped(n, [x], g) == [];
    }
  }

  /** What is left to run of the current round. */
  function Left(s: Loop): seq<EventId>
    requires s.phase.InCallbacks?
  {
    Stamped(s.events, s.cbHead, s.phase.cur)
  }

  /** An API call inside a round can only shorten what is left of the round. */
  lemma LeftAfterCall(s: Loop, c: Cmd)
    requires CallbacksAgree(s) && IdsFresh(s) && s.phase.InCallbacks? && s.genid != s.phase.cur && CmdOk(s, c)
    ensures Left(Do(s, c)) == if c.Delete? || c.Free? then Remove(Left(s), c.e) else Left(s)
  {
    hide Remove, Stamped, ApplyAll, NoDup, InsertAt;
    var t := Do(s, c);
    var g := s.phase.cur;
    match c
    case Add(e) =>
      if s.events[e].kind.Callback? && !s.events[e].active {
        assert e !in s.cbHead;
        StampedAppend(s.events, t.events, s.cbHead, g, e);
      } else {
        StampedSame(s.events, t.events, s.cbHead, g);
      }
    case Delete(e) =>
      LeftAfterDelete(s, e);
    case Free(e) =>
      LeftAfterDelete(s, e);
      RemoveMembers(s.cbHead, e);
      StampedSame(DeleteEvent(s, e).events, t.events, t.cbHead, g);
    case _ =>
      StampedSame(s.events, t.events, s.cbHead, g);
  }

  lemma LeftAfterDelete(s: Loop, e: EventId)
    requires CallbacksAgree(s) && s.phase.InCallbacks? && e in s.events
    ensures Left(DeleteEvent(s, e)) == Remove(Left(s), e)
  {
    hide Remove, Stamped, ApplyAll, NoDup;
    var t := DeleteEvent(s, e);
    assert t.phase == s.phase;
    assert t.cbHead == Remove(s.cbHead, e) by {
      if !IsActiveCallback(s, e) {
        assert e !in s.cbHead;
      }
    }
    assert forall x :: x in s.cbHead ==> IsActiveCallback(s, x);
    StampedRemove(s.events, t.events, s.cbHead, s.phase.cur, e);
  }

  lemma LeftHead(s: Loop)
    requires s.phase.InCallbacks? && RoundGoesOn(s, s.phase.cur)
    ensures Left(s) != [] && Left(s)[0] == s.cbHead[0]
  {
  }

  lemma LeftEmpty(s: Loop)
    requires Sound(s) && s.phase.InCallbacks? && Enabled(s, EndRound)
    ensures Left(s) == []
  {
    EndRoundDrained(s);
    StampedNone(s.events, s.cbHead, s.phase.cur);
  }

  lemma FireStep(s: Loop, ls: seq<Label>, e: EventId)
    requires CallbacksAgree(s) && Enabled(s, FireCb(e))
    ensures Fired(ls + [FireCb(e)]) + Left(DeleteEvent(s, e)) == Fired(ls) + Left(s)
    ensures TakenOff(ls + [FireCb(e)]) == TakenOff(ls)
  {
    assert (ls + [FireCb(e)])[..|ls|] == ls;
    LeftHead(s);
    LeftAfterDelete(s, e);
    RemoveHead(Left(s));
    assert Left(s) == [e] + Left(s)[1..];
  }

  lemma CallStep(s: Loop, ls: seq<Label>, c: Cmd, q: seq<EventId>)
    requires CallbacksAgree(s) && IdsFresh(s) && s.phase.InCallbacks? && s.genid != s.phase.cur && CmdOk(s, c)
    requires NoDup(q) && Fired(ls) + Left(s) == Kept(q, TakenOff(ls))
    ensures Fired(ls + [Call(c)]) + Left(Do(s, c)) == Kept(q, TakenOff(ls + [Call(c)]))
  {
    assert (ls + [Call(c)])[..|ls|] == ls;
    assert Fired(ls + [Call(c)]) == Fired(ls);
    LeftAfterCall(s, c);
    if !c.Delete? && !c.Free? {
      assert TakenOff(ls + [Call(c)]) == TakenOff(ls);
    } else {
      KeptOneLess(q, TakenOff(ls), c.e);
      KeptMembers(q, TakenOff(ls));
      if c.e in Fired(ls) {
        FiredGone(Fired(ls), Left(s), c.e);
        assert TakenOff(ls + [Call(c)]) == TakenOff(ls);
      } else {
        RemoveBehind(Fired(ls), Left(s), c.e);
      }
    }
  }

  lemma RoundStep(s: Loop, ls: seq<Label>, l: Label, q: seq<EventId>)
    requires Wf(s) && s.phase.InCallbacks? && Enabled(s, l) && (l.FireCb? || l.Call?)
    requires NoDup(q) && Fired(ls) + Left(s) == Kept(q, TakenOff(ls))
    ensures Next(s, l).phase == s.phase
    ensures Fired(ls + [l]) + Left(Next(s, l)) == Kept(q, TakenOff(ls + [l]))
  {
    hide TwoGens, HeadAgrees, TimersAgree;
    if l.FireCb? {
      FireStep(s, ls, l.e);
    } else {
      CallStep(s, ls, l.cmd, q);
    }
  }

  lemma FiredGone(fired: seq<EventId>, left: seq<EventId>, e: EventId)
    requires NoDup(fired + left) && e in fired
    ensures e !in left
  {
    var i :| 0 <= i < |fired| && fired[i] == e;
    forall j | 0 <= j < |left| ensures left[j] != e {
      assert (fired + left)[i] != (fired + left)[|fired| + j];
    }
  }

  /** When a round starts, all of the queue belongs to it. */
  lemma RoundStarts(s: Loop)
    requires Wf(s) && s.phase.Idle?
    ensures Stamped(s.events, s.cbHead, s.genid) == s.cbHead == Kept(s.cbHead, {})
  {
    forall e | e in s.cbHead ensures s.events[e].genid == s.genid {
      var i :| 0 <= i < |s.cbHead| && s.cbHead[i] == e;
      assert Gens(s)[i] == s.genid;
    }
    StampedAll(s.events, s.cbHead, s.genid);
    KeptAll(s.cbHead);
  }

  lemma RoundOpens(s: Loop, now: Timeval)
    requires Sound(s) && s.phase.Idle?
    ensures Enabled(s, StartRound(now)) && NoDup(s.cbHead)
    ensures var t := Next(s, StartRound(now));
      Sound(t) && t.phase.InCallbacks? && Left(t) == Kept(s.cbHead, {})
  {
    RoundStarts(s);
    NextKeepsSound(s, StartRound(now));
  }

  /** At any moment of a round: what has run, followed by what is left of it. */
  lemma {:induction false} RoundSoFar(t: Loop, q: seq<EventId>, body: seq<Label>)
    requires Sound(t) && t.phase.InCallbacks? && Left(t) == Kept(q, {}) && NoDup(q)
    requires RoundBody(body) && Valid(t, body)
    ensures Run(t, body).phase == t.phase
    ensures Fired(body) + Left(Run(t, body)) == Kept(q, TakenOff(body))
    decreases |body|
  {
    hide Sound, Left, Next, Enabled;
    if body != [] {
      var rest := body[..|body| - 1];
      var l := body[|body| - 1];
      RoundSoFar(t, q, rest);
      assert rest + [l] == body;
      assert l.FireCb? || l.Call?;
      ListAgreement(t, rest);
      RoundStep(Run(t, rest), rest, l, q);
    }
  }

  /**
   * A whole round: the callbacks fired are the queue at its start, in order,
   * without those taken off before their turn. Nothing queued during the round
   * runs in it, and no callback behaviour can make it run more entries than
   * were queued, also when the generation counter wraps.
   */
  lemma CallbackRound(s: Loop, now: Timeval, body: seq<Label>)
    requires Sound(s) && s.phase.Idle?
    requires RoundBody(body) && Valid(Next(s, StartRound(now)), body)
    ensures Fired(body) <= Kept(s.cbHead, TakenOff(body))
    ensures |Fired(body)| <= |s.cbHead|
    ensures Enabled(Run(Next(s, StartRound(now)), body), EndRound) ==>
      Fired(body) == Kept(s.cbHead, TakenOff(body))
  {
    hide *;
    RoundOpens(s, now);
    var t := Next(s, StartRound(now));
    RoundSoFar(t, s.cbHead, body);
    KeptMembers(s.cbHead, TakenOff(body));
    ListAgreement(t, body);
    if Enabled(Run(t, body), EndRound) {
      LeftEmpty(Run(t, body));
    }
  }

  lemma FireShortens(s: Loop, f: EventId)
    requires Sound(s) && Enabled(s, FireCb(f))
    ensures Sound(DeleteEvent(s, f)) && DeleteEvent(s, f).phase == s.phase
    ensures |Left(DeleteEvent(s, f))| < |Left(s)|
  {
    NextKeepsSound(s, FireCb(f));
    LeftHead(s);
    LeftAfterDelete(s, f);
    RemoveHead(Left(s));
  }
}
