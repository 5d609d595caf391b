/**
 * The threads of src/srv/srv.c after start-up: an accepted descriptor is set up
 * where it was accepted or handed to another thread through its queue.
 */
module Handoff {
  import opened Seqs
  import opened Timevals

  /** An accepted descriptor: one token per accept, with its flow id and who accepted it. */
  datatype Token = Token(id: nat, flowid: nat, taker: nat)

  /** A connection on a thread's list; `open` until its comm has closed the descriptor. */
  datatype Client = Client(tok: Token, open: bool)

  /** struct thr: its queue of new descriptors with the lock over it, and its connections. */
  datatype Thread = Thread(newfd: seq<Token>, locked: bool, conns: seq<Client>, numClients: int)

  datatype Server = Server(threads: seq<Thread>, affinity: bool, accepted: seq<Token>, closed: multiset<Token>)

  // ------------------------------------------------------------------
  // What one thread does
  // ------------------------------------------------------------------

  /** thrsrv_flowid_to_thread */
  function FlowThread(flowid: nat): int {
    if flowid == 0 then -1 else flowid % 8
  }

  /** thrsrv_newfd_enqueue */
  function Enqueued(t: Thread, tok: Token): Thread {
    t.(newfd := t.newfd + [tok])
  }

  /** thrsrv_finish_setup; `ok` says whether conn_new succeeds. */
  function SetUp(t: Thread, tok: Token, ok: bool): Thread {
    if ok then t.(conns := t.conns + [Client(tok, true)], numClients := t.numClients + 1) else t
  }

  /** One turn of the loop in thrsrv_run_deferred */
  function TakeFirst(t: Thread, ok: bool): Thread
    requires t.newfd != []
  {
    SetUp(t.(newfd := t.newfd[1..]), t.newfd[0], ok)
  }

  /** The comm of a connection closes the descriptor. */
  function Shut(t: Thread, j: nat): Thread
    requires j < |t.conns|
  {
    t.(conns := t.conns[j := t.conns[j].(open := false)])
  }

  /** thrsrv_conn_update_cb for CONN_STATE_FREEING */
  function Forget(t: Thread, j: nat): Thread
    requires j < |t.conns|
  {
    t.(conns := t.conns[..j] + t.conns[j + 1..], numClients := t.numClients - 1)
  }

  // ------------------------------------------------------------------
  // All threads, in any interleaving
  // ------------------------------------------------------------------

  datatype Label =
    | Accept(t: nat, flowid: nat, queued: bool, ok: bool)
    | BeginDrain(t: nat)
    | DrainOne(t: nat, ok: bool)
    | EndDrain(t: nat)
    | Closes(t: nat, j: nat)
    | Frees(t: nat, j: nat)

  /** The accepting thread hands the descriptor over. */
  predicate HandsOver(s: Server, t: nat, flowid: nat) {
    s.affinity && FlowThread(flowid) != -1 && FlowThread(flowid) != t
  }

  function Destination(s: Server, t: nat, flowid: nat): (d: nat)
    requires t < |s.threads|
    ensures d < |s.threads|
  {
    if HandsOver(s, t, flowid) then FlowThread(flowid) % |s.threads| else t
  }

  /** A thread does one thing at a time; a held queue lock keeps other threads out of the queue. */
  predicate CanDo(s: Server, x: Label) {
    && x.t < |s.threads|
    && match x
       case Accept(t, flowid, _, _) =>
         !s.threads[t].locked && (HandsOver(s, t, flowid) ==> !s.threads[Destination(s, t, flowid)].locked)
       case BeginDrain(t) => !s.threads[t].locked
       case DrainOne(t, _) => s.threads[t].locked && s.threads[t].newfd != []
       case EndDrain(t) => s.threads[t].locked && s.threads[t].newfd == []
       case Closes(t, j) => !s.threads[t].locked && j < |s.threads[t].conns| && s.threads[t].conns[j].open
       case Frees(t, j) => !s.threads[t].locked && j < |s.threads[t].conns| && !s.threads[t].conns[j].open
  }

  function With(s: Server, t: nat, th: Thread): Server
    requires t < |s.threads|
  {
    s.(threads := s.threads[t := th])
  }

  function Close(s: Server, tok: Token): Server {
    s.(closed := s.closed + multiset{tok})
  }

  function Do(s: Server, x: Label): Server
    requires CanDo(s, x)
  {
    match x
    case Accept(t, flowid, queued, ok) =>
      var tok := Token(|s.accepted|, flowid, t);
      var a := s.(accepted := s.accepted + [tok]);
      if HandsOver(s, t, flowid) then
        var d := Destination(s, t, flowid);
        if queued then With(a, d, Enqueued(s.threads[d], tok)) else Close(a, tok)
      else
        var b := With(a, t, SetUp(s.threads[t], tok, ok));
        if ok then b else Close(b, tok)
    case BeginDrain(t) => With(s, t, s.threads[t].(locked := true))
    case DrainOne(t, ok) =>
      var b := With(s, t, TakeFirst(s.threads[t], ok));
      if ok then b else Close(b, s.threads[t].newfd[0])
    case EndDrain(t) => With(s, t, s.threads[t].(locked := false))
    case Closes(t, j) => Close(With(s, t, Shut(s.threads[t], j)), s.threads[t].conns[j].tok)
    case Frees(t, j) => With(s, t, Forget(s.threads[t], j))
  }

  predicate Valid(s: Server, xs: seq<Label>)
    decreases |xs|, 0
  {
    xs == [] || (Valid(s, xs[..|xs| - 1]) && CanDo(Run(s, xs[..|xs| - 1]), xs[|xs| - 1]))
  }

  function Run(s: Server, xs: seq<Label>): Server
    requires Valid(s, xs)
    decreases |xs|, 1
  {
    if xs == [] then s else Do(Run(s, xs[..|xs| - 1]), xs[|xs| - 1])
  }

  /** `n` threads with nothing to do. */
  function Start(n: nat, affinity: bool): Server {
    Server(seq(n, _ => Thread([], false, [], 0)), affinity, [], multiset{})
  }

  // ------------------------------------------------------------------
  // Conservation
  // ------------------------------------------------------------------

  /** How often a descriptor is held open by a thread's connections. */
  function OpenIn(conns: seq<Client>, tok: Token): nat {
    if conns == [] then 0
    else OpenIn(conns[..|conns| - 1], tok) + One(conns[|conns| - 1] == Client(tok, true))
  }

  /** How often it is in a thread's hands: in its queue, or open in a connection. */
  function Held(t: Thread, tok: Token): nat {
    multiset(t.newfd)[tok] + OpenIn(t.conns, tok)
  }

  function HeldByAll(ts: seq<Thread>, tok: Token): nat {
    if ts == [] then 0 else HeldByAll(ts[..|ts| - 1], tok) + Held(ts[|ts| - 1], tok)
  }

  /** The thread a descriptor is for, whoever accepts it. */
  function Home(n: nat, affinity: bool, tok: Token): nat {
    if affinity && tok.flowid != 0 && n > 0 then (tok.flowid % 8) % n else tok.taker
  }

  /** What is queued or connected on thread `t` is for it, and its count is right. */
  ghost predicate AtHome(n: nat, affinity: bool, t: nat, th: Thread) {
    && (forall k :: 0 <= k < |th.newfd| ==> Home(n, affinity, th.newfd[k]) == t)
    && (forall j :: 0 <= j < |th.conns| ==> Home(n, affinity, th.conns[j].tok) == t)
    && th.numClients == |th.conns|
  }

  ghost predicate Inv(s: Server) {
    && (forall k :: 0 <= k < |s.accepted| ==> s.accepted[k].id == k)
    && (forall tok :: multiset(s.accepted)[tok] == HeldByAll(s.threads, tok) + s.closed[tok])
    && (forall t :: 0 <= t < |s.threads| ==> AtHome(|s.threads|, s.affinity, t, s.threads[t]))
  }

  lemma {:induction false} HeldChange(ts: seq<Thread>, t: nat, th: Thread, tok: Token)
    requires t < |ts|
    ensures HeldByAll(ts[t := th], tok) + Held(ts[t], tok) == HeldByAll(ts, tok) + Held(th, tok)
  {
    var n := |ts| - 1;
    hide Held;
    if t == n {
      assert ts[t := th][..n] == ts[..n];
    } else {
      assert ts[t := th][..n] == ts[..n][t := th];
      HeldChange(ts[..n], t, th, tok);
    }
  }

  lemma OpenAdds(conns: seq<Client>, c: Client, tok: Token)
    ensures OpenIn(conns + [c], tok) == OpenIn(conns, tok) + One(c == Client(tok, true))
  {
    assert (conns + [c])[..|conns|] == conns;
  }

  lemma {:induction false} OpenShut(conns: seq<Client>, j: nat, tok: Token)
    requires j < |conns| && conns[j].open
    ensures OpenIn(conns[j := conns[j].(open := false)], tok) + One(conns[j].tok == tok) == OpenIn(conns, tok)
  {
    var n := |conns| - 1;
    var u := conns[j := conns[j].(open := false)];
    if j == n {
      assert u[..n] == conns[..n];
    } else {
      assert u[..n] == conns[..n][j := conns[j].(open := false)];
      OpenShut(conns[..n], j, tok);
    }
  }

  lemma {:induction false} OpenForget(conns: seq<Client>, j: nat, tok: Token)
    requires j < |conns| && !conns[j].open
    ensures OpenIn(conns[..j] + conns[j + 1..], tok) == OpenIn(conns, tok)
  {
    var n := |conns| - 1;
    var u := conns[..j] + conns[j + 1..];
    if j == n {
      assert u == conns[..n];
    } else {
      assert u[..|u| - 1] == conns[..n][..j] + conns[..n][j + 1..];
      OpenForget(conns[..n], j, tok);
    }
  }

  lemma FirstOut(q: seq<Token>, tok: Token)
    requires q != []
    ensures multiset(q)[tok] == One(q[0] == tok) + multiset(q[1..])[tok]
  {
    assert q == [q[0]] + q[1..];
  }

  lemma AcceptHeld(s: Server, t: nat, flowid: nat, queued: bool, ok: bool, tok: Token)
    requires CanDo(s, Accept(t, flowid, queued, ok))
    ensures var r := Do(s, Accept(t, flowid, queued, ok));
      multiset(r.accepted)[tok] + HeldByAll(s.threads, tok) + s.closed[tok] ==
      multiset(s.accepted)[tok] + HeldByAll(r.threads, tok) + r.closed[tok]
  {
    hide HeldByAll, OpenIn;
    var it := Token(|s.accepted|, flowid, t);
    if HandsOver(s, t, flowid) {
      var d := Destination(s, t, flowid);
      HeldChange(s.threads, d, Enqueued(s.threads[d], it), tok);
    } else {
      HeldChange(s.threads, t, SetUp(s.threads[t], it, ok), tok);
      OpenAdds(s.threads[t].conns, Client(it, true), tok);
    }
  }

  /** One step moves descriptors, and makes or loses none. */
  lemma StepHeld(s: Server, x: Label, tok: Token)
    requires CanDo(s, x)
    ensures multiset(Do(s, x).accepted)[tok] + HeldByAll(s.threads, tok) + s.closed[tok] ==
      multiset(s.accepted)[tok] + HeldByAll(Do(s, x).threads, tok) + Do(s, x).closed[tok]
  {
    hide HeldByAll, OpenIn;
    match x
    case Accept(t, flowid, queued, ok) => AcceptHeld(s, t, flowid, queued, ok, tok);
    case BeginDrain(t) => HeldChange(s.threads, t, s.threads[t].(locked := true), tok);
    case DrainOne(t, ok) =>
      HeldChange(s.threads, t, TakeFirst(s.threads[t], ok), tok);
      FirstOut(s.threads[t].newfd, tok);
      OpenAdds(s.threads[t].conns, Client(s.threads[t].newfd[0], true), tok);
    case EndDrain(t) => HeldChange(s.threads, t, s.threads[t].(locked := false), tok);
    case Closes(t, j) =>
      HeldChange(s.threads, t, Shut(s.threads[t], j), tok);
      OpenShut(s.threads[t].conns, j, tok);
    case Frees(t, j) =>
      HeldChange(s.threads, t, Forget(s.threads[t], j), tok);
      OpenForget(s.threads[t].conns, j, tok);
  }

  /** Where it goes does not depend on who accepts it, when the flow decides. */
  lemma DestinationIsHome(s: Server, t: nat, flowid: nat, id: nat)
    requires t < |s.threads|
    ensures Home(|s.threads|, s.affinity, Token(id, flowid, t)) == Destination(s, t, flowid)
  {
  }

  lemma ArrivalAtHome(n: nat, affinity: bool, t: nat, th: Thread, tok: Token, ok: bool)
    requires AtHome(n, affinity, t, th) && Home(n, affinity, tok) == t
    ensures AtHome(n, affinity, t, Enqueued(th, tok)) && AtHome(n, affinity, t, SetUp(th, tok, ok))
  {
    hide Home;
  }

  lemma DrainAtHome(n: nat, affinity: bool, t: nat, th: Thread, ok: bool)
    requires AtHome(n, affinity, t, th)
    ensures AtHome(n, affinity, t, th.(locked := true)) && AtHome(n, affinity, t, th.(locked := false))
    ensures th.newfd != [] ==> AtHome(n, affinity, t, TakeFirst(th, ok))
  {
    hide Home;
    if th.newfd != [] {
      var a := th.(newfd := th.newfd[1..]);
      assert AtHome(n, affinity, t, a);
      ArrivalAtHome(n, affinity, t, a, th.newfd[0], ok);
    }
  }

  lemma LeaveAtHome(n: nat, affinity: bool, t: nat, th: Thread, j: nat)
    requires AtHome(n, affinity, t, th) && j < |th.conns|
    ensures AtHome(n, affinity, t, Shut(th, j)) && AtHome(n, affinity, t, Forget(th, j))
  {
    hide Home;
  }

  lemma StepAtHome(s: Server, x: Label, u: nat)
    requires CanDo(s, x) && u < |s.threads| && AtHome(|s.threads|, s.affinity, u, s.threads[u])
    ensures |Do(s, x).threads| == |s.threads| && Do(s, x).affinity == s.affinity
    ensures AtHome(|s.threads|, s.affinity, u, Do(s, x).threads[u])
  {
    var n, th := |s.threads|, s.threads[u];
    hide AtHome, Home, Enqueued, SetUp, TakeFirst, Shut, Forget, Destination, HandsOver;
    match x
    case Accept(t, flowid, queued, ok) =>
      DestinationIsHome(s, t, flowid, |s.accepted|);
      if u == Destination(s, t, flowid) {
        ArrivalAtHome(n, s.affinity, u, th, Token(|s.accepted|, flowid, t), ok);
      }
      LocalUnlessHanded(s, t, flowid);
    case BeginDrain(t) => DrainAtHome(n, s.affinity, u, th, true);
    case DrainOne(t, ok) => DrainAtHome(n, s.affinity, u, th, ok);
    case EndDrain(t) => DrainAtHome(n, s.affinity, u, th, true);
    case Closes(t, j) => if u == t { LeaveAtHome(n, s.affinity, u, th, j); }
    case Frees(t, j) => if u == t { LeaveAtHome(n, s.affinity, u, th, j); }
  }

  lemma LocalUnlessHanded(s: Server, t: nat, flowid: nat)
    requires t < |s.threads|
    ensures !HandsOver(s, t, flowid) ==> Destination(s, t, flowid) == t
  {
  }

  lemma StepAccepts(s: Server, x: Label)
    requires CanDo(s, x)
    ensures Do(s, x).accepted == if x.Accept? then s.accepted + [Token(|s.accepted|, x.flowid, x.t)] else s.accepted
  {
  }

  lemma StepKeepsInv(s: Server, x: Label)
    requires Inv(s) && CanDo(s, x)
    ensures Inv(Do(s, x)) && |Do(s, x).threads| == |s.threads| && Do(s, x).affinity == s.affinity
  {
    hide HeldByAll, AtHome, Do;
    var r := Do(s, x);
    StepAccepts(s, x);
    forall tok ensures multiset(r.accepted)[tok] == HeldByAll(r.threads, tok) + r.closed[tok] {
      StepHeld(s, x, tok);
    }
    forall u | 0 <= u < |s.threads|
      ensures |r.threads| == |s.threads| && r.affinity == s.affinity
      ensures AtHome(|s.threads|, s.affinity, u, r.threads[u])
    {
      StepAtHome(s, x, u);
    }
    StepAtHome(s, x, x.t);
  }

  lemma {:induction false} RunKeepsInv(s: Server, xs: seq<Label>)
    requires Inv(s) && Valid(s, xs)
    ensures Inv(Run(s, xs)) && |Run(s, xs).threads| == |s.threads| && Run(s, xs).affinity == s.affinity
    decreases |xs|
  {
    hide Inv, Do, CanDo;
    if xs != [] {
      RunKeepsInv(s, xs[..|xs| - 1]);
      StepKeepsInv(Run(s, xs[..|xs| - 1]), xs[|xs| - 1]);
    }
  }

  lemma {:induction false} NothingHeld(n: nat, affinity: bool, k: nat, tok: Token)
    requires k <= n
    ensures HeldByAll(Start(n, affinity).threads[..k], tok) == 0
  {
    if k > 0 {
      NothingHeld(n, affinity, k - 1, tok);
      assert Start(n, affinity).threads[..k][..k - 1] == Start(n, affinity).threads[..k - 1];
    }
  }

  lemma StartInv(n: nat, affinity: bool)
    ensures Inv(Start(n, affinity))
  {
    assert Start(n, affinity).threads[..n] == Start(n, affinity).threads;
    forall tok ensures HeldByAll(Start(n, affinity).threads, tok) == 0 {
      NothingHeld(n, affinity, n, tok);
    }
  }

  lemma {:induction false} AcceptedOnce(accepted: seq<Token>, k: nat)
    requires k < |accepted| && forall i :: 0 <= i < |accepted| ==> accepted[i].id == i
    ensures multiset(accepted)[accepted[k]] == 1
  {
    var n := |accepted| - 1;
    assert accepted == accepted[..n] + [accepted[n]];
    if k < n {
      AcceptedOnce(accepted[..n], k);
    } else {
      assert accepted[k] !in accepted[..n];
    }
  }

  /**
   * In every run of the threads: each accepted descriptor is in exactly one
   * queue, open in exactly one connection, or closed exactly once; whatever is
   * queued or connected is on its home thread; and each thread counts its
   * connections.
   */
  lemma HandoffLaw(n: nat, affinity: bool, xs: seq<Label>, tok: Token, t: nat)
    requires Valid(Start(n, affinity), xs)
    ensures var r := Run(Start(n, affinity), xs);
      && HeldByAll(r.threads, tok) + r.closed[tok] == One(tok in r.accepted)
      && |r.threads| == n
      && (t < n ==>
            && r.threads[t].numClients == |r.threads[t].conns|
            && (Held(r.threads[t], tok) > 0 ==> t == Home(n, affinity, tok)))
  {
    StartInv(n, affinity);
    hide HeldByAll, Held, Home, Run, Valid;
    RunKeepsInv(Start(n, affinity), xs);
    var r := Run(Start(n, affinity), xs);
    assert multiset(r.accepted)[tok] == HeldByAll(r.threads, tok) + r.closed[tok];
    if tok in r.accepted {
      var k :| 0 <= k < |r.accepted| && r.accepted[k] == tok;
      AcceptedOnce(r.accepted, k);
    } else {
      assert tok !in multiset(r.accepted);
    }
    if t < n {
      assert AtHome(n, affinity, t, r.threads[t]);
      if Held(r.threads[t], tok) > 0 { HeldAtHome(n, affinity, t, r.threads[t], tok); }
    }
  }

  lemma {:induction false} OpenWhere(conns: seq<Client>, tok: Token) returns (j: nat)
    requires OpenIn(conns, tok) > 0
    ensures j < |conns| && conns[j] == Client(tok, true)
  {
    var n := |conns| - 1;
    if OpenIn(conns[..n], tok) > 0 { j := OpenWhere(conns[..n], tok); } else { j := n; }
  }

  lemma HeldAtHome(n: nat, affinity: bool, t: nat, th: Thread, tok: Token)
    requires AtHome(n, affinity, t, th) && Held(th, tok) > 0
    ensures t == Home(n, affinity, tok)
  {
    hide Home;
    if tok in multiset(th.newfd) {
      assert tok in th.newfd;
    } else {
      var j := OpenWhere(th.conns, tok);
    }
  }

  // ------------------------------------------------------------------
  // A whole drain
  // ------------------------------------------------------------------

  /** A drain of thread `t`, with the outcome of each conn_new in turn. */
  function DrainLabels(t: nat, oks: seq<bool>): seq<Label> {
    if oks == [] then [BeginDrain(t)] else DrainLabels(t, oks[..|oks| - 1]) + [DrainOne(t, oks[|oks| - 1])]
  }

  /** The connections a drain makes: the queue in order, without the failures. */
  function Connected(q: seq<Token>, oks: seq<bool>): seq<Client>
    requires |q| == |oks|
  {
    if q == [] then []
    else Connected(q[..|q| - 1], oks[..|q| - 1]) + (if oks[|q| - 1] then [Client(q[|q| - 1], true)] else [])
  }

  lemma {:induction false} PartOfDrain(s: Server, t: nat, oks: seq<bool>)
    requires t < |s.threads| && !s.threads[t].locked && |oks| <= |s.threads[t].newfd|
    ensures Valid(s, DrainLabels(t, oks))
    ensures |Run(s, DrainLabels(t, oks)).threads| == |s.threads|
    ensures Run(s, DrainLabels(t, oks)).threads[t].locked
    ensures Run(s, DrainLabels(t, oks)).threads[t].newfd == s.threads[t].newfd[|oks|..]
    ensures Run(s, DrainLabels(t, oks)).threads[t].conns ==
      s.threads[t].conns + Connected(s.threads[t].newfd[..|oks|], oks)
  {
    hide Do, Run, Valid, CanDo;
    var q := s.threads[t].newfd;
    if oks == [] {
      BeginsDrain(s, t);
      assert [] + [BeginDrain(t)] == DrainLabels(t, oks);
      assert q[..0] == [];
    } else {
      var rest, ok := oks[..|oks| - 1], oks[|oks| - 1];
      PartOfDrain(s, t, rest);
      DrainsOne(Run(s, DrainLabels(t, rest)), t, ok);
      RunSnoc(s, DrainLabels(t, rest), DrainOne(t, ok));
      assert q[|rest|..][0] == q[|rest|] && q[|rest|..][1..] == q[|oks|..];
      assert q[..|oks|][..|rest|] == q[..|rest|];
    }
  }

  lemma RunSnoc(s: Server, ls: seq<Label>, x: Label)
    requires Valid(s, ls) && CanDo(Run(s, ls), x)
    ensures Valid(s, ls + [x]) && Run(s, ls + [x]) == Do(Run(s, ls), x)
  {
    assert (ls + [x])[..|ls|] == ls;
    hide Do, CanDo;
  }

  lemma BeginsDrain(s: Server, t: nat)
    requires t < |s.threads| && !s.threads[t].locked
    ensures Valid(s, [] + [BeginDrain(t)])
    ensures Run(s, [] + [BeginDrain(t)]) == With(s, t, s.threads[t].(locked := true))
  {
    assert Valid(s, []) && Run(s, []) == s;
    RunSnoc(s, [], BeginDrain(t));
  }

  lemma DrainsOne(a: Server, t: nat, ok: bool)
    requires t < |a.threads| && a.threads[t].locked && a.threads[t].newfd != []
    ensures CanDo(a, DrainOne(t, ok)) && |Do(a, DrainOne(t, ok)).threads| == |a.threads|
    ensures Do(a, DrainOne(t, ok)).threads[t].locked
    ensures Do(a, DrainOne(t, ok)).threads[t].newfd == a.threads[t].newfd[1..]
    ensures Do(a, DrainOne(t, ok)).threads[t].conns ==
      a.threads[t].conns + (if ok then [Client(a.threads[t].newfd[0], true)] else [])
  {
  }

  /** A drain is always possible, empties the queue, and connects it in the order of arrival. */
  lemma DrainEmpties(s: Server, t: nat, oks: seq<bool>)
    requires t < |s.threads| && !s.threads[t].locked && |oks| == |s.threads[t].newfd|
    ensures Valid(s, DrainLabels(t, oks) + [EndDrain(t)])
    ensures var r := Run(s, DrainLabels(t, oks) + [EndDrain(t)]);
      && |r.threads| == |s.threads| && r.threads[t].newfd == [] && !r.threads[t].locked
      && r.threads[t].conns == s.threads[t].conns + Connected(s.threads[t].newfd, oks)
  {
    hide Run, Valid;
    PartOfDrain(s, t, oks);
    RunSnoc(s, DrainLabels(t, oks), EndDrain(t));
    assert s.threads[t].newfd[..|oks|] == s.threads[t].newfd;
  }

  // ------------------------------------------------------------------
  // The timer that drains the queue
  // ------------------------------------------------------------------

  /** 100 ms later, as thrsrv_run_deferred computes it */
  function Later(tv: Timeval): Timeval {
    var usec := Wrap(tv.usec + 100 * 1000);
    if usec > 1000 * 1000 then Timeval(Wrap(tv.sec + 1), usec - 1000 * 1000) else Timeval(tv.sec, usec)
  }

  /** The new time is 100 ms on, and in normal form exactly unless the fraction was 0.9 s. */
  lemma LaterNormalisedIff(tv: Timeval)
    requires Normalised(tv) && tv.sec + 1 < TWO63
    ensures Micros(Later(tv)) == Micros(tv) + 100 * 1000
    ensures Normalised(Later(tv)) <==> tv.usec != 900 * 1000
  {
  }
}
