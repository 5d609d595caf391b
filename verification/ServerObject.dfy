/** The thread functions of src/srv/srv.c in their imperative form. */
module ServerObject {
  import opened Seqs
  import opened Timevals
  import opened Handoff

  /** struct thr */
  class ServerThread {
    var newfd: seq<Token>
    var locked: bool
    var conns: seq<Client>
    var numClients: int

    ghost function View(): Thread
      reads this
    {
      Thread(newfd, locked, conns, numClients)
    }

    constructor ()
      ensures View() == Thread([], false, [], 0)
    {
      newfd, locked, conns, numClients := [], false, [], 0;
    }

    /** thrsrv_newfd_enqueue; `mem` says whether calloc succeeds. */
    method Enqueue(tok: Token, mem: bool) returns (ret: int)
      requires !locked
      modifies this
      ensures ret == if mem then 0 else -1
      ensures View() == if mem then Enqueued(old(View()), tok) else old(View())
    {
      if !mem {
        return -1;
      }
      locked := true;
      newfd := newfd + [tok];
      locked := false;
      return 0;
    }

    /** thrsrv_finish_setup; it closes the descriptor when conn_new fails. */
    method FinishSetup(tok: Token, ok: bool) returns (shut: bool)
      modifies this`conns, this`numClients
      ensures View() == SetUp(old(View()), tok, ok) && shut == !ok
    {
      if !ok {
        return true;
      }
      conns := conns + [Client(tok, true)];
      numClients := numClients + 1;
      return false;
    }

    /** thrsrv_run_deferred at time `now`, with the outcome of each conn_new; `at` is when it runs next. */
    method RunDeferred(oks: seq<bool>, now: Timeval) returns (shut: multiset<Token>, at: Timeval)
      requires !locked && |oks| == |newfd|
      modifies this
      ensures newfd == [] && !locked && at == Later(now)
      ensures conns == old(conns) + Connected(old(newfd), oks)
      ensures numClients - |conns| == old(numClients - |conns|)
      ensures forall tok :: shut[tok] + OpenIn(Connected(old(newfd), oks), tok) == multiset(old(newfd))[tok]
    {
      ghost var q := newfd;
      locked, shut := true, multiset{};
      var i := 0;
      assert q[i..] == q;
      while newfd != []
        invariant locked && i <= |q| && newfd == q[i..]
        invariant conns == old(conns) + Connected(q[..i], oks[..i])
        invariant numClients - |conns| == old(numClients - |conns|)
        invariant forall tok :: shut[tok] + OpenIn(Connected(q[..i], oks[..i]), tok) == multiset(q[..i])[tok]
        decreases |newfd|
      {
        var th := newfd[0];
        newfd := newfd[1..];
        OneMore(q, oks, i);
        var bad := FinishSetup(th, oks[i]);
        if bad {
          shut := shut + multiset{th};
        }
        i := i + 1;
      }
      locked := false;
      assert q[..i] == q && oks[..i] == oks;
      at := Timeval(now.sec, Wrap(now.usec + 100 * 1000));
      if at.usec > 1000 * 1000 {
        at := at.(usec := at.usec - 1000 * 1000);
        at := at.(sec := Wrap(at.sec + 1));
      }
    }

    /** thrsrv_conn_update_cb for CONN_STATE_FREEING of the connection at `j` */
    method ConnFreed(j: nat)
      requires j < |conns|
      modifies this`conns, this`numClients
      ensures View() == Forget(old(View()), j)
    {
      conns := conns[..j] + conns[j + 1..];
      numClients := numClients - 1;
    }
  }

  lemma OneMore(q: seq<Token>, oks: seq<bool>, i: nat)
    requires i < |q| == |oks|
    ensures Connected(q[..i + 1], oks[..i + 1]) ==
      Connected(q[..i], oks[..i]) + (if oks[i] then [Client(q[i], true)] else [])
    ensures forall tok :: multiset(q[..i + 1])[tok] == multiset(q[..i])[tok] + One(q[i] == tok)
    ensures forall tok :: OpenIn(Connected(q[..i + 1], oks[..i + 1]), tok)
                       == OpenIn(Connected(q[..i], oks[..i]), tok) + One(oks[i] && q[i] == tok)
  {
    assert q[..i + 1][..i] == q[..i] && oks[..i + 1][..i] == oks[..i];
    assert q[..i + 1] == q[..i] + [q[i]];
    var c := Connected(q[..i], oks[..i]);
    assert c + [] == c;
    assert Connected(q[..i + 1], oks[..i + 1]) == if oks[i] then c + [Client(q[i], true)] else c;
    forall tok ensures OpenIn(c + [Client(q[i], true)], tok) == OpenIn(c, tok) + One(q[i] == tok) {
      OpenAdds(c, Client(q[i], true), tok);
    }
  }

  /** The threads and what has happened to the descriptors. */
  class Threads {
    const threads: seq<ServerThread>
    const affinity: bool
    ghost var accepted: seq<Token>
    ghost var closed: multiset<Token>

    ghost predicate Apart() {
      forall i, j :: 0 <= i < j < |threads| ==> threads[i] != threads[j]
    }

    ghost function View(): Server
      reads this, threads
    {
      Server(seq(|threads|, i requires 0 <= i < |threads| reads threads => threads[i].View()), affinity, accepted, closed)
    }

    constructor (threads: seq<ServerThread>, affinity: bool)
      requires forall i, j :: 0 <= i < j < |threads| ==> threads[i] != threads[j]
      requires forall i :: 0 <= i < |threads| ==> threads[i].View() == Thread([], false, [], 0)
      ensures Apart() && View() == Start(|threads|, affinity)
    {
      this.threads, this.affinity := threads, affinity;
      accepted, closed := [], multiset{};
    }

    /** thrsrv_acceptfd on thread `t` for a descriptor just accepted */
    method AcceptFd(t: nat, tok: Token, mem: bool, ok: bool)
      requires Apart() && tok.id == |accepted| && tok.taker == t
      requires CanDo(View(), Accept(t, tok.flowid, mem, ok))
      modifies this, threads
      ensures View() == Do(old(View()), Accept(t, tok.flowid, mem, ok))
    {
      ghost var was := View();
      accepted := accepted + [tok];
      var thrId := FlowThread(tok.flowid);
      if affinity && thrId != -1 && thrId != t {
        thrId := thrId % |threads|;
        var ret := threads[thrId].Enqueue(tok, mem);
        if ret < 0 {
          closed := closed + multiset{tok};
        }
      } else {
        var shut := threads[t].FinishSetup(tok, ok);
        if shut {
          closed := closed + multiset{tok};
        }
      }
      assert View().threads == Do(was, Accept(t, tok.flowid, mem, ok)).threads;
    }
  }
}
