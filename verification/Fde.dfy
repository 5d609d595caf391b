/**
 * The event loop of lib/libiapp/fde.c as a transition system on values.
 *
 * An event pointer is an `EventId`; ids are handed out once and never reused.
 * A label is one step of the loop or one API call, so a callback of any kind
 * is whatever sequence of `Call` labels follows the label that fires it.
 */
module Fde {
  import opened Seqs
  import opened Timevals

  /** FDE_HEAD_MAXEVENTS */
  const MAX_EVENTS: nat := 128

  const TWO32: int := 0x1_0000_0000

  type EventId = nat
  type Gen = g: int | 0 <= g < TWO32 witness 0

  datatype Filter = ReadFilter | WriteFilter

  datatype Key = Key(fd: int, filter: Filter)

  /** fde_type, with READ and WRITE merged into one constructor. */
  datatype Kind = Io(filter: Filter) | Callback | Timer

  datatype Event = Event(fd: int, kind: Kind, persist: bool, active: bool, genid: Gen, tv: Timeval) {
    function Slot(): Key
      requires kind.Io?
    {
      Key(fd, kind.filter)
    }
  }

  /** What the kernel remembers about a registered (fd, filter) pair. */
  datatype Knote = Knote(udata: EventId, oneshot: bool)

  datatype Change = Register(key: Key, note: Knote) | Unregister(key: Key)

  type Kernel = map<Key, Knote>

  /** Where the loop is inside fde_runloop. */
  datatype Phase =
    | Idle
    | InCallbacks(cur: Gen, now: Timeval)
    | InTimers(now: Timeval)
    | InIo(batch: seq<EventId>)

  datatype Loop = Loop(
    events: map<EventId, Event>,
    nextId: EventId,
    head: seq<EventId>,      // f_head
    cbHead: seq<EventId>,    // f_cb_head
    tHead: seq<EventId>,     // f_t_head
    pending: seq<Change>,
    kernel: Kernel,
    genid: Gen,              // f_cb_genid
    phase: Phase)

  datatype Cmd =
    | Create(fd: int, kind: Kind, persist: bool)
    | Add(e: EventId)
    | AddTimeout(e: EventId, tv: Timeval)
    | Delete(e: EventId)
    | Free(e: EventId)

  datatype Label =
    | Call(cmd: Cmd)
    | StartRound(now: Timeval)
    | FireCb(e: EventId)
    | EndRound
    | FireTimer(e: EventId, at: Timeval)
    | Wait(got: seq<Key>)
    | Deliver(e: EventId)
    | Finish

  // ------------------------------------------------------------------
  // The kernel queue
  // ------------------------------------------------------------------

  function ApplyChange(k: Kernel, ch: Change): Kernel {
    match ch
    case Register(key, note) => k[key := note]
    case Unregister(key) => k - {key}
  }

  /** kevent() with a change list: the changes take effect in order. */
  function ApplyAll(k: Kernel, chs: seq<Change>): Kernel {
    if chs == [] then k
    else ApplyChange(ApplyAll(k, chs[..|chs| - 1]), chs[|chs| - 1])
  }

  /** The kernel's registrations once the pending batch has been applied. */
  function Effective(s: Loop): Kernel {
    ApplyAll(s.kernel, s.pending)
  }

  function NextGen(g: Gen): (r: Gen)
    ensures r != g
  {
    if g + 1 == TWO32 then 0 else g + 1
  }

  /** fde_kq_flush followed by the copy into the batch in fde_kq_push. */
  function Push(s: Loop, ch: Change): (r: Loop)
    ensures r == s.(kernel := r.kernel, pending := r.pending)
    ensures |s.pending| < MAX_EVENTS ==> |r.pending| < MAX_EVENTS
  {
    if |s.pending| < MAX_EVENTS - 1 then
      s.(pending := s.pending + [ch])
    else
      s.(kernel := ApplyAll(s.kernel, s.pending), pending := [ch])
  }

  // ------------------------------------------------------------------
  // The API
  // ------------------------------------------------------------------

  function CreateEvent(s: Loop, fd: int, kind: Kind, persist: bool): Loop {
    s.(events := s.events[s.nextId := Event(fd, kind, persist, false, 0, Timeval(0, 0))],
       nextId := s.nextId + 1)
  }

  function NoteOf(e: EventId, ev: Event): Knote {
    Knote(e, !ev.persist)
  }

  function AddEvent(s: Loop, e: EventId): Loop
    requires e in s.events
  {
    var ev := s.events[e];
    if ev.active then s
    else match ev.kind
      case Io(_) =>
        var p := Push(s, Register(ev.Slot(), NoteOf(e, ev)));
        p.(events := s.events[e := ev.(active := true)], head := s.head + [e])
      case Callback =>
        s.(events := s.events[e := ev.(active := true, genid := s.genid)],
           head := s.head + [e],
           cbHead := s.cbHead + [e])
      case Timer => s
  }

  function DeleteEvent(s: Loop, e: EventId): Loop
    requires e in s.events
  {
    var ev := s.events[e];
    var off := s.events[e := ev.(active := false)];
    if !ev.active then s
    else match ev.kind
      case Io(_) =>
        Push(s, Unregister(ev.Slot())).(events := off, head := Remove(s.head, e))
      case Callback =>
        s.(events := off, head := Remove(s.head, e), cbHead := Remove(s.cbHead, e))
      case Timer =>
        s.(events := off, head := Remove(s.head, e), tHead := Remove(s.tHead, e))
  }

  function FreeEvent(s: Loop, e: EventId): Loop
    requires e in s.events
  {
    var d := DeleteEvent(s, e);
    d.(events := d.events - {e})
  }

  /** Index of the first timer the walk stops at, or the length of the list. */
  function WalkFrom(times: seq<Timeval>, tv: Timeval, i: nat): (r: nat)
    requires i <= |times|
    ensures i <= r <= |times|
    ensures r < |times| ==> Cmp(tv, times[r]) > 0
    ensures forall j :: i <= j < r ==> Cmp(tv, times[j]) <= 0
    decreases |times| - i
  {
    if i == |times| || Cmp(tv, times[i]) > 0 then i else WalkFrom(times, tv, i + 1)
  }

  /** Where fde_add_timeout inserts a new timer. */
  function InsertAt(times: seq<Timeval>, tv: Timeval): (r: nat)
    ensures r <= |times|
  {
    if times == [] || Cmp(tv, times[0]) <= 0 then 0
    else if Cmp(tv, times[|times| - 1]) >= 0 then |times|
    else WalkFrom(times, tv, 0) + 1
  }

  function TimesOf(events: map<EventId, Event>, es: seq<EventId>): (r: seq<Timeval>)
    requires forall e :: e in es ==> e in events
    ensures |r| == |es|
    ensures forall i :: 0 <= i < |es| ==> r[i] == events[es[i]].tv
  {
    seq(|es|, i requires 0 <= i < |es| => events[es[i]].tv)
  }

  function InsertedAt<T>(s: seq<T>, i: nat, x: T): seq<T>
    requires i <= |s|
  {
    s[..i] + [x] + s[i..]
  }

  predicate TimersLive(s: Loop) {
    forall e :: e in s.tHead ==> e in s.events
  }

  function AddTimer(s: Loop, e: EventId, tv: Timeval): Loop
    requires e in s.events && TimersLive(s)
  {
    var ev := s.events[e];
    if ev.active then s
    else
      s.(events := s.events[e := ev.(active := true, tv := tv)],
         head := s.head + [e],
         tHead := InsertedAt(s.tHead, InsertAt(TimesOf(s.events, s.tHead), tv), e))
  }

  /** The caller holds a live pointer, and arms only timers with a timeout. */
  predicate CmdOk(s: Loop, c: Cmd) {
    match c
    case Create(_, _, _) => true
    case Add(e) => e in s.events
    case AddTimeout(e, _) => e in s.events && s.events[e].kind.Timer? && TimersLive(s)
    case Delete(e) => e in s.events
    case Free(e) => e in s.events
  }

  function Do(s: Loop, c: Cmd): Loop
    requires CmdOk(s, c)
  {
    match c
    case Create(fd, kind, persist) => CreateEvent(s, fd, kind, persist)
    case Add(e) => AddEvent(s, e)
    case AddTimeout(e, tv) => AddTimer(s, e, tv)
    case Delete(e) => DeleteEvent(s, e)
    case Free(e) => FreeEvent(s, e)
  }

  // ------------------------------------------------------------------
  // The loop
  // ------------------------------------------------------------------

  /** The first queued callback belongs to the round being run. */
  predicate RoundGoesOn(s: Loop, cur: Gen) {
    s.cbHead != [] && s.cbHead[0] in s.events && s.events[s.cbHead[0]].genid == cur
  }

  predicate TimerDue(s: Loop, now: Timeval) {
    s.tHead != [] && s.tHead[0] in s.events && Cmp(now, s.events[s.tHead[0]].tv) >= 0
  }

  /** An event list kevent() may return for these registrations. */
  predicate Returnable(k: Kernel, got: seq<Key>) {
    NoDup(got) && |got| <= MAX_EVENTS && forall key :: key in got ==> key in k
  }

  function OneShots(k: Kernel, got: seq<Key>): set<Key> {
    set key | key in got && key in k && k[key].oneshot
  }

  function Udatas(k: Kernel, got: seq<Key>): (r: seq<EventId>)
    requires forall key :: key in got ==> key in k
    ensures |r| == |got|
    ensures forall i :: 0 <= i < |got| ==> r[i] == k[got[i]].udata
  {
    seq(|got|, i requires 0 <= i < |got| => k[got[i]].udata)
  }

  predicate Enabled(s: Loop, l: Label) {
    match l
    case Call(c) => CmdOk(s, c)
    case StartRound(_) => s.phase.Idle?
    case FireCb(e) => s.phase.InCallbacks? && RoundGoesOn(s, s.phase.cur) && e == s.cbHead[0]
    case EndRound => s.phase.InCallbacks? && !RoundGoesOn(s, s.phase.cur)
    case FireTimer(e, at) =>
      s.phase.InTimers? && TimerDue(s, s.phase.now) && e == s.tHead[0] && at == s.events[e].tv
    case Wait(got) =>
      s.phase.InTimers? && !TimerDue(s, s.phase.now) && Returnable(Effective(s), got)
    case Deliver(e) => s.phase.InIo? && s.phase.batch != [] && e == s.phase.batch[0]
    case Finish => s.phase.InIo? && s.phase.batch == []
  }

  predicate IsActive(s: Loop, e: EventId) {
    e in s.events && s.events[e].active
  }

  /** The loop's own part of a delivery: a one-shot event is taken off the list. */
  function Reach(s: Loop, e: EventId): Loop
    requires s.phase.InIo? && s.phase.batch != [] && e == s.phase.batch[0]
  {
    var t := s.(phase := InIo(s.phase.batch[1..]));
    if IsActive(s, e) && !s.events[e].persist then
      t.(events := s.events[e := s.events[e].(active := false)], head := Remove(s.head, e))
    else t
  }

  function KernelWait(s: Loop, got: seq<Key>): Loop
    requires Returnable(Effective(s), got)
  {
    s.(kernel := Effective(s) - OneShots(Effective(s), got),
       pending := [],
       phase := InIo(Udatas(Effective(s), got)))
  }

  function Next(s: Loop, l: Label): Loop
    requires Enabled(s, l)
  {
    match l
    case Call(c) => Do(s, c)
    case StartRound(now) => s.(phase := InCallbacks(s.genid, now), genid := NextGen(s.genid))
    case FireCb(e) => DeleteEvent(s, e)
    case EndRound => s.(phase := InTimers(s.phase.now))
    case FireTimer(e, _) => DeleteEvent(s, e)
    case Wait(got) => KernelWait(s, got)
    case Deliver(e) => Reach(s, e)
    case Finish => s.(phase := Idle)
  }

  predicate Valid(s: Loop, ls: seq<Label>)
    decreases |ls|, 0
  {
    ls == [] || (Valid(s, ls[..|ls| - 1]) && Enabled(Run(s, ls[..|ls| - 1]), ls[|ls| - 1]))
  }

  function Run(s: Loop, ls: seq<Label>): Loop
    requires Valid(s, ls)
    decreases |ls|, 1
  {
    if ls == [] then s else Next(Run(s, ls[..|ls| - 1]), ls[|ls| - 1])
  }

  lemma RunSnoc(s: Loop, ls: seq<Label>, l: Label)
    requires Valid(s, ls) && Enabled(Run(s, ls), l)
    ensures Valid(s, ls + [l]) && Run(s, ls + [l]) == Next(Run(s, ls), l)
  {
    assert (ls + [l])[..|ls|] == ls;
  }

  lemma EmptyRun(s: Loop)
    ensures Valid(s, []) && Run(s, []) == s
  {
  }

  lemma {:induction false} RunAppend(s: Loop, a: seq<Label>, b: seq<Label>)
    requires Valid(s, a) && Valid(Run(s, a), b)
    ensures Valid(s, a + b) && Run(s, a + b) == Run(Run(s, a), b)
    decreases |b|
  {
    hide Enabled, Next;
    if b == [] {
      assert a + b == a;
    } else {
      RunAppend(s, a, b[..|b| - 1]);
      assert (a + b)[..|a + b| - 1] == a + b[..|b| - 1];
    }
  }

  /** fde_ctx_new */
  function Init(): Loop {
    Loop(map[], 0, [], [], [], [], map[], 0, Idle)
  }
}
