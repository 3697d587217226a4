/**
 The change callbacks of concurrent close, rename and unlink handlers, push by push, under
 the mutex of the registry, with the consumers popping at any time.
 */
module CallbackOrder {
  import opened Keys
  import opened Notifications
  import opened ServerModel

  // One callback: its note, who caused it, and whom it has to tell.
  datatype Event = Event(note: Note, from: Cid, targets: set<Cid>)

  type HandlerId = nat

  // A callback under way: which event it announces, and the clients still to be told.
  datatype Callback = Callback(event: nat, todo: set<Cid>)

  // Who holds file_map_mutex
  datatype Owner = Free | HeldBy(h: HandlerId)

  // What happened to the registry, in the order in which the mutex was taken.
  datatype Entry = Opened(c: Cid, p: Path) | Joined(c: Cid) | Left(c: Cid) | Called(note: Note, from: Cid)

  // log lists the events in the order in which their callbacks took the mutex. sent lists, per
  // client, the events pushed to its queue, by position in the log; the first popped of them
  // have left the queue. recent lists those pushed since it subscribed.
  datatype State = State(
    reg: map<Path, set<Cid>>,
    subscribers: set<Cid>,
    owner: Owner,
    running: map<HandlerId, Callback>,
    log: seq<Event>,
    history: seq<Entry>,
    sent: map<Cid, seq<nat>>,
    recent: map<Cid, seq<nat>>,
    popped: map<Cid, nat>)

  datatype Step =
    | Register(c: Cid, p: Path)                        // open
    | Acquire(h: HandlerId, note: Note, from: Cid)       // a callback takes the mutex
    | PushTo(h: HandlerId, c: Cid)                       // one iteration of its loop
    | Release(h: HandlerId)                             // it updates the registry and leaves
    | Pop(c: Cid)
    | Subscribe(c: Cid)
    | Cleanup(c: Cid)

  function Sent(s: State, c: Cid): seq<nat> {
    if c in s.sent then s.sent[c] else []
  }

  function Recent(s: State, c: Cid): seq<nat> {
    if c in s.recent then s.recent[c] else []
  }

  function PoppedCount(s: State, c: Cid): nat {
    if c in s.popped then s.popped[c] else 0
  }

  function Targets(s: State, p: Path, from: Cid): set<Cid> {
    if p in s.reg then (s.reg[p] - {from}) * s.subscribers else {}
  }

  // What the callback leaves in the registry.
  function Updated(reg: map<Path, set<Cid>>, e: Event): map<Path, set<Cid>> {
    var p := e.note.path;
    match e.note.kind
    case Update => if p in reg then reg else reg[p := {e.from}]
    case Renamed(q) => if p in reg then reg[q := reg[p]] - {p} else reg
    case Deleted => reg - {p}
  }

  predicate Enabled(s: State, st: Step) {
    match st
    case Register(c, p) => s.owner.Free?
    // the rename of an unregistered path never gets to its loop
    case Acquire(h, note, from) =>
      s.owner.Free? && h !in s.running && (note.kind.Renamed? ==> note.path in s.reg)
    case PushTo(h, c) => h in s.running && c in s.running[h].todo
    case Release(h) => h in s.running && s.running[h].todo == {} && s.running[h].event < |s.log|
    case Pop(c) => PoppedCount(s, c) < |Sent(s, c)|
    case Subscribe(c) => s.owner.Free?
    case Cleanup(c) => s.owner.Free?
  }

  function Next(s: State, st: Step): State
    requires Enabled(s, st)
  {
    match st
    case Register(c, p) =>
      s.(reg := s.reg[p := (if p in s.reg then s.reg[p] else {}) + {c}], history := s.history + [Opened(c, p)])
    case Acquire(h, note, from) =>
      var e := Event(note, from, Targets(s, note.path, from));
      s.(owner := HeldBy(h), running := s.running[h := Callback(|s.log|, e.targets)],
         log := s.log + [e], history := s.history + [Called(note, from)])
    case PushTo(h, c) =>
      var k := s.running[h];
      s.(running := s.running[h := k.(todo := k.todo - {c})], sent := s.sent[c := Sent(s, c) + [k.event]],
         recent := s.recent[c := Recent(s, c) + [k.event]])
    case Release(h) =>
      s.(owner := Free, running := s.running - {h}, reg := Updated(s.reg, s.log[s.running[h].event]))
    case Pop(c) => s.(popped := s.popped[c := PoppedCount(s, c) + 1])
    case Subscribe(c) =>
      s.(subscribers := s.subscribers + {c}, recent := s.recent[c := []],
         history := s.history + [Joined(c)])
    case Cleanup(c) =>
      s.(history := s.history + [Left(c)],
         reg := map p | p in s.reg && s.reg[p] - {c} != {} :: s.reg[p] - {c},
         subscribers := s.subscribers - {c})
  }

  const EMPTY: State := State(map[], {}, Free, map[], [], [], map[], map[], map[])

  predicate Legal(s: State, steps: seq<Step>)
    decreases |steps|
  {
    steps == [] || (Enabled(s, steps[0]) && Legal(Next(s, steps[0]), steps[1..]))
  }

  function Run(s: State, steps: seq<Step>): State
    requires Legal(s, steps)
    decreases |steps|
  {
    if steps == [] then s else Run(Next(s, steps[0]), steps[1..])
  }

  predicate Increasing(a: seq<nat>) {
    forall i, j :: 0 <= i < j < |a| ==> a[i] < a[j]
  }

  // Event e is still being announced to c.
  ghost predicate Awaits(s: State, c: Cid, e: nat) {
    exists h :: h in s.running && s.running[h].event == e && c in s.running[h].todo
  }

  ghost predicate ClientOk(s: State, c: Cid) {
    var a := Sent(s, c);
    && Increasing(a)
    && PoppedCount(s, c) <= |a|
    && (forall i :: 0 <= i < |a| ==> a[i] < |s.log| && c in s.log[a[i]].targets)
    && (forall e: nat :: e < |s.log| && c in s.log[e].targets ==> e in a || Awaits(s, c, e))
    && (forall e: nat :: Awaits(s, c, e) ==> e !in a && e < |s.log| && c in s.log[e].targets)
  }

  // Only the owner of the mutex has a callback under way, that of the latest event.
  ghost predicate OneAtATime(s: State) {
    forall h :: h in s.running ==> s.owner == HeldBy(h) && s.running[h].event == |s.log| - 1
  }

  ghost predicate Inv(s: State) {
    OneAtATime(s) && forall c :: ClientOk(s, c)
  }

  lemma PushStep(s: State, h: HandlerId, c: Cid)
    requires Inv(s) && Enabled(s, PushTo(h, c))
    ensures Inv(Next(s, PushTo(h, c)))
  {
    var s' := Next(s, PushTo(h, c));
    forall d ensures ClientOk(s', d) {
      if d == c { PushToIt(s, h, c); } else { PushToOther(s, h, c, d); }
    }
  }

  lemma PushToIt(s: State, h: HandlerId, c: Cid)
    requires Inv(s) && Enabled(s, PushTo(h, c))
    ensures ClientOk(Next(s, PushTo(h, c)), c)
  {
    var s', e := Next(s, PushTo(h, c)), s.running[h].event;
    assert ClientOk(s, c) && Awaits(s, c, e);
    assert forall x: nat :: !Awaits(s', c, x);
    assert forall x: nat :: Awaits(s, c, x) ==> x == e;
    PushedLast(Sent(s, c), e);
  }

  lemma PushToOther(s: State, h: HandlerId, c: Cid, d: Cid)
    requires Inv(s) && Enabled(s, PushTo(h, c)) && d != c
    ensures ClientOk(Next(s, PushTo(h, c)), d)
  {
    var s' := Next(s, PushTo(h, c));
    assert ClientOk(s, d) && Sent(s', d) == Sent(s, d);
    assert forall x: nat :: Awaits(s', d, x) ==> Awaits(s, d, x);
    forall x: nat | Awaits(s, d, x) ensures Awaits(s', d, x) { assert d in s'.running[h].todo; }
  }

  lemma PushedLast(a: seq<nat>, e: nat)
    requires Increasing(a) && e !in a && forall i :: 0 <= i < |a| ==> a[i] <= e
    ensures Increasing(a + [e])
    ensures forall x :: x in a + [e] <==> x in a || x == e
  {
    assert (a + [e])[|a|] == e;
    forall i | 0 <= i < |a| ensures a[i] < e { assert a[i] in a; }
  }

  lemma AcquireStep(s: State, h: HandlerId, note: Note, from: Cid)
    requires Inv(s) && Enabled(s, Acquire(h, note, from))
    ensures Inv(Next(s, Acquire(h, note, from)))
  {
    var s' := Next(s, Acquire(h, note, from));
    forall d ensures ClientOk(s', d) {
      assert ClientOk(s, d);
      assert s'.running[h] == Callback(|s.log|, s'.log[|s.log|].targets);
      assert forall x: nat :: x != |s.log| ==> !Awaits(s', d, x);
      assert Awaits(s', d, |s.log|) <==> d in s'.log[|s.log|].targets;
    }
  }

  lemma ReleaseStep(s: State, h: HandlerId)
    requires Inv(s) && Enabled(s, Release(h))
    ensures Inv(Next(s, Release(h)))
  {
    var s' := Next(s, Release(h));
    forall d ensures ClientOk(s', d) {
      assert ClientOk(s, d);
      assert forall x: nat :: !Awaits(s', d, x) && !Awaits(s, d, x);
    }
  }

  lemma StepKeepsInv(s: State, st: Step)
    requires Inv(s) && Enabled(s, st)
    ensures Inv(Next(s, st))
  {
    match st
    case PushTo(h, c) => PushStep(s, h, c);
    case Acquire(h, note, from) => AcquireStep(s, h, note, from);
    case Release(h) => ReleaseStep(s, h);
    case _ =>
      var s' := Next(s, st);
      forall d ensures ClientOk(s', d) {
        assert ClientOk(s, d);
        assert forall x: nat :: Awaits(s', d, x) <==> Awaits(s, d, x);
      }
  }

  lemma {:induction false} RunKeepsInv(s: State, steps: seq<Step>)
    requires Inv(s) && Legal(s, steps)
    ensures Inv(Run(s, steps))
    decreases |steps|
  {
    if steps != [] {
      StepKeepsInv(s, steps[0]);
      RunKeepsInv(Next(s, steps[0]), steps[1..]);
    }
  }

  // What c has popped, as positions in the log.
  function Seen(s: State, c: Cid): seq<nat> {
    if PoppedCount(s, c) <= |Sent(s, c)| then Sent(s, c)[..PoppedCount(s, c)] else Sent(s, c)
  }

  function PopsBy(steps: seq<Step>, c: Cid): nat {
    if steps == [] then 0 else (if steps[0] == Step.Pop(c) then 1 else 0) + PopsBy(steps[1..], c)
  }

  lemma {:induction false} PopsAreCounted(s: State, steps: seq<Step>, c: Cid)
    requires Legal(s, steps)
    ensures PoppedCount(Run(s, steps), c) == PoppedCount(s, c) + PopsBy(steps, c)
    decreases |steps|
  {
    if steps != [] { PopsAreCounted(Next(s, steps[0]), steps[1..], c); }
  }

  /** One global order. In every interleaving, what a client pops, one event each time, is a
      subsequence of the log of callbacks, in its order, and names only events that concern that
      client. */
  lemma ClientsSeeOneOrder(steps: seq<Step>, c: Cid)
    requires Legal(EMPTY, steps)
    ensures var s := Run(EMPTY, steps);
            && Seen(s, c) <= Sent(s, c) && |Seen(s, c)| == PopsBy(steps, c)
            && Increasing(Seen(s, c))
            && (forall i :: 0 <= i < |Seen(s, c)| ==>
                              Seen(s, c)[i] < |s.log| && c in s.log[Seen(s, c)[i]].targets)
  {
    PopsAreCounted(EMPTY, steps, c);
    RunKeepsInv(EMPTY, steps);
    assert ClientOk(Run(EMPTY, steps), c);
  }

  /** No two clients see two common events in opposite orders. */
  lemma NoOppositeOrders(steps: seq<Step>, c: Cid, d: Cid, i: nat, j: nat, i': nat, j': nat)
    requires Legal(EMPTY, steps)
    requires var s := Run(EMPTY, steps);
             && i < |Seen(s, c)| && j < |Seen(s, c)| && i' < |Seen(s, d)| && j' < |Seen(s, d)|
             && Seen(s, c)[i] == Seen(s, d)[i'] && Seen(s, c)[j] == Seen(s, d)[j']
    ensures i < j <==> i' < j'
  {
    ClientsSeeOneOrder(steps, c);
    ClientsSeeOneOrder(steps, d);
    SameOrder(Seen(Run(EMPTY, steps), c), Seen(Run(EMPTY, steps), d), i, j, i', j');
  }

  lemma SameOrder(a: seq<nat>, b: seq<nat>, i: nat, j: nat, i': nat, j': nat)
    requires Increasing(a) && Increasing(b) && i < |a| && j < |a| && i' < |b| && j' < |b|
    requires a[i] == b[i'] && a[j] == b[j']
    ensures i < j <==> i' < j'
  {
  }

  /** Exactly once. When nobody holds the mutex, every event has been pushed to every client it
      had to tell, once, and to nobody else. */
  lemma EveryTargetToldOnce(steps: seq<Step>, c: Cid, e: nat)
    requires Legal(EMPTY, steps)
    requires Run(EMPTY, steps).owner.Free? && e < |Run(EMPTY, steps).log|
    ensures var s := Run(EMPTY, steps);
            && (c in s.log[e].targets <==> e in Sent(s, c))
            && forall i, j | 0 <= i < j < |Sent(s, c)| :: Sent(s, c)[i] != e || Sent(s, c)[j] != e
  {
    RunKeepsInv(EMPTY, steps);
    assert ClientOk(Run(EMPTY, steps), c);
  }

  lemma {:induction false} RunAppend(s: State, a: seq<Step>, b: seq<Step>)
    requires Legal(s, a) && Legal(Run(s, a), b)
    ensures Legal(s, a + b) && Run(s, a + b) == Run(Run(s, a), b)
    decreases |a|
  {
    var all := a + b;
    if a == [] {
      assert all == b;
    } else {
      var s1, rest := Next(s, a[0]), a[1..];
      RunAppend(s1, rest, b);
      assert all[0] == a[0] && all[1..] == rest + b;
    }
  }

  lemma {:induction false} LogGrows(s: State, steps: seq<Step>)
    requires Legal(s, steps)
    ensures s.log <= Run(s, steps).log
    decreases |steps|
  {
    if steps != [] { LogGrows(Next(s, steps[0]), steps[1..]); }
  }

  /** Whom an event reaches: let a callback take the mutex, and anything happen until the mutex is free
      again. Every client that was registered for the path and subscribed, except the one that caused
      the event, has been sent it exactly once, and nobody else has been sent it. */
  lemma EveryRegistrantToldOnce(before: seq<Step>, h: HandlerId, note: Note, from: Cid, after: seq<Step>, c: Cid)
    requires Legal(EMPTY, before) && Enabled(Run(EMPTY, before), Acquire(h, note, from))
    requires Legal(Next(Run(EMPTY, before), Acquire(h, note, from)), after)
    requires Run(Next(Run(EMPTY, before), Acquire(h, note, from)), after).owner.Free?
    ensures var s0 := Run(EMPTY, before);
            var a := Sent(Run(Next(s0, Acquire(h, note, from)), after), c);
            var e := |s0.log|;
            && (e in a <==> note.path in s0.reg && c in s0.reg[note.path] && c in s0.subscribers && c != from)
            && forall i, j | 0 <= i < j < |a| :: a[i] != e || a[j] != e
  {
    var s0, st := Run(EMPTY, before), Acquire(h, note, from);
    var s1 := Next(s0, st);
    assert Legal(s0, [st] + after) by { assert ([st] + after)[1..] == after; }
    RunAppend(EMPTY, before, [st] + after);
    assert ([st] + after)[1..] == after;
    LogGrows(s1, after);
    assert Run(s1, after).log[|s0.log|] == s1.log[|s0.log|];
    EveryTargetToldOnce(before + ([st] + after), c, |s0.log|);
  }

  // ------------------------------------------------------------------- the handlers, one at a time

  function Handle(s: Server, e: Entry): Server {
    match e
    case Opened(c, p) => ServerModel.Register(s, c, p)
    case Joined(c) => ServerModel.Subscribe(s, c)
    case Left(c) => ServerModel.Cleanup(s, c)
    case Called(note, from) =>
      match note.kind
      case Update => CloseCallback(s, note.path, from, note)
      case Renamed(q) => RenameCallback(s, note.path, q, from, note)
      case Deleted => UnlinkCallback(s, note.path, from, note)
  }

  // The server after these calls, each carried out as a whole.
  function Replay(history: seq<Entry>): Server {
    if history == [] then Server(map[], map[], map[], false)
    else Handle(Replay(history[..|history| - 1]), history[|history| - 1])
  }

  lemma ReplayMore(history: seq<Entry>, e: Entry)
    ensures Replay(history + [e]) == Handle(Replay(history), e)
  {
    var all := history + [e];
    assert all[..|all| - 1] == history;
  }

  // The notes of some events.
  function Notes(log: seq<Event>, a: seq<nat>): seq<Note> {
    seq(|a|, i requires 0 <= i < |a| => if a[i] < |log| then log[a[i]].note else Note(Update, ""))
  }

  lemma OneNoteMore(log: seq<Event>, a: seq<nat>, e: nat)
    requires e < |log|
    ensures Notes(log, a + [e]) == Notes(log, a) + [log[e].note]
  {
  }

  lemma NotesStay(log: seq<Event>, a: seq<nat>, e: Event)
    requires forall i :: 0 <= i < |a| ==> a[i] < |log|
    ensures Notes(log + [e], a) == Notes(log, a)
  {
  }

  // The notes pushed to c since it subscribed.
  function Pushed(s: State, c: Cid): seq<Note> {
    Notes(s.log, Recent(s, c))
  }

  // The calls that are over.
  function Settled(s: State): seq<Entry> {
    if s.owner.HeldBy? && s.history != [] then s.history[..|s.history| - 1] else s.history
  }

  // The callback under way has told c.
  predicate ToldAlready(s: State, c: Cid) {
    s.owner.HeldBy? && s.log != [] && s.owner.h in s.running
    && c in s.log[|s.log| - 1].targets && c !in s.running[s.owner.h].todo
  }

  // The callback under way is the last call, and its targets are the other registrants.
  ghost predicate UnderWay(s: State) {
    match s.owner
    case Free => s.running == map[]
    case HeldBy(h) =>
      && h in s.running && s.log != [] && s.history != []
      && var e := s.log[|s.log| - 1];
      && s.history[|s.history| - 1] == Called(e.note, e.from)
      && e.targets == Targets(s, e.note.path, e.from)
      && s.running[h].todo <= e.targets
      && (e.note.kind.Renamed? ==> e.note.path in s.reg)
  }

  ghost predicate QueueOk(s: State, c: Cid) {
    var q := Replay(Settled(s)).queues;
    c in s.subscribers ==>
      && c in q && (forall i :: 0 <= i < |Recent(s, c)| ==> Recent(s, c)[i] < |s.log|)
      && Pushed(s, c) == q[c] + (if ToldAlready(s, c) then [s.log[|s.log| - 1].note] else [])
  }

  ghost predicate Refines(s: State) {
    var r := Replay(Settled(s));
    && UnderWay(s) && !r.jammed && s.reg == r.reg && s.subscribers == r.queues.Keys
    && forall c :: QueueOk(s, c)
  }

  lemma AcquireRefines(s: State, h: HandlerId, note: Note, from: Cid)
    requires Inv(s) && Refines(s) && Enabled(s, Acquire(h, note, from))
    ensures Refines(Next(s, Acquire(h, note, from)))
  {
    var s' := Next(s, Acquire(h, note, from));
    assert Settled(s') == s.history == Settled(s);
    forall c ensures QueueOk(s', c) {
      assert QueueOk(s, c);
      if c in s.subscribers { NotesStay(s.log, Recent(s, c), s'.log[|s.log|]); }
    }
  }

  lemma PushFillsQueue(s: State, h: HandlerId, c: Cid, d: Cid)
    requires Inv(s) && Refines(s) && Enabled(s, PushTo(h, c))
    ensures QueueOk(Next(s, PushTo(h, c)), d)
  {
    var s' := Next(s, PushTo(h, c));
    assert s.owner == HeldBy(h) && s.running[h].event == |s.log| - 1 && QueueOk(s, d);
    if d == c {
      OneNoteMore(s.log, Recent(s, c), |s.log| - 1);
      assert ToldAlready(s', c) && !ToldAlready(s, c);
    } else {
      assert ToldAlready(s', d) <==> ToldAlready(s, d);
    }
  }

  lemma PushRefines(s: State, h: HandlerId, c: Cid)
    requires Inv(s) && Refines(s) && Enabled(s, PushTo(h, c))
    ensures Refines(Next(s, PushTo(h, c)))
  {
    forall d ensures QueueOk(Next(s, PushTo(h, c)), d) { PushFillsQueue(s, h, c, d); }
  }

  lemma ReleaseSettles(s: State, h: HandlerId)
    requires Inv(s) && Refines(s) && Enabled(s, Release(h))
    ensures var e := s.log[|s.log| - 1];
            && s.owner == HeldBy(h) && s.running[h].event == |s.log| - 1
            && Replay(s.history) == Handle(Replay(Settled(s)), Called(e.note, e.from))
  {
    var e := s.log[|s.log| - 1];
    assert s.history == Settled(s) + [Called(e.note, e.from)];
    ReplayMore(Settled(s), Called(e.note, e.from));
  }

  lemma ReleaseRefines(s: State, h: HandlerId)
    requires Inv(s) && Refines(s) && Enabled(s, Release(h))
    ensures Refines(Next(s, Release(h)))
  {
    var s' := Next(s, Release(h));
    ReleaseSettles(s, h);
    ReleaseKeepsRegistry(s, h);
    forall c ensures QueueOk(s', c) { ReleaseFillsQueue(s, h, c); }
  }

  lemma ReleaseKeepsRegistry(s: State, h: HandlerId)
    requires Inv(s) && Refines(s) && Enabled(s, Release(h))
    ensures var s', r' := Next(s, Release(h)), Replay(s.history);
            s'.running == map[] && !r'.jammed && s'.reg == r'.reg && s'.subscribers == r'.queues.Keys
  {
    var e := s.log[|s.log| - 1];
    ReleaseSettles(s, h);
    CallbackEffect(Replay(Settled(s)), e.note, e.from);
  }

  lemma ReleaseFillsQueue(s: State, h: HandlerId, c: Cid)
    requires Inv(s) && Refines(s) && Enabled(s, Release(h))
    ensures QueueOk(Next(s, Release(h)), c)
  {
    var s' := Next(s, Release(h));
    var e := s.log[|s.log| - 1];
    ReleaseSettles(s, h);
    var r := Replay(Settled(s));
    CallbackEffect(r, e.note, e.from);
    assert QueueOk(s, c);
    assert Pushed(s', c) == Pushed(s, c) && Settled(s') == s.history && !ToldAlready(s', c);
    if c in s.subscribers {
      assert ToldAlready(s, c) <==> e.note.path in r.reg && c in r.reg[e.note.path] && c != e.from;
    }
  }

  // What a whole callback does to registry and queues, in the terms of this model.
  lemma CallbackEffect(r: Server, note: Note, from: Cid)
    requires !r.jammed && (note.kind.Renamed? ==> note.path in r.reg)
    ensures var r' := Handle(r, Called(note, from));
            && !r'.jammed && r'.reg == Updated(r.reg, Event(note, from, {})) && r'.queues.Keys == r.queues.Keys
            && forall c :: c in r.queues ==>
                 r'.queues[c] == r.queues[c] + if note.path in r.reg && c in r.reg[note.path] && c != from then [note] else []
  {
    if note.kind.Deleted? && note.path !in r.reg { assert r.reg - {note.path} == r.reg; }
  }

  // A whole call that is not a callback.
  lemma WholeCallRefines(s: State, s': State, e: Entry)
    requires Refines(s) && s.owner.Free? && s'.owner.Free? && s'.running == s.running
    requires s'.history == s.history + [e]
    requires var r' := Handle(Replay(s.history), e);
             && !r'.jammed && s'.reg == r'.reg && s'.subscribers == r'.queues.Keys
             && forall c :: c in s'.subscribers ==>
                  && Pushed(s', c) == r'.queues[c]
                  && forall i :: 0 <= i < |Recent(s', c)| ==> Recent(s', c)[i] < |s'.log|
    ensures Refines(s')
  {
    ReplayMore(s.history, e);
  }

  lemma RegisterRefines(s: State, d: Cid, p: Path)
    requires Refines(s) && Enabled(s, Step.Register(d, p))
    ensures Refines(Next(s, Step.Register(d, p)))
  {
    var s' := Next(s, Step.Register(d, p));
    forall c | c in s'.subscribers
      ensures Pushed(s', c) == Replay(s.history).queues[c]
      ensures forall i :: 0 <= i < |Recent(s', c)| ==> Recent(s', c)[i] < |s'.log|
    { assert QueueOk(s, c); }
    WholeCallRefines(s, s', Opened(d, p));
  }

  lemma SubscribeRefines(s: State, d: Cid)
    requires Refines(s) && Enabled(s, Step.Subscribe(d))
    ensures Refines(Next(s, Step.Subscribe(d)))
  {
    var s' := Next(s, Step.Subscribe(d));
    var r' := Handle(Replay(s.history), Joined(d));
    assert s'.subscribers == r'.queues.Keys;
    forall c | c in s'.subscribers
      ensures Pushed(s', c) == r'.queues[c]
      ensures forall i :: 0 <= i < |Recent(s', c)| ==> Recent(s', c)[i] < |s'.log|
    { assert QueueOk(s, c); }
    WholeCallRefines(s, s', Joined(d));
  }

  lemma CleanupRefines(s: State, d: Cid)
    requires Refines(s) && Enabled(s, Step.Cleanup(d))
    ensures Refines(Next(s, Step.Cleanup(d)))
  {
    var s' := Next(s, Step.Cleanup(d));
    var r' := Handle(Replay(s.history), Left(d));
    assert s'.reg == r'.reg && s'.subscribers == r'.queues.Keys;
    forall c | c in s'.subscribers
      ensures Pushed(s', c) == r'.queues[c]
      ensures forall i :: 0 <= i < |Recent(s', c)| ==> Recent(s', c)[i] < |s'.log|
    { assert QueueOk(s, c); }
    WholeCallRefines(s, s', Left(d));
  }

  lemma PopRefines(s: State, c: Cid)
    requires Refines(s) && Enabled(s, Step.Pop(c))
    ensures Refines(Next(s, Step.Pop(c)))
  {
    var s' := Next(s, Step.Pop(c));
    forall d ensures QueueOk(s', d) { assert QueueOk(s, d); }
  }

  lemma StepRefines(s: State, st: Step)
    requires Inv(s) && Refines(s) && Enabled(s, st)
    ensures Refines(Next(s, st))
  {
    match st
    case Acquire(h, note, from) => AcquireRefines(s, h, note, from);
    case PushTo(h, c) => PushRefines(s, h, c);
    case Release(h) => ReleaseRefines(s, h);
    case Pop(c) => PopRefines(s, c);
    case Register(c, p) => RegisterRefines(s, c, p);
    case Subscribe(c) => SubscribeRefines(s, c);
    case Cleanup(c) => CleanupRefines(s, c);
  }

  lemma {:induction false} RunRefines(s: State, steps: seq<Step>)
    requires Inv(s) && Refines(s) && Legal(s, steps)
    ensures Refines(Run(s, steps))
    decreases |steps|
  {
    if steps != [] {
      StepRefines(s, steps[0]);
      StepKeepsInv(s, steps[0]);
      RunRefines(Next(s, steps[0]), steps[1..]);
    }
  }

  // The events pushed since c subscribed are the last of those ever pushed to it.
  ghost predicate EndsWith(s: State, c: Cid) {
    exists earlier :: Sent(s, c) == earlier + Recent(s, c)
  }

  lemma PushKeepsEnd(s: State, h: HandlerId, d: Cid, c: Cid)
    requires EndsWith(s, c) && Enabled(s, PushTo(h, d))
    ensures EndsWith(Next(s, PushTo(h, d)), c)
  {
    var s', e := Next(s, PushTo(h, d)), s.running[h].event;
    var earlier :| Sent(s, c) == earlier + Recent(s, c);
    if c == d {
      assert earlier + Recent(s, c) + [e] == earlier + (Recent(s, c) + [e]);
    }
    assert Sent(s', c) == earlier + Recent(s', c);
  }

  lemma StepKeepsEnd(s: State, st: Step, c: Cid)
    requires EndsWith(s, c) && Enabled(s, st)
    ensures EndsWith(Next(s, st), c)
  {
    var s' := Next(s, st);
    var earlier :| Sent(s, c) == earlier + Recent(s, c);
    match st
    case PushTo(h, d) => PushKeepsEnd(s, h, d, c);
    case Subscribe(d) =>
      if d == c {
        var all := Sent(s, c);
        assert all + [] == all && Recent(s', c) == [] && Sent(s', c) == all;
        assert Sent(s', c) == all + Recent(s', c);
      } else {
        assert Sent(s', c) == earlier + Recent(s', c);
      }
    case _ => assert Sent(s', c) == earlier + Recent(s', c);
  }

  lemma {:induction false} RunKeepsEnd(s: State, steps: seq<Step>, c: Cid)
    requires EndsWith(s, c) && Legal(s, steps)
    ensures EndsWith(Run(s, steps), c)
    decreases |steps|
  {
    if steps != [] {
      StepKeepsEnd(s, steps[0], c);
      RunKeepsEnd(Next(s, steps[0]), steps[1..], c);
    }
  }

  /** The callbacks, push by push and interleaved with everything else, come to what the handlers do
      one at a time, in the order in which they took the mutex: whenever it is free, the registry is
      the same, and every subscriber has been pushed the same notes in the same order, those of the
      events it was sent. */
  lemma CallbacksAreTheHandlers(steps: seq<Step>, c: Cid)
    requires Legal(EMPTY, steps) && Run(EMPTY, steps).owner.Free?
    ensures var s := Run(EMPTY, steps);
            var r := Replay(s.history);
            && s.reg == r.reg && s.subscribers == r.queues.Keys && !r.jammed
            && (c in s.subscribers ==> Pushed(s, c) == r.queues[c])
            && exists earlier :: Sent(s, c) == earlier + Recent(s, c)
  {
    assert Sent(EMPTY, c) == [] + Recent(EMPTY, c);
    RunKeepsEnd(EMPTY, steps, c);
    RunRefines(EMPTY, steps);
    RunKeepsInv(EMPTY, steps);
    assert QueueOk(Run(EMPTY, steps), c);
  }
}
