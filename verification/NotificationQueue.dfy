/**
 The queue between the server's callbacks and one client's notification stream.
 */
module Notifications {
  import opened Keys

  // A client id
  type Cid = string

  datatype Kind = Update | Renamed(new_path: Path) | Deleted

  datatype Note = Note(kind: Kind, path: Path)

  datatype QueueState = QueueState(queue: seq<Note>, shutdown: bool)

  datatype Op = Push(note: Note) | Pop | Cancel

  // What a pop reports: it blocks, it hands out a note, or it says there will be no more.
  datatype Outcome = Blocked | Popped(note: Note) | Ended

  function PopOutcome(q: QueueState): Outcome {
    if q.queue != [] then Popped(q.queue[0])
    else if q.shutdown then Ended
    else Blocked
  }

  function Apply(q: QueueState, op: Op): QueueState {
    match op
    case Push(n) => q.(queue := q.queue + [n])
    case Pop => if q.queue == [] then q else q.(queue := q.queue[1..])
    case Cancel => q.(shutdown := true)
  }

  // One history of a queue: what went in, what pops reported, what is left.
  datatype History = History(q: QueueState, pushed: seq<Note>, popped: seq<Note>, ends: nat, cancelled: bool)

  function Extend(h: History, op: Op): History {
    var o := PopOutcome(h.q);
    History(
      Apply(h.q, op),
      if op.Push? then h.pushed + [op.note] else h.pushed,
      if op.Pop? && o.Popped? then h.popped + [o.note] else h.popped,
      if op.Pop? && o.Ended? then h.ends + 1 else h.ends,
      h.cancelled || op.Cancel?)
  }

  // Any interleaving of producers, the consumer and the monitor is some sequence of operations.
  function Play(ops: seq<Op>): History {
    if ops == [] then History(QueueState([], false), [], [], 0, false)
    else Extend(Play(ops[..|ops| - 1]), ops[|ops| - 1])
  }

  /** Nothing is lost, duplicated or reordered, and the consumer is told to stop only after a
      cancel and only when everything pushed so far has been popped. */
  lemma {:induction false} QueueConservesNotes(ops: seq<Op>)
    ensures var h := Play(ops);
            && h.popped + h.q.queue == h.pushed
            && h.q.shutdown == h.cancelled
            && (PopOutcome(h.q).Ended? <==> h.cancelled && h.popped == h.pushed)
            && (h.ends > 0 ==> h.cancelled)
  {
    if ops != [] {
      QueueConservesNotes(ops[..|ops| - 1]);
    }
  }

  function Pops(n: nat): seq<Op> {
    seq(n, _ => Pop)
  }

  function PopMany(h: History, n: nat): History {
    if n == 0 then h else Extend(PopMany(h, n - 1), Op.Pop)
  }

  lemma {:induction false} PlayPops(ops: seq<Op>, n: nat)
    ensures Play(ops + Pops(n)) == PopMany(Play(ops), n)
  {
    if n == 0 {
      assert ops + Pops(0) == ops;
    } else {
      PlayPops(ops, n - 1);
      var all := ops + Pops(n);
      assert all[..|all| - 1] == ops + Pops(n - 1) && all[|all| - 1] == Op.Pop;
    }
  }

  // What n pops take out of a queue that is shut down.
  function Drained(h: History, n: nat): History {
    var k := if n <= |h.q.queue| then n else |h.q.queue|;
    History(QueueState(h.q.queue[k..], h.q.shutdown), h.pushed, h.popped + h.q.queue[..k], h.ends + (n - k), h.cancelled)
  }

  lemma OnePopMore(h: History, n: nat)
    requires h.q.shutdown
    ensures Extend(Drained(h, n), Op.Pop) == Drained(h, n + 1)
  {
    var queue := h.q.queue;
    if n < |queue| {
      assert queue[n..][0] == queue[n] && queue[n..][1..] == queue[n + 1..];
      assert (h.popped + queue[..n]) + [queue[n]] == h.popped + queue[..n + 1];
    }
  }

  lemma {:induction false} PopsDrain(h: History, n: nat)
    requires h.q.shutdown
    ensures PopMany(h, n) == Drained(h, n)
  {
    if n == 0 {
      assert h.q.queue[0..] == h.q.queue && h.popped + h.q.queue[..0] == h.popped;
    } else {
      PopsDrain(h, n - 1);
      OnePopMore(h, n - 1);
    }
  }

  /** After a cancel, with no further pushes, pops hand out exactly the remaining notes in
      order, and then report the end every time. */
  lemma DrainAfterCancel(ops: seq<Op>, n: nat)
    requires Play(ops).cancelled
    ensures var h, h' := Play(ops), Play(ops + Pops(n));
            var k := if n <= |h.q.queue| then n else |h.q.queue|;
            && h'.cancelled && h'.pushed == h.pushed
            && h'.popped == h.popped + h.q.queue[..k] && h'.q.queue == h.q.queue[k..]
            && h'.ends == h.ends + (n - k)
  {
    QueueConservesNotes(ops);
    PlayPops(ops, n);
    PopsDrain(Play(ops), n);
  }

  class NotificationQueue {
    var queue: seq<Note>
    var shutdown: bool

    function State(): QueueState
      reads this
    {
      QueueState(queue, shutdown)
    }

    // A fresh queue is shut down until subscribe opens it.
    constructor ()
      ensures State() == QueueState([], true)
    {
      queue, shutdown := [], true;
    }

    method Push(note: Note)
      modifies this`queue
      ensures State() == Apply(old(State()), Op.Push(note))
    {
      queue := queue + [note];
    }

    // Called when the wait is over, that is, when the pop does not block.
    method Pop() returns (more: bool, note: Note)
      requires !PopOutcome(State()).Blocked?
      modifies this`queue
      ensures State() == Apply(old(State()), Op.Pop)
      ensures PopOutcome(old(State())) == if more then Popped(note) else Ended
    {
      note := Note(Update, "");
      if shutdown && queue == [] { return false, note; }
      note := queue[0];
      queue := queue[1..];
      return true, note;
    }

    method Cancel()
      modifies this`shutdown
      ensures State() == Apply(old(State()), Op.Cancel)
    {
      shutdown := true;
    }
  }
}
