/**
 The server's open and close handlers for one path, interleaved step by step: an open
 registers its client and then reads the file in pieces, a close writes the file in pieces
 and then scans the registry. Reads and writes of the file are not synchronised at all.
 */
module FineServer {
  import opened Wire
  import opened Keys
  import opened Notifications
  import ServerModel

  // One running or finished handler
  type HandlerId = nat

  // An open in progress. Its file position is the number of bytes it has read.
  // mark is the length of the client's queue history when it registered; selfClose records
  // that a close by the same client ran at some time since then.
  datatype Opener = Opener(c: Cid, mark: nat, got: Bytes, eof: bool, selfClose: bool)

  // A close whose messages carry data. Its file position is written. mark is the length of the
  // client's queue history when the close began, and known tells whether the client was in the
  // registry then; overlap records that another close by the same client was running at some
  // time since.
  datatype Closer = Closer(
    c: Cid, data: Bytes, written: nat, scanned: bool, mark: nat, known: bool, overlap: bool)

  datatype State = State(
    file: Bytes,
    reg: set<Cid>,                        // file_map[path]; empty means no entry
    subscribers: set<Cid>,
    told: map<Cid, nat>,                  // how many notes each client was ever sent
    openers: map<HandlerId, Opener>,
    closers: map<HandlerId, Closer>)

  datatype Step =
    | Register(h: HandlerId, c: Cid)                    // open: enter file_map
    | ReadPiece(h: HandlerId, n: nat)                   // open: read up to n bytes
    | Truncate(h: HandlerId, c: Cid, data: Bytes)       // close: the stream is opened
    | WritePiece(h: HandlerId, n: nat)                  // close: n buffered bytes reach the file
    | Scan(h: HandlerId)                                // close: the callback, under its mutex

  function Told(s: State, c: Cid): nat {
    if c in s.told then s.told[c] else 0
  }

  function SelfClose(openers: map<HandlerId, Opener>, c: Cid): map<HandlerId, Opener> {
    map h | h in openers :: if openers[h].c == c then openers[h].(selfClose := true) else openers[h]
  }

  function Overlap(closers: map<HandlerId, Closer>, c: Cid): map<HandlerId, Closer> {
    map h | h in closers :: if closers[h].c == c then closers[h].(overlap := true) else closers[h]
  }

  predicate Running(k: Closer) {
    !k.scanned
  }

  // A close by c is running.
  predicate Busy(s: State, c: Cid) {
    exists k :: k in s.closers && Running(s.closers[k]) && s.closers[k].c == c
  }

  predicate Enabled(s: State, st: Step) {
    match st
    case Register(h, c) => h !in s.openers
    case ReadPiece(h, n) => h in s.openers && !s.openers[h].eof && n > 0
    case Truncate(h, c, data) => h !in s.closers
    case WritePiece(h, n) =>
      h in s.closers && Running(s.closers[h]) && s.closers[h].written + n <= |s.closers[h].data|
    case Scan(h) => h in s.closers && Running(s.closers[h]) && s.closers[h].written == |s.closers[h].data|
  }

  function Next(s: State, st: Step): State
    requires Enabled(s, st)
  {
    match st
    case Register(h, c) =>
      s.(reg := s.reg + {c}, openers := s.openers[h := Opener(c, Told(s, c), [], false, Busy(s, c))])
    case ReadPiece(h, n) =>
      var o := s.openers[h];
      var piece := Slice(s.file, |o.got|, n);
      s.(openers := s.openers[h := o.(got := o.got + piece, eof := |piece| < n)])
    case Truncate(h, c, data) =>
      s.(file := [],
         closers := Overlap(s.closers, c)[h := Closer(c, data, 0, false, Told(s, c), c in s.reg, Busy(s, c))],
         openers := SelfClose(s.openers, c))
    case WritePiece(h, n) =>
      var k := s.closers[h];
      s.(file := Overlay(s.file, k.written, k.data[k.written..k.written + n]),
         closers := s.closers[h := k.(written := k.written + n)])
    case Scan(h) =>
      var k := s.closers[h];
      var targets := if s.reg == {} then {} else (s.reg - {k.c}) * s.subscribers;
      s.(reg := if s.reg == {} then {k.c} else s.reg,
         told := map c | c in s.told.Keys + targets :: Told(s, c) + (if c in targets then 1 else 0),
         closers := s.closers[h := k.(scanned := true)])
  }

  function Init(file: Bytes, subscribers: set<Cid>): State {
    State(file, {}, subscribers, map[], map[], map[])
  }

  predicate Legal(s: State, steps: seq<Step>)
    decreases |steps|
  {
    steps == [] || (Enabled(s, steps[0]) && Legal(Next(s, steps[0]), steps[1..]))
  }

  function Run(s: State, steps: seq<Step>): State
    requires Legal(s, steps)
    decreases |steps|
  {
    if steps == [] then s else Run(Next(s, steps[0]), steps[1..])
  }

  function Updates(n: nat, p: Path): seq<Note> {
    seq(n, _ => Note(Update, p))
  }

  function Queues(s: State, p: Path): map<Cid, seq<Note>> {
    map c | c in s.subscribers :: Updates(Told(s, c), p)
  }

  // The server as the callbacks see it: its one path, and what each client was ever sent about it.
  function View(s: State, p: Path): ServerModel.Server {
    ServerModel.Server(map[p := s.file], if s.reg == {} then map[] else map[p := s.reg], Queues(s, p), false)
  }

  /** To register is what open does to the registry. */
  lemma RegisterIsOpens(s: State, p: Path, h: HandlerId, c: Cid)
    requires Enabled(s, Register(h, c))
    ensures View(Next(s, Register(h, c)), p) == ServerModel.Register(View(s, p), c, p)
  {
    assert {} + {c} == {c};
  }

  /** And to scan is the callback of close. */
  lemma ScanIsTheCallback(s: State, p: Path, h: HandlerId)
    requires Enabled(s, Scan(h))
    ensures View(Next(s, Scan(h)), p) ==
            ServerModel.CloseCallback(View(s, p), p, s.closers[h].c, Note(Update, p))
  {
    var s', from, note := Next(s, Scan(h)), s.closers[h].c, Note(Update, p);
    forall d | d in s.subscribers
      ensures Queues(s', p)[d] == if d in s.reg - {from} then Queues(s, p)[d] + [note] else Queues(s, p)[d]
    {
      ToldByScan(s, h, d);
      assert Updates(Told(s, d) + 1, p) == Updates(Told(s, d), p) + [note];
    }
    assert Queues(s', p) == ServerModel.FanOut(Queues(s, p), s.reg - {from}, note);
    if s.reg == {} { assert Queues(s', p) == Queues(s, p); }
  }

  lemma ToldByScan(s: State, h: HandlerId, d: Cid)
    requires Enabled(s, Scan(h)) && d in s.subscribers
    ensures Told(Next(s, Scan(h)), d) == Told(s, d) + if d in s.reg - {s.closers[h].c} then 1 else 0
  {
  }

  // ---------------------------------------------------------------------------- the argument

  ghost predicate ToldSince(s: State, o: Opener) {
    Told(s, o.c) > o.mark
  }

  // Some close by another client has still to scan the registry.
  ghost predicate OthersRunning(s: State, c: Cid) {
    exists h :: h in s.closers && Running(s.closers[h]) && s.closers[h].c != c
  }

  // What has been read so far is the file as it is now.
  predicate UpToDate(file: Bytes, o: Opener) {
    |o.got| <= |file| && o.got == file[..|o.got|] && (o.eof ==> |o.got| == |file|)
  }

  // Whatever an opener may miss is still going to be announced to it.
  ghost predicate OpenerOk(s: State, o: Opener) {
    && o.c in s.reg && Told(s, o.c) >= o.mark
    && (o.c in s.subscribers && !o.selfClose ==>
          ToldSince(s, o) || OthersRunning(s, o.c) || UpToDate(s.file, o))
    && (!o.selfClose ==>
          forall k :: k in s.closers && s.closers[k].c == o.c ==> s.closers[k].scanned)
  }

  // What a close has written so far is the file as it is now.
  predicate InPlace(file: Bytes, k: Closer) {
    k.written <= |k.data| && file == k.data[..k.written]
  }

  // Whatever overwrites what a close wrote is still going to be announced to its client.
  ghost predicate CloserOk(s: State, h: HandlerId)
    requires h in s.closers
  {
    var k := s.closers[h];
    && (k.known ==> k.c in s.reg) && Told(s, k.c) >= k.mark
    && (k.scanned ==> k.written == |k.data|)
    && (k.known && k.c in s.subscribers && !k.overlap ==>
          Told(s, k.c) > k.mark || OthersRunning(s, k.c) || InPlace(s.file, k))
    && (!k.overlap ==>
          forall j :: j in s.closers && s.closers[j].c == k.c && j != h ==> s.closers[j].scanned)
  }

  ghost predicate Inv(s: State) {
    && (forall h :: h in s.openers ==> OpenerOk(s, s.openers[h]))
    && (forall h :: h in s.closers ==> CloserOk(s, h))
  }

  lemma RegisterStep(s: State, h: HandlerId, c: Cid)
    requires Inv(s) && Enabled(s, Register(h, c))
    ensures Inv(Next(s, Register(h, c)))
  {
    var s' := Next(s, Register(h, c));
    forall j | j in s'.openers ensures OpenerOk(s', s'.openers[j]) {
      if j != h { assert OpenerOk(s, s.openers[j]); }
    }
    forall j | j in s'.closers ensures CloserOk(s', j) { assert CloserOk(s, j); }
  }

  lemma ReadStep(s: State, h: HandlerId, n: nat)
    requires Inv(s) && Enabled(s, ReadPiece(h, n))
    ensures Inv(Next(s, ReadPiece(h, n)))
  {
    var s' := Next(s, ReadPiece(h, n));
    forall j | j in s'.openers ensures OpenerOk(s', s'.openers[j]) {
      assert OpenerOk(s, s.openers[j]);
      if j == h && UpToDate(s.file, s.openers[h]) {
        var o, o' := s.openers[h], s'.openers[h];
        assert o'.got == s.file[..|o'.got|];
      }
    }
    forall j | j in s'.closers ensures CloserOk(s', j) { assert CloserOk(s, j); }
  }

  lemma TruncateStep(s: State, h: HandlerId, c: Cid, data: Bytes)
    requires Inv(s) && Enabled(s, Truncate(h, c, data))
    ensures Inv(Next(s, Truncate(h, c, data)))
  {
    var s' := Next(s, Truncate(h, c, data));
    var k := s'.closers[h];
    assert Running(k) && k.c == c && k.data[..0] == [];
    assert Told(s', c) == k.mark;
    forall j | j in s'.openers ensures OpenerOk(s', s'.openers[j]) {
      assert OpenerOk(s, s.openers[j]);
      if s.openers[j].c != c { assert OthersRunning(s', s.openers[j].c); }
    }
    forall j | j in s'.closers ensures CloserOk(s', j) {
      if j != h {
        assert CloserOk(s, j);
        if s.closers[j].c != c { assert OthersRunning(s', s.closers[j].c); }
      }
    }
  }

  lemma WriteStep(s: State, h: HandlerId, n: nat)
    requires Inv(s) && Enabled(s, WritePiece(h, n))
    ensures Inv(Next(s, WritePiece(h, n)))
  {
    var s' := Next(s, WritePiece(h, n));
    var k, k' := s.closers[h], s'.closers[h];
    assert Running(k') && CloserOk(s, h);
    forall j | j in s'.openers ensures OpenerOk(s', s'.openers[j]) {
      var o := s.openers[j];
      assert OpenerOk(s, o);
      if !o.selfClose {
        assert k.c != o.c;
        assert OthersRunning(s', o.c);
      }
    }
    forall j | j in s'.closers ensures CloserOk(s', j) {
      assert CloserOk(s, j);
      if s.closers[j].c != k.c {
        assert OthersRunning(s', s.closers[j].c);
      } else if j == h {
        if OthersRunning(s, k.c) {
          var i :| i in s.closers && Running(s.closers[i]) && s.closers[i].c != k.c;
          assert Running(s'.closers[i]) && s'.closers[i].c != k.c;
        }
        if InPlace(s.file, k) { AppendPiece(k.data, k.written, n); }
      }
    }
  }

  lemma AppendPiece(data: Bytes, written: nat, n: nat)
    requires written + n <= |data|
    ensures Overlay(data[..written], written, data[written..written + n]) == data[..written + n]
  {
    OverlayMeaning(data[..written], written, data[written..written + n]);
  }

  lemma ScanStep(s: State, h: HandlerId)
    requires Inv(s) && Enabled(s, Scan(h))
    ensures Inv(Next(s, Scan(h)))
  {
    var s' := Next(s, Scan(h));
    var from := s.closers[h].c;
    forall c | c in s.reg && c in s.subscribers && c != from ensures Told(s', c) == Told(s, c) + 1 {
      assert c in (s.reg - {from}) * s.subscribers;
    }
    forall j | j in s'.openers ensures OpenerOk(s', s'.openers[j]) {
      assert OpenerOk(s, s.openers[j]);
    }
    forall j | j in s'.closers ensures CloserOk(s', j) {
      assert CloserOk(s, j);
      if s.closers[j].c == from && OthersRunning(s, from) {
        var i :| i in s.closers && Running(s.closers[i]) && s.closers[i].c != from;
        assert Running(s'.closers[i]) && s'.closers[i].c != from;
      }
    }
  }

  lemma StepKeepsInv(s: State, st: Step)
    requires Inv(s) && Enabled(s, st)
    ensures Inv(Next(s, st))
  {
    match st
    case Register(h, c) => RegisterStep(s, h, c);
    case ReadPiece(h, n) => ReadStep(s, h, n);
    case Truncate(h, c, data) => TruncateStep(s, h, c, data);
    case WritePiece(h, n) => WriteStep(s, h, n);
    case Scan(h) => ScanStep(s, h);
  }

  lemma {:induction false} RunKeepsInv(s: State, steps: seq<Step>)
    requires Inv(s) && Legal(s, steps)
    ensures Inv(Run(s, steps))
    decreases |steps|
  {
    if steps != [] {
      StepKeepsInv(s, steps[0]);
      RunKeepsInv(Next(s, steps[0]), steps[1..]);
    }
  }

  // A close by c begins during these steps.
  predicate Begins(steps: seq<Step>, c: Cid) {
    exists i :: 0 <= i < |steps| && steps[i].Truncate? && steps[i].c == c
  }

  lemma BeginsLater(steps: seq<Step>, c: Cid)
    requires steps != []
    ensures Begins(steps, c) <==> (steps[0].Truncate? && steps[0].c == c) || Begins(steps[1..], c)
  {
    if i :| 0 <= i < |steps| && steps[i].Truncate? && steps[i].c == c && i > 0 {
      assert steps[1..][i - 1].c == c;
    }
    if i :| 0 <= i < |steps[1..]| && steps[1..][i].Truncate? && steps[1..][i].c == c {
      assert steps[i + 1].c == c;
    }
  }

  // What an open keeps, and what it records, while the rest goes on.
  lemma {:induction false} OpenerKept(s: State, steps: seq<Step>, h: HandlerId)
    requires Legal(s, steps) && h in s.openers
    ensures var o, s' := s.openers[h], Run(s, steps);
            && h in s'.openers && s'.openers[h].c == o.c && s'.openers[h].mark == o.mark
            && (s'.openers[h].selfClose <==> o.selfClose || Begins(steps, o.c))
    decreases |steps|
  {
    if steps != [] {
      OpenerKept(Next(s, steps[0]), steps[1..], h);
      BeginsLater(steps, s.openers[h].c);
    }
  }

  // And a close.
  lemma {:induction false} CloserKept(s: State, steps: seq<Step>, h: HandlerId)
    requires Legal(s, steps) && h in s.closers
    ensures var k, s' := s.closers[h], Run(s, steps);
            && h in s'.closers && s'.closers[h].c == k.c && s'.closers[h].data == k.data
            && s'.closers[h].mark == k.mark && s'.closers[h].known == k.known
            && (s'.closers[h].overlap <==> k.overlap || Begins(steps, k.c))
    decreases |steps|
  {
    if steps != [] {
      CloserKept(Next(s, steps[0]), steps[1..], h);
      BeginsLater(steps, s.closers[h].c);
    }
  }

  lemma {:induction false} SubscribersFixed(s: State, steps: seq<Step>)
    requires Legal(s, steps)
    ensures Run(s, steps).subscribers == s.subscribers
    decreases |steps|
  {
    if steps != [] { SubscribersFixed(Next(s, steps[0]), steps[1..]); }
  }

  /** No lost invalidation. For any number of opens and closes of a path, interleaved in any way, an
      open that registers at some point and reads to the end: once all closes have finished, if its
      client subscribes and runs no close of its own from the registration on, it has either read the
      file exactly as it is now, or has been sent a note since it registered. This covers reads
      torn by concurrent writes. */
  lemma NoLostInvalidation(
    file: Bytes, subscribers: set<Cid>, before: seq<Step>, h: HandlerId, c: Cid, after: seq<Step>)
    requires Legal(Init(file, subscribers), before)
    requires Enabled(Run(Init(file, subscribers), before), Register(h, c)) && c in subscribers
    requires !Busy(Run(Init(file, subscribers), before), c) && !Begins(after, c)
    requires var s1 := Next(Run(Init(file, subscribers), before), Register(h, c));
             && Legal(s1, after) && h in Run(s1, after).openers && Run(s1, after).openers[h].eof
             && forall k :: k in Run(s1, after).closers ==> Run(s1, after).closers[k].scanned
    ensures var s0 := Run(Init(file, subscribers), before);
            var s := Run(Next(s0, Register(h, c)), after);
            s.openers[h].got == s.file || Told(s, c) > Told(s0, c)
  {
    var s0 := Run(Init(file, subscribers), before);
    var s1 := Next(s0, Register(h, c));
    var s := Run(s1, after);
    RunKeepsInv(Init(file, subscribers), before);
    RegisterStep(s0, h, c);
    RunKeepsInv(s1, after);
    SubscribersFixed(Init(file, subscribers), before);
    SubscribersFixed(s1, after);
    OpenerKept(s1, after, h);
    assert OpenerOk(s, s.openers[h]);
    assert s.file[..|s.file|] == s.file;
  }

  /** Nor does a closer miss what overwrites its upload. Once all closes have finished, if its client
      subscribes, was registered when its close began, and runs no other close from then on, the file
      has the closer's bytes, or its client has been sent a note since its close began. */
  lemma NoSilentOverwrite(
    file: Bytes, subscribers: set<Cid>, before: seq<Step>, h: HandlerId, c: Cid, data: Bytes, after: seq<Step>)
    requires Legal(Init(file, subscribers), before)
    requires Enabled(Run(Init(file, subscribers), before), Truncate(h, c, data)) && c in subscribers
    requires c in Run(Init(file, subscribers), before).reg
    requires !Busy(Run(Init(file, subscribers), before), c) && !Begins(after, c)
    requires var s1 := Next(Run(Init(file, subscribers), before), Truncate(h, c, data));
             && Legal(s1, after)
             && forall k :: k in Run(s1, after).closers ==> Run(s1, after).closers[k].scanned
    ensures var s0 := Run(Init(file, subscribers), before);
            var s := Run(Next(s0, Truncate(h, c, data)), after);
            s.file == data || Told(s, c) > Told(s0, c)
  {
    var s0 := Run(Init(file, subscribers), before);
    var s1 := Next(s0, Truncate(h, c, data));
    var s := Run(s1, after);
    RunKeepsInv(Init(file, subscribers), before);
    TruncateStep(s0, h, c, data);
    RunKeepsInv(s1, after);
    SubscribersFixed(Init(file, subscribers), before);
    SubscribersFixed(s1, after);
    CloserKept(s1, after, h);
    assert CloserOk(s, h);
    assert data[..|data|] == data;
  }

  lemma {:induction false} OneMore(s: State, steps: seq<Step>, st: Step)
    requires Legal(s, steps) && Enabled(Run(s, steps), st)
    ensures Legal(s, steps + [st]) && Run(s, steps + [st]) == Next(Run(s, steps), st)
    decreases |steps|
  {
    var all := steps + [st];
    if steps == [] {
      assert all[1..] == [];
    } else {
      OneMore(Next(s, steps[0]), steps[1..], st);
      assert all[1..] == steps[1..] + [st];
    }
  }

  // Client r has read one of the two bytes when client w truncates the file.
  lemma HalfRead() returns (steps: seq<Step>)
    ensures Legal(Init([2, 2], {"r", "w"}), steps)
    ensures Run(Init([2, 2], {"r", "w"}), steps) ==
            State([], {"r"}, {"r", "w"}, map[], map[0 := Opener("r", 0, [2], false, false)],
                  map[1 := Closer("w", [1, 1], 0, false, 0, false, false)])
  {
    var s0 := Init([2, 2], {"r", "w"});
    OneMore(s0, [], Register(0, "r"));
    steps := [] + [Register(0, "r")];
    assert Run(s0, steps) ==
           State([2, 2], {"r"}, {"r", "w"}, map[], map[0 := Opener("r", 0, [], false, false)], map[]);
    OneMore(s0, steps, ReadPiece(0, 1));
    steps := steps + [ReadPiece(0, 1)];
    assert Slice([2, 2], 0, 1) == [2] && [] + [2] == [2];
    assert Run(s0, steps) ==
           State([2, 2], {"r"}, {"r", "w"}, map[], map[0 := Opener("r", 0, [2], false, false)], map[]);
    OneMore(s0, steps, Truncate(1, "w", [1, 1]));
    steps := steps + [Truncate(1, "w", [1, 1])];
  }

  /** Torn reads do happen, and are announced: here client r reads one old and one new byte. */
  lemma TornReadIsAnnounced() returns (steps: seq<Step>)
    ensures Legal(Init([2, 2], {"r", "w"}), steps)
    ensures var s := Run(Init([2, 2], {"r", "w"}), steps);
            && s.file == [1, 1] && 0 in s.openers && s.openers[0].c == "r"
            && s.openers[0].eof && s.openers[0].got == [2, 1]
            && Told(s, "r") > s.openers[0].mark
  {
    var s0 := Init([2, 2], {"r", "w"});
    steps := HalfRead();
    OneMore(s0, steps, WritePiece(1, 2));
    steps := steps + [WritePiece(1, 2)];
    assert Run(s0, steps) ==
           State([1, 1], {"r"}, {"r", "w"}, map[], map[0 := Opener("r", 0, [2], false, false)],
                 map[1 := Closer("w", [1, 1], 2, false, 0, false, false)]);
    OneMore(s0, steps, ReadPiece(0, 4));
    steps := steps + [ReadPiece(0, 4)];
    assert Slice([1, 1], 1, 4) == [1] && [2] + [1] == [2, 1];
    assert Run(s0, steps) ==
           State([1, 1], {"r"}, {"r", "w"}, map[], map[0 := Opener("r", 0, [2, 1], true, false)],
                 map[1 := Closer("w", [1, 1], 2, false, 0, false, false)]);
    OneMore(s0, steps, Scan(1));
    steps := steps + [Scan(1)];
  }
}
