/**
 The mutexes of the server and of one client process, and the order in which each operation
 takes them. Operations are scripts of acquisitions and releases; any number of threads run
 any of them concurrently.
 */
module Locks {

  datatype Lock =
    | FileMap                   // file_map_mutex
    | FileMapOpen               // file_map_open_mutex
    | ClientDb                  // client_db_mutex
    | Subscribers               // subscriber_mutex
    | Queue(owner: string)      // mu of one client's queue
    | File(key: string)         // one entry of file_mutexes
    | Cache                     // cache_mutex

  function Rank(l: Lock): nat {
    match l
    case FileMapOpen => 0
    case ClientDb => 0
    case FileMap => 0
    case Subscribers => 1
    case Queue(_) => 2
    case File(_) => 0
    case Cache => 1
  }

  const MAX_RANK: nat := 2

  datatype Action = Acq(l: Lock) | Rel(l: Lock)

  // ----------------------------------------------------------------- what the operations lock

  function Section(l: Lock, inner: seq<Action>): seq<Action> {
    [Acq(l)] + inner + [Rel(l)]
  }

  // The pushes of a fan-out.
  function Pushes(clients: seq<string>): seq<Action> {
    if clients == [] then [] else Section(Queue(clients[0]), []) + Pushes(clients[1..])
  }

  function Callback(clients: seq<string>): seq<Action> {
    Section(FileMap, Section(Subscribers, Pushes(clients)))
  }

  function ServerOpen(): seq<Action> {
    Section(FileMap, []) + Section(FileMapOpen, [])
  }

  function ServerClose(registered: bool, clients: seq<string>): seq<Action> {
    (if registered then Callback(clients) else Section(FileMap, [])) + Section(FileMapOpen, [])
  }

  function ServerUnlink(registered: bool, clients: seq<string>): seq<Action> {
    if registered then Callback(clients) else Section(FileMap, [])
  }

  // On an unregistered path the callback locks the mutex it holds.
  function ServerRename(registered: bool, clients: seq<string>): seq<Action> {
    if registered then Callback(clients) else Section(FileMap, Section(FileMap, []))
  }

  function ServerCleanup(c: string): seq<Action> {
    Section(ClientDb, []) + Section(FileMap, []) + Section(Subscribers, Section(Queue(c), []))
  }

  // subscribe up to its wait; a pop that waits gives its mutex back meanwhile.
  function ServerSubscribe(c: string, pops: nat): seq<Action> {
    Section(Subscribers, []) + PopLoop(c, pops) + ServerCleanup(c)
  }

  function PopLoop(c: string, pops: nat): seq<Action> {
    if pops == 0 then [] else Section(Queue(c), []) + PopLoop(c, pops - 1)
  }

  // open_file, create_file, rename_file, get_attributes and the subscriber's loop: cache_mutex
  // again and again, and nothing else.
  function CacheOnly(times: nat): seq<Action> {
    if times == 0 then [] else Section(Cache, []) + CacheOnly(times - 1)
  }

  function ClientRead(key: string): seq<Action> {
    Section(Cache, []) + Section(File(key), [])
  }

  function ClientWrite(key: string): seq<Action> {
    Section(Cache, []) + Section(File(key), Section(Cache, []) + Section(Cache, []))
  }

  // An upload that fails gives up under the file's mutex alone.
  function ClientFailedClose(key: string): seq<Action> {
    Section(Cache, []) + Section(File(key), [])
  }

  // The file's mutex is let go while the global one, taken under it, is kept.
  function HandOver(key: string): seq<Action> {
    [Acq(File(key)), Acq(Cache), Rel(File(key)), Rel(Cache)]
  }

  function ClientClose(key: string): seq<Action> {
    Section(Cache, []) + HandOver(key)
  }

  function ClientDelete(key: string): seq<Action> {
    Section(Cache, []) + HandOver(key)
  }

  // ------------------------------------------------------------------------ ranked scripts

  function HeldAfter(held: set<Lock>, script: seq<Action>): set<Lock>
    decreases |script|
  {
    if script == [] then held
    else
      match script[0]
      case Acq(l) => HeldAfter(held + {l}, script[1..])
      case Rel(l) => HeldAfter(held - {l}, script[1..])
  }

  // Every mutex is taken under mutexes of smaller rank only, given back only if held, and none
  // is left held.
  predicate Ranked(held: set<Lock>, script: seq<Action>)
    decreases |script|
  {
    if script == [] then held == {}
    else
      match script[0]
      case Acq(l) => (forall h :: h in held ==> Rank(h) < Rank(l)) && Ranked(held + {l}, script[1..])
      case Rel(l) => l in held && Ranked(held - {l}, script[1..])
  }

  // The same, for a stretch of script between two sets of held mutexes.
  predicate FitsTo(held: set<Lock>, script: seq<Action>, end: set<Lock>)
    decreases |script|
  {
    if script == [] then held == end
    else
      match script[0]
      case Acq(l) => (forall h :: h in held ==> Rank(h) < Rank(l)) && FitsTo(held + {l}, script[1..], end)
      case Rel(l) => l in held && FitsTo(held - {l}, script[1..], end)
  }

  lemma {:induction false} FitsAppend(a: set<Lock>, s: seq<Action>, b: set<Lock>, t: seq<Action>, c: set<Lock>)
    requires FitsTo(a, s, b) && FitsTo(b, t, c)
    ensures FitsTo(a, s + t, c)
    decreases |s|
  {
    if s == [] {
      assert s + t == t;
    } else {
      assert (s + t)[1..] == s[1..] + t;
      match s[0]
      case Acq(l) => FitsAppend(a + {l}, s[1..], b, t, c);
      case Rel(l) => FitsAppend(a - {l}, s[1..], b, t, c);
    }
  }

  lemma {:induction false} FitsIsRanked(held: set<Lock>, s: seq<Action>)
    requires FitsTo(held, s, {})
    ensures Ranked(held, s)
    decreases |s|
  {
    if s != [] {
      match s[0]
      case Acq(l) => FitsIsRanked(held + {l}, s[1..]);
      case Rel(l) => FitsIsRanked(held - {l}, s[1..]);
    }
  }

  lemma SectionFits(held: set<Lock>, l: Lock, inner: seq<Action>)
    requires forall h :: h in held ==> Rank(h) < Rank(l)
    requires FitsTo(held + {l}, inner, held + {l})
    ensures FitsTo(held, Section(l, inner), held)
  {
    assert l !in held;
    assert [Rel(l)][1..] == [] && held + {l} - {l} == held;
    assert FitsTo(held + {l}, [Rel(l)], held);
    FitsAppend(held + {l}, inner, held + {l}, [Rel(l)], held);
    assert Section(l, inner)[1..] == inner + [Rel(l)];
  }

  lemma {:induction false} PushesFit(clients: seq<string>)
    ensures FitsTo({FileMap, Subscribers}, Pushes(clients), {FileMap, Subscribers})
  {
    if clients != [] {
      var held := {FileMap, Subscribers};
      SectionFits(held, Queue(clients[0]), []);
      PushesFit(clients[1..]);
      FitsAppend(held, Section(Queue(clients[0]), []), held, Pushes(clients[1..]), held);
    }
  }

  lemma CallbackFits(clients: seq<string>)
    ensures FitsTo({}, Callback(clients), {})
  {
    PushesFit(clients);
    assert {FileMap} + {Subscribers} == {FileMap, Subscribers};
    SectionFits({FileMap}, Subscribers, Pushes(clients));
    assert {} + {FileMap} == {FileMap};
    SectionFits({}, FileMap, Section(Subscribers, Pushes(clients)));
  }

  lemma {:induction false} PopLoopFits(c: string, pops: nat)
    ensures FitsTo({}, PopLoop(c, pops), {})
  {
    if pops != 0 {
      SectionFits({}, Queue(c), []);
      PopLoopFits(c, pops - 1);
      FitsAppend({}, Section(Queue(c), []), {}, PopLoop(c, pops - 1), {});
    }
  }

  lemma {:induction false} CacheOnlyFits(times: nat)
    ensures FitsTo({}, CacheOnly(times), {})
  {
    if times != 0 {
      SectionFits({}, Cache, []);
      CacheOnlyFits(times - 1);
      FitsAppend({}, Section(Cache, []), {}, CacheOnly(times - 1), {});
    }
  }

  lemma ServerOperationsRanked(clients: seq<string>, c: string, registered: bool, pops: nat)
    ensures Ranked({}, ServerOpen())
    ensures Ranked({}, ServerClose(registered, clients))
    ensures Ranked({}, ServerUnlink(registered, clients))
    ensures Ranked({}, ServerRename(true, clients))
    ensures Ranked({}, ServerSubscribe(c, pops))
  {
    CallbackFits(clients);
    SectionFits({}, FileMap, []);
    SectionFits({}, FileMapOpen, []);
    SectionFits({}, ClientDb, []);
    SectionFits({}, Subscribers, []);
    assert {} + {Subscribers} == {Subscribers};
    SectionFits({Subscribers}, Queue(c), []);
    SectionFits({}, Subscribers, Section(Queue(c), []));
    FitsAppend({}, Section(FileMap, []), {}, Section(FileMapOpen, []), {});
    FitsAppend({}, Callback(clients), {}, Section(FileMapOpen, []), {});
    FitsAppend({}, Section(ClientDb, []), {}, Section(FileMap, []), {});
    FitsAppend({}, Section(ClientDb, []) + Section(FileMap, []), {}, Section(Subscribers, Section(Queue(c), [])), {});
    PopLoopFits(c, pops);
    FitsAppend({}, Section(Subscribers, []), {}, PopLoop(c, pops), {});
    FitsAppend({}, Section(Subscribers, []) + PopLoop(c, pops), {}, ServerCleanup(c), {});
    FitsIsRanked({}, ServerOpen());
    FitsIsRanked({}, ServerClose(registered, clients));
    FitsIsRanked({}, ServerUnlink(registered, clients));
    FitsIsRanked({}, ServerRename(true, clients));
    FitsIsRanked({}, ServerSubscribe(c, pops));
  }

  lemma ClientOperationsRanked(key: string, times: nat)
    ensures Ranked({}, CacheOnly(times))
    ensures Ranked({}, ClientRead(key))
    ensures Ranked({}, ClientWrite(key))
    ensures Ranked({}, ClientClose(key)) && Ranked({}, ClientFailedClose(key))
    ensures Ranked({}, ClientDelete(key))
  {
    CacheOnlyFits(times);
    SectionFits({}, Cache, []);
    SectionFits({}, File(key), []);
    assert {} + {File(key)} == {File(key)};
    SectionFits({File(key)}, Cache, []);
    FitsAppend({File(key)}, Section(Cache, []), {File(key)}, Section(Cache, []), {File(key)});
    SectionFits({}, File(key), Section(Cache, []) + Section(Cache, []));
    FitsAppend({}, Section(Cache, []), {}, Section(File(key), []), {});
    FitsAppend({}, Section(Cache, []), {}, Section(File(key), Section(Cache, []) + Section(Cache, [])), {});
    HandOverFits(key);
    FitsAppend({}, Section(Cache, []), {}, HandOver(key), {});
    FitsIsRanked({}, CacheOnly(times));
    FitsIsRanked({}, ClientRead(key));
    FitsIsRanked({}, ClientWrite(key));
    FitsIsRanked({}, ClientClose(key));
  }

  lemma HandOverFits(key: string)
    ensures FitsTo({}, HandOver(key), {})
  {
    var s3: seq<Action> := [Rel(Cache)];
    assert s3[1..] == [] && {Cache} - {Cache} == {};
    assert FitsTo({Cache}, s3, {});
    var s2 := [Rel(File(key)), Rel(Cache)];
    assert s2[1..] == s3 && {File(key), Cache} - {File(key)} == {Cache};
    assert FitsTo({File(key), Cache}, s2, {});
    var s1 := [Acq(Cache), Rel(File(key)), Rel(Cache)];
    assert s1[1..] == s2 && {File(key)} + {Cache} == {File(key), Cache};
    assert FitsTo({File(key)}, s1, {});
    assert HandOver(key)[1..] == s1 && {} + {File(key)} == {File(key)};
  }

  // ------------------------------------------------------------------- what is taken under what

  datatype Taking = Taking(l: Lock, under: set<Lock>)

  // The mutexes a script takes, in order, each with those held at that moment.
  function Taken(held: set<Lock>, script: seq<Action>): seq<Taking>
    decreases |script|
  {
    if script == [] then []
    else
      match script[0]
      case Acq(l) => [Taking(l, held)] + Taken(held + {l}, script[1..])
      case Rel(l) => Taken(held - {l}, script[1..])
  }

  lemma {:induction false} TakenAppend(held: set<Lock>, s: seq<Action>, t: seq<Action>)
    ensures Taken(held, s + t) == Taken(held, s) + Taken(HeldAfter(held, s), t)
    ensures HeldAfter(held, s + t) == HeldAfter(HeldAfter(held, s), t)
    decreases |s|
  {
    if s == [] {
      assert s + t == t;
    } else {
      assert (s + t)[1..] == s[1..] + t;
      match s[0]
      case Acq(l) => TakenAppend(held + {l}, s[1..], t);
      case Rel(l) => TakenAppend(held - {l}, s[1..], t);
    }
  }

  lemma TakenBySection(held: set<Lock>, l: Lock, inner: seq<Action>)
    requires l !in held && HeldAfter(held + {l}, inner) == held + {l}
    ensures Taken(held, Section(l, inner)) == [Taking(l, held)] + Taken(held + {l}, inner)
    ensures HeldAfter(held, Section(l, inner)) == held
  {
    var end := [Rel(l)];
    assert end[1..] == [] && held + {l} - {l} == held;
    TakenAppend(held + {l}, inner, end);
    assert Section(l, inner)[1..] == inner + end;
  }

  lemma {:induction false} TakenByPushes(held: set<Lock>, clients: seq<string>)
    requires forall c :: Queue(c) !in held
    ensures Taken(held, Pushes(clients)) == seq(|clients|, i requires 0 <= i < |clients| => Taking(Queue(clients[i]), held))
    ensures HeldAfter(held, Pushes(clients)) == held
  {
    if clients != [] {
      TakenBySection(held, Queue(clients[0]), []);
      TakenByPushes(held, clients[1..]);
      TakenAppend(held, Section(Queue(clients[0]), []), Pushes(clients[1..]));
    }
  }

  /** A callback takes the queue mutex of each of its clients once, in order, under exactly
      file_map_mutex and subscriber_mutex, and gives everything back. */
  lemma TakenByCallbacks(clients: seq<string>)
    ensures Taken({}, Callback(clients)) ==
            [Taking(FileMap, {}), Taking(Subscribers, {FileMap})]
            + seq(|clients|, i requires 0 <= i < |clients| => Taking(Queue(clients[i]), {FileMap, Subscribers}))
    ensures HeldAfter({}, Callback(clients)) == {}
  {
    assert {} + {FileMap} == {FileMap} && {FileMap} + {Subscribers} == {FileMap, Subscribers};
    TakenByPushes({FileMap, Subscribers}, clients);
    TakenBySection({FileMap}, Subscribers, Pushes(clients));
    TakenBySection({}, FileMap, Section(Subscribers, Pushes(clients)));
  }

  // Two stretches of script that each give back what they take.
  lemma TakenInTurn(s: seq<Action>, t: seq<Action>)
    requires HeldAfter({}, s) == {} && HeldAfter({}, t) == {}
    ensures Taken({}, s + t) == Taken({}, s) + Taken({}, t) && HeldAfter({}, s + t) == {}
  {
    TakenAppend({}, s, t);
  }

  lemma {:induction false} TakenByPops(c: string, pops: nat)
    ensures Taken({}, PopLoop(c, pops)) == seq(pops, _ => Taking(Queue(c), {})) && HeldAfter({}, PopLoop(c, pops)) == {}
  {
    if pops != 0 {
      TakenBySection({}, Queue(c), []);
      TakenByPops(c, pops - 1);
      TakenInTurn(Section(Queue(c), []), PopLoop(c, pops - 1));
    }
  }

  lemma TakenByCleanup(c: string)
    ensures Taken({}, ServerCleanup(c)) ==
            [Taking(ClientDb, {}), Taking(FileMap, {}), Taking(Subscribers, {}), Taking(Queue(c), {Subscribers})]
    ensures HeldAfter({}, ServerCleanup(c)) == {}
  {
    assert {} + {Subscribers} == {Subscribers};
    TakenBySection({}, ClientDb, []);
    TakenBySection({}, FileMap, []);
    TakenBySection({Subscribers}, Queue(c), []);
    TakenBySection({}, Subscribers, Section(Queue(c), []));
    TakenInTurn(Section(ClientDb, []), Section(FileMap, []));
    TakenInTurn(Section(ClientDb, []) + Section(FileMap, []), Section(Subscribers, Section(Queue(c), [])));
  }

  /** The server's operations: only a callback and the end of a subscription take one mutex under
      another, and a rename of an unregistered path takes one under itself. */
  lemma TakenByTheServer(clients: seq<string>, c: string, pops: nat)
    ensures Taken({}, ServerOpen()) == [Taking(FileMap, {}), Taking(FileMapOpen, {})]
    ensures Taken({}, ServerClose(true, clients)) == Taken({}, Callback(clients)) + [Taking(FileMapOpen, {})]
    ensures Taken({}, ServerClose(false, clients)) == [Taking(FileMap, {}), Taking(FileMapOpen, {})]
    ensures Taken({}, ServerUnlink(true, clients)) == Taken({}, ServerRename(true, clients)) == Taken({}, Callback(clients))
    ensures Taken({}, ServerUnlink(false, clients)) == [Taking(FileMap, {})]
    ensures Taken({}, ServerRename(false, clients)) == [Taking(FileMap, {}), Taking(FileMap, {FileMap})]
    ensures Taken({}, ServerSubscribe(c, pops)) ==
            [Taking(Subscribers, {})] + seq(pops, _ => Taking(Queue(c), {})) + Taken({}, ServerCleanup(c))
  {
    TakenByCallbacks(clients);
    TakenBySection({}, FileMap, []);
    TakenBySection({}, FileMapOpen, []);
    TakenBySection({}, Subscribers, []);
    TakenInTurn(Section(FileMap, []), Section(FileMapOpen, []));
    TakenInTurn(Callback(clients), Section(FileMapOpen, []));
    TakenTwice();
    TakenByPops(c, pops);
    TakenByCleanup(c);
    TakenInTurn(Section(Subscribers, []), PopLoop(c, pops));
    TakenInTurn(Section(Subscribers, []) + PopLoop(c, pops), ServerCleanup(c));
  }

  lemma TakenTwice()
    ensures Taken({}, Section(FileMap, Section(FileMap, []))) == [Taking(FileMap, {}), Taking(FileMap, {FileMap})]
  {
    var s := Section(FileMap, Section(FileMap, []));
    assert s == [Acq(FileMap), Acq(FileMap), Rel(FileMap), Rel(FileMap)];
    assert s[1..] == [Acq(FileMap), Rel(FileMap), Rel(FileMap)] && s[1..][1..] == [Rel(FileMap), Rel(FileMap)];
    assert {} + {FileMap} == {FileMap} && s[1..][1..][1..] == [Rel(FileMap)];
    assert s[1..][1..][1..][1..] == [];
  }

  /** The client's operations: cache_mutex alone first, then the file's mutex, and under it cache_mutex
      again, twice in a write, once in a close that got its upload through and in a deletion. */
  lemma TakenByTheClient(key: string, times: nat)
    ensures var alone, file, nested := Taking(Cache, {}), Taking(File(key), {}), Taking(Cache, {File(key)});
            && Taken({}, CacheOnly(times)) == seq(times, _ => alone)
            && Taken({}, ClientRead(key)) == Taken({}, ClientFailedClose(key)) == [alone, file]
            && Taken({}, ClientWrite(key)) == [alone, file, nested, nested]
            && Taken({}, ClientClose(key)) == Taken({}, ClientDelete(key)) == [alone, file, nested]
  {
    assert {} + {File(key)} == {File(key)};
    TakenByCacheOnly(times);
    TakenBySection({}, Cache, []);
    TakenBySection({}, File(key), []);
    TakenInTurn(Section(Cache, []), Section(File(key), []));
    TakenBySection({File(key)}, Cache, []);
    TakenAppend({File(key)}, Section(Cache, []), Section(Cache, []));
    TakenBySection({}, File(key), Section(Cache, []) + Section(Cache, []));
    TakenInTurn(Section(Cache, []), Section(File(key), Section(Cache, []) + Section(Cache, [])));
    TakenByHandOver(key);
    TakenInTurn(Section(Cache, []), HandOver(key));
  }

  lemma {:induction false} TakenByCacheOnly(times: nat)
    ensures Taken({}, CacheOnly(times)) == seq(times, _ => Taking(Cache, {})) && HeldAfter({}, CacheOnly(times)) == {}
  {
    if times != 0 {
      TakenBySection({}, Cache, []);
      TakenByCacheOnly(times - 1);
      TakenInTurn(Section(Cache, []), CacheOnly(times - 1));
    }
  }

  lemma TakenByHandOver(key: string)
    ensures Taken({}, HandOver(key)) == [Taking(File(key), {}), Taking(Cache, {File(key)})]
    ensures HeldAfter({}, HandOver(key)) == {}
  {
    var s := HandOver(key);
    var s1, s2, s3 := s[1..], s[1..][1..], s[1..][1..][1..];
    assert s1 == [Acq(Cache), Rel(File(key)), Rel(Cache)] && s2 == [Rel(File(key)), Rel(Cache)] && s3 == [Rel(Cache)];
    var file, both := {File(key)}, {File(key)} + {Cache};
    assert {Cache} - {Cache} == {} && Taken({Cache}, s3) == [] && HeldAfter({Cache}, s3) == {};
    assert both - {File(key)} == {Cache} && Taken(both, s2) == [] && HeldAfter(both, s2) == {};
    assert Taken(file, s1) == [Taking(Cache, file)] && HeldAfter(file, s1) == {};
    assert {} + {File(key)} == file;
  }

  // ------------------------------------------------------------------------------ the threads

  type Tid = nat

  // A thread holds some mutexes and has some of its script left.
  datatype Thread = Thread(held: set<Lock>, rest: seq<Action>)

  type System = map<Tid, Thread>

  ghost predicate FreeLock(s: System, l: Lock) {
    forall t :: t in s ==> l !in s[t].held
  }

  ghost predicate CanMove(s: System, t: Tid) {
    t in s && s[t].rest != [] && (s[t].rest[0].Acq? ==> FreeLock(s, s[t].rest[0].l))
  }

  ghost function Move(s: System, t: Tid): System
    requires CanMove(s, t)
  {
    var th := s[t];
    match th.rest[0]
    case Acq(l) => s[t := Thread(th.held + {l}, th.rest[1..])]
    case Rel(l) => s[t := Thread(th.held - {l}, th.rest[1..])]
  }

  // t waits for a mutex that u holds.
  ghost predicate WaitsFor(s: System, t: Tid, u: Tid) {
    t in s && u in s && s[t].rest != [] && s[t].rest[0].Acq? && s[t].rest[0].l in s[u].held
  }

  ghost predicate Inv(s: System) {
    && (forall t :: t in s ==> Ranked(s[t].held, s[t].rest))
    && (forall t, u, l :: t in s && u in s && l in s[t].held && l in s[u].held ==> t == u)
  }

  // A schedule: new threads start at any time, others move.
  datatype Event = Start(t: Tid, script: seq<Action>) | Go(t: Tid)

  ghost predicate Possible(s: System, e: Event) {
    match e
    case Start(t, script) => t !in s
    case Go(t) => CanMove(s, t)
  }

  ghost function After(s: System, e: Event): System
    requires Possible(s, e)
  {
    match e
    case Start(t, script) => s[t := Thread({}, script)]
    case Go(t) => Move(s, t)
  }

  ghost predicate Legal(s: System, events: seq<Event>)
    decreases |events|
  {
    events == [] || (Possible(s, events[0]) && Legal(After(s, events[0]), events[1..]))
  }

  ghost function Run(s: System, events: seq<Event>): System
    requires Legal(s, events)
    decreases |events|
  {
    if events == [] then s else Run(After(s, events[0]), events[1..])
  }

  // All threads that start have ranked scripts.
  predicate AllRanked(events: seq<Event>) {
    forall i :: 0 <= i < |events| && events[i].Start? ==> Ranked({}, events[i].script)
  }

  lemma {:induction false} RunKeepsInv(s: System, events: seq<Event>)
    requires Inv(s) && Legal(s, events) && AllRanked(events)
    ensures Inv(Run(s, events))
    decreases |events|
  {
    if events != [] {
      assert events[0].Start? ==> Ranked({}, events[0].script);
      RunKeepsInv(After(s, events[0]), events[1..]);
    }
  }

  lemma WaitingClimbs(s: System, t: Tid, u: Tid)
    requires Inv(s) && WaitsFor(s, t, u) && s[u].rest != [] && s[u].rest[0].Acq?
    ensures Rank(s[t].rest[0].l) < Rank(s[u].rest[0].l)
  {
    assert Ranked(s[u].held, s[u].rest);
  }

  // Whoever waits is, at the end of the chain, waiting for a thread that can go on.
  lemma {:induction false} EndOfChain(s: System, t: Tid) returns (u: Tid)
    requires Inv(s) && t in s && s[t].rest != []
    ensures CanMove(s, u)
    decreases if s[t].rest[0].Acq? then MAX_RANK - Rank(s[t].rest[0].l) else MAX_RANK + 1
  {
    u := t;
    if !CanMove(s, t) {
      var v :| v in s && s[t].rest[0].l in s[v].held;
      assert Ranked(s[v].held, s[v].rest);
      assert s[v].rest != [];
      if s[v].rest[0].Rel? {
        u := v;
      } else {
        WaitingClimbs(s, t, v);
        u := EndOfChain(s, v);
      }
    }
  }

  /** No deadlock. In every state any number of threads with ranked scripts can reach, if one has
      not finished, one can move. */
  lemma NoDeadlock(events: seq<Event>, t: Tid) returns (u: Tid)
    requires Legal(map[], events) && AllRanked(events)
    requires t in Run(map[], events) && Run(map[], events)[t].rest != []
    ensures CanMove(Run(map[], events), u)
  {
    RunKeepsInv(map[], events);
    u := EndOfChain(Run(map[], events), t);
  }

  // Each thread of the list waits for the next.
  ghost predicate WaitChain(s: System, ts: seq<Tid>) {
    forall i :: 0 <= i < |ts| - 1 ==> WaitsFor(s, ts[i], ts[i + 1])
  }

  lemma {:induction false} ChainClimbs(s: System, ts: seq<Tid>)
    requires Inv(s) && WaitChain(s, ts) && |ts| >= 2
    requires ts[|ts| - 1] in s && s[ts[|ts| - 1]].rest != [] && s[ts[|ts| - 1]].rest[0].Acq?
    ensures WaitsFor(s, ts[0], ts[1]) && Rank(s[ts[0]].rest[0].l) < Rank(s[ts[|ts| - 1]].rest[0].l)
    decreases |ts|
  {
    assert WaitsFor(s, ts[0], ts[1]);
    if |ts| > 2 {
      assert WaitsFor(s, ts[1], ts[2]);
      var rest := ts[1..];
      forall i | 0 <= i < |rest| - 1 ensures WaitsFor(s, rest[i], rest[i + 1]) {
        assert WaitsFor(s, ts[i + 1], ts[i + 2]);
      }
      ChainClimbs(s, rest);
    }
    WaitingClimbs(s, ts[0], ts[1]);
  }

  /** The waits-for relation has no cycle in any reachable state. */
  lemma NoWaitCycle(events: seq<Event>, ts: seq<Tid>)
    requires Legal(map[], events) && AllRanked(events) && |ts| >= 2
    ensures !(WaitChain(Run(map[], events), ts) && ts[0] == ts[|ts| - 1])
  {
    RunKeepsInv(map[], events);
    var s := Run(map[], events);
    if WaitChain(s, ts) && ts[0] == ts[|ts| - 1] {
      assert WaitsFor(s, ts[0], ts[1]);
      ChainClimbs(s, ts);
    }
  }

  // t renames an unregistered path: it holds file_map_mutex and is about to lock it.
  ghost predicate Stuck(s: System, t: Tid, clients: seq<string>) {
    && t in s && s[t] == Thread({FileMap}, ServerRename(false, clients)[1..])
    && forall u :: u in s && u != t ==> FileMap !in s[u].held
  }

  lemma StuckScript(clients: seq<string>)
    ensures ServerRename(false, clients) == [Acq(FileMap), Acq(FileMap), Rel(FileMap), Rel(FileMap)]
    ensures ServerRename(false, clients)[1..][0] == Acq(FileMap)
    ensures !Ranked({}, ServerRename(false, clients))
  {
    assert ServerRename(false, clients) == [Acq(FileMap), Acq(FileMap), Rel(FileMap), Rel(FileMap)];
    assert FileMap in {} + {FileMap};
  }

  /** The exception: the rename of an unregistered path is not ranked, and as soon as its first lock
      succeeds it hangs. */
  lemma RenameOfUnregisteredPathGetsStuck(s: System, t: Tid, clients: seq<string>)
    requires t !in s && FreeLock(s, FileMap)
    ensures !Ranked({}, ServerRename(false, clients))
    ensures var s1 := After(s, Start(t, ServerRename(false, clients)));
            CanMove(s1, t) && Stuck(Move(s1, t), t, clients)
  {
    StuckScript(clients);
    assert {} + {FileMap} == {FileMap};
  }

  /** And for ever: in whatever way all others go on, and new threads with any scripts start, its
      thread never moves again and waits for itself, nobody else ever holds the mutex, and whoever
      wants it waits for that thread. */
  lemma {:induction false} RenameOfUnregisteredPathHangs(s: System, events: seq<Event>, t: Tid, clients: seq<string>)
    requires Stuck(s, t, clients) && Legal(s, events)
    ensures var s' := Run(s, events);
            && Stuck(s', t, clients) && WaitsFor(s', t, t) && !CanMove(s', t)
            && forall u :: u in s' && s'[u].rest != [] && s'[u].rest[0] == Acq(FileMap) ==>
                             !CanMove(s', u) && WaitsFor(s', u, t)
    decreases |events|
  {
    StuckScript(clients);
    if events != [] {
      StaysStuck(s, events[0], t, clients);
      RenameOfUnregisteredPathHangs(After(s, events[0]), events[1..], t, clients);
    }
  }

  lemma StaysStuck(s: System, e: Event, t: Tid, clients: seq<string>)
    requires Stuck(s, t, clients) && Possible(s, e)
    ensures Stuck(After(s, e), t, clients)
  {
    StuckScript(clients);
    assert FileMap in s[t].held;
  }
}
