/**
 Runs in which the protocol departs from its intent, each of them reachable, and what some local
 operations leave behind.
 */
module Departures {
  import opened Wire
  import opened Keys
  import opened Notifications
  import opened ServerModel
  import opened ClientModel
  import opened System
  import opened Coherence
  import opened Deafness

  const DOWN: seq<DownNet> := [DownNet(true, 0, true), DownNet(true, 0, true), DownNet(true, 0, true)]
  const UP: seq<UpNet> := [UpNet(0, true), UpNet(0, true), UpNet(0, true)]

  // A live client caches p unmodified, with other bytes than the server's and no note coming.
  predicate Stale(w: World, c: Cid, p: Path) {
    && c in w.server.queues && c in w.nodes
    && p in w.nodes[c].client.cache && !w.nodes[c].client.cache[p]
    && !SameAsServer(w.server, w.nodes[c].client, p)
    && !Pending(w.server, c, w.nodes[c], p)
  }

  // Some run leads from w0 to w.
  ghost predicate Reached(w0: World, w: World) {
    exists steps :: Legal(w0, steps) && Run(w0, steps) == w
  }

  lemma Reach(w0: World, w: World, st: Step)
    requires Reached(w0, w) && Enabled(w, st)
    ensures Reached(w0, Next(w, st))
  {
    var steps :| Legal(w0, steps) && Run(w0, steps) == w;
    OneMoreStep(w0, steps, st);
  }

  const NOBODY: Node := Node(EMPTY, [], {}, map[])

  // Clients a and b join.
  lemma BothJoin(files: map<Path, Bytes>) returns (w: World)
    ensures w == World(Server(files, map[], map["a" := [], "b" := []], false), map["a" := NOBODY, "b" := NOBODY])
    ensures Reached(Init(files), w)
  {
    w := Init(files);
    assert Legal(w, []) && Run(w, []) == w;
    Reach(Init(files), w, Join("a"));
    w := Next(w, Join("a"));
    Reach(Init(files), w, Join("b"));
    w := Next(w, Join("b"));
  }

  // The steps of the runs below, with every transfer going through at once.
  lemma Opens(w0: World, w: World, c: Cid, p: Path) returns (w': World)
    requires Reached(w0, w) && c in w.nodes && p in w.server.files && !w.server.jammed
    requires p !in w.nodes[c].client.cache && p !in w.nodes[c].client.attr
    ensures Reached(w0, w')
    ensures var n := w.nodes[c];
            var cl := n.client;
            && w'.server == Register(w.server, c, p)
            && c in w'.nodes && w'.nodes == w.nodes[c := w'.nodes[c]]
            && w'.nodes[c].client == Client(cl.cache[p := false], cl.handles[p := FRESH], cl.mutexes + {p},
                                            cl.attr, cl.disk[p := w.server.files[p]])
            && w'.nodes[c].stream == n.stream
  {
    assert DOWN[0].reached;
    var rs := Replies(w.server.files, p, DOWN);
    assert rs[0].ok;
    DownloadMeaning(w.nodes[c].client, p, rs);
    DownloadedBytes(w.server.files, w.nodes[c].client, p, DOWN);
    Reach(w0, w, Open(c, p, DOWN));
    w' := NextOpen(w, c, p, DOWN);
  }

  lemma Flushes(w0: World, w: World, c: Cid, p: Path) returns (w': World)
    requires Reached(w0, w) && c in w.nodes && Uploads(w.nodes[c].client, p) && !w.server.jammed
    ensures Reached(w0, w')
    ensures var n := w.nodes[c];
            var cl := n.client;
            && w'.server == CloseCallback(w.server.(files := w.server.files[p := cl.disk[p]]), p, c, Note(Update, p))
            && c in w'.nodes && w'.nodes == w.nodes[c := w'.nodes[c]]
            && w'.nodes[c].client.cache == cl.cache[p := false] && w'.nodes[c].client.disk == cl.disk
            && w'.nodes[c].client.handles == cl.handles - {p}
            && w'.nodes[c].stream == n.stream
  {
    var bytes := w.nodes[c].client.disk[p];
    JoiningChunksGivesTheFile(bytes);
    assert UploadRpcs(w.server, c, p, bytes, UP) == (CloseRpc(w.server, c, p, UploadMessages(bytes)), true);
    Reach(w0, w, Close(c, p, UP));
    w' := NextClose(w, c, p, UP);
  }

  // One byte is replaced by another.
  lemma Writes(w0: World, w: World, c: Cid, p: Path, b: Byte) returns (w': World)
    requires Reached(w0, w) && c in w.nodes && Usable(w.nodes[c].client, p)
    requires w.nodes[c].client.handles[p] == FRESH && p in w.nodes[c].client.disk && |w.nodes[c].client.disk[p]| <= 1
    ensures Reached(w0, w')
    ensures var cl := w.nodes[c].client;
            && w'.server == w.server
            && c in w'.nodes && w'.nodes == w.nodes[c := w'.nodes[c]]
            && w'.nodes[c].client.cache == cl.cache[p := true] && w'.nodes[c].client.disk == cl.disk[p := [b]]
            && w'.nodes[c].client.handles == cl.handles && w'.nodes[c].client.mutexes == cl.mutexes
            && w'.nodes[c].stream == w.nodes[c].stream
  {
    OverlayMeaning(w.nodes[c].client.disk[p], 0, [b]);
    assert Overlay(w.nodes[c].client.disk[p], 0, [b]) == [b];
    Reach(w0, w, Write(c, p, [b], 0));
    w' := Next(w, Write(c, p, [b], 0));
  }

  // The only note queued for c is forwarded and read.
  lemma NoteArrives(w0: World, w: World, c: Cid, n: Note) returns (w': World)
    requires Reached(w0, w) && c in w.nodes && c in w.server.queues
    requires w.server.queues[c] == [n] && w.nodes[c].stream == []
    ensures Reached(w0, w')
    ensures w'.server == w.server.(queues := w.server.queues[c := []])
    ensures c in w'.nodes && w'.nodes[c].stream == [] && w'.nodes == w.nodes[c := w'.nodes[c]]
    ensures w'.nodes[c].client == Invalidate(w.nodes[c].client, n.path)
  {
    Reach(w0, w, Forward(c));
    var w1 := Next(w, Forward(c));
    assert w1.nodes[c].stream == [n];
    Reach(w0, w1, Deliver(c));
    w' := NextDeliver(w1, c);
  }

  // c has p in its cache, unmodified, as bytes.
  predicate Holds(w: World, c: Cid, p: Path, bytes: Bytes) {
    c in w.nodes && p in w.nodes[c].client.cache && !w.nodes[c].client.cache[p]
    && p in w.nodes[c].client.disk && w.nodes[c].client.disk[p] == bytes
  }

  predicate Quiet(w: World, c: Cid) {
    c in w.nodes && c in w.server.queues && w.server.queues[c] == [] && w.nodes[c].stream == []
  }

  // Client a holds g, and b holds f.
  lemma EachHoldsOne() returns (w: World)
    ensures Reached(Init(map["f" := [1], "g" := [2]]), w)
    ensures Holds(w, "a", "g", [2]) && Quiet(w, "a") && "b" in w.nodes && w.nodes["b"].client.handles.Keys == {"f"}
    ensures w.server.files == map["f" := [1], "g" := [2]] && "f" in w.server.reg && w.server.reg["f"] == {"b"}
    ensures !w.server.jammed
  {
    var files: map<Path, Bytes> := map["f" := [1], "g" := [2]];
    w := BothJoin(files);
    w := Opens(Init(files), w, "a", "g");
    assert Holds(w, "a", "g", [2]) && Quiet(w, "a");
    w := Opens(Init(files), w, "b", "f");
  }

  /** Renaming over a file that another client caches leaves that client with the old bytes, deaf
      to the file. */
  lemma RenameOverCachedTarget() returns (w: World)
    ensures Reached(Init(map["f" := [1], "g" := [2]]), w) && Stale(w, "a", "g") && Deaf(w, "a", "g")
  {
    var files: map<Path, Bytes> := map["f" := [1], "g" := [2]];
    w := EachHoldsOne();
    Reach(Init(files), w, Rename("b", "f", "g", Answered));
    w := NextRename(w, "b", "f", "g", Answered);
    assert Holds(w, "a", "g", [2]) && Quiet(w, "a");
  }

  // c holds p, has it open, and nothing is on its way to it.
  predicate OpenAndQuiet(w: World, c: Cid, p: Path, bytes: Bytes) {
    && Holds(w, c, p, bytes) && Quiet(w, c)
    && w.nodes[c].client.handles == map[p := FRESH] && w.nodes[c].client.mutexes == {p}
    && w.nodes[c].client.cache.Keys == {p}
  }

  // Clients a and b both open f.
  lemma BothOpen() returns (w: World)
    ensures Reached(Init(map["f" := [1]]), w)
    ensures OpenAndQuiet(w, "a", "f", [1]) && OpenAndQuiet(w, "b", "f", [1])
    ensures w.server.files == map["f" := [1]] && w.server.reg.Keys == {"f"} && w.server.reg["f"] == {"a", "b"}
    ensures !w.server.jammed
  {
    var files: map<Path, Bytes> := map["f" := [1]];
    w := BothJoin(files);
    w := Opens(Init(files), w, "a", "f");
    assert OpenAndQuiet(w, "a", "f", [1]) && w.server.reg["f"] == {"a"};
    w := Opens(Init(files), w, "b", "f");
    assert OpenAndQuiet(w, "a", "f", [1]);
    assert w.server.reg["f"] == {"a"} + {"b"};
  }

  // Clients a and b both open f; b changes it and closes. A note for a is queued.
  lemma ChangedBehindA() returns (w: World)
    ensures Reached(Init(map["f" := [1]]), w)
    ensures Holds(w, "a", "f", [1]) && w.nodes["a"].stream == []
    ensures w.nodes["a"].client.handles == map["f" := FRESH] && w.nodes["a"].client.mutexes == {"f"}
    ensures w.nodes["a"].client.cache.Keys == {"f"}
    ensures w.server.files == map["f" := [2]] && w.server.reg.Keys == {"f"} && "a" in w.server.reg["f"]
    ensures !w.server.jammed
    ensures "a" in w.server.queues && w.server.queues["a"] == [Note(Update, "f")]
  {
    var files: map<Path, Bytes> := map["f" := [1]];
    w := BothOpen();
    w := Writes(Init(files), w, "b", "f", 2);
    assert OpenAndQuiet(w, "a", "f", [1]);
    w := Flushes(Init(files), w, "b", "f");
    assert w.server.queues["a"] == [] + [Note(Update, "f")];
  }

  /** A note dropped because its file is open leaves the client with the old bytes after it closes
      the file, and with nothing pending. */
  lemma DroppedNoteLeavesStaleFile() returns (w: World)
    ensures Reached(Init(map["f" := [1]]), w)
    ensures Stale(w, "a", "f") && "f" !in w.nodes["a"].client.handles
  {
    w := ChangedBehindA();
    w := NoteArrives(Init(map["f" := [1]]), w, "a", Note(Update, "f"));
    assert Holds(w, "a", "f", [1]) && Quiet(w, "a");
    Reach(Init(map["f" := [1]]), w, Close("a", "f", UP));
    var before := w;
    w := NextClose(w, "a", "f", UP);
    Closes(before, "a", "f");
  }

  lemma Closes(w: World, c: Cid, p: Path)
    requires c in w.nodes && p in w.nodes[c].client.cache && !w.nodes[c].client.cache[p]
    ensures var w' := NextClose(w, c, p, UP);
            && w'.server == w.server && c in w'.nodes && w'.nodes[c].stream == w.nodes[c].stream
            && w'.nodes[c].client.cache == w.nodes[c].client.cache && w'.nodes[c].client.disk == w.nodes[c].client.disk
            && (p in w.nodes[c].client.mutexes ==> p !in w'.nodes[c].client.handles)
  {
  }

  /** A client that renames a file while a note about it is on the way moves its old bytes out of
      the note's reach. */
  lemma RenameUnderPendingNote() returns (w: World)
    ensures Reached(Init(map["f" := [1]]), w) && Stale(w, "a", "g")
  {
    var files: map<Path, Bytes> := map["f" := [1]];
    w := ChangedBehindA();
    Reach(Init(files), w, Rename("a", "f", "g", Answered));
    w := NextRename(w, "a", "f", "g", Answered);
    assert Holds(w, "a", "g", [1]) && w.server.files["g"] == [2];
    assert w.server.queues["a"] == [Note(Update, "f")] && w.nodes["a"].stream == [];
    w := NoteArrives(Init(files), w, "a", Note(Update, "f"));
    assert Holds(w, "a", "g", [1]);
  }

  // Client a opens f; b creates an f of its own and uploads it.
  lemma UploadedOverA() returns (w: World)
    ensures Reached(Init(map["f" := [1]]), w)
    ensures Holds(w, "b", "f", []) && Quiet(w, "b") && "f" in w.server.reg && w.server.reg["f"] == {"a"}
    ensures !w.server.jammed
    ensures "a" in w.nodes && Usable(w.nodes["a"].client, "f") && "a" in w.server.queues
    ensures w.nodes["a"].client.handles["f"] == FRESH
    ensures "f" in w.nodes["a"].client.disk && w.nodes["a"].client.disk["f"] == [1]
  {
    var files: map<Path, Bytes> := map["f" := [1]];
    w := BothJoin(files);
    w := Opens(Init(files), w, "a", "f");
    assert OpenAndQuiet(w, "a", "f", [1]) && w.server.reg["f"] == {"a"};
    Reach(Init(files), w, Create("b", "f"));
    w := Next(w, Create("b", "f"));
    assert OpenAndQuiet(w, "a", "f", [1]) && Quiet(w, "b");
    w := Flushes(Init(files), w, "b", "f");
  }

  /** A client that uploads a file others already hold is not registered for it: after the next
      change by one of them it keeps the old bytes, deaf to the file. */
  lemma CloserLeftUnregistered() returns (w: World)
    ensures Reached(Init(map["f" := [1]]), w) && Stale(w, "b", "f") && Deaf(w, "b", "f")
  {
    var files: map<Path, Bytes> := map["f" := [1]];
    w := UploadedOverA();
    w := Writes(Init(files), w, "a", "f", 2);
    assert Holds(w, "b", "f", []) && Quiet(w, "b");
    w := Flushes(Init(files), w, "a", "f");
    assert Holds(w, "b", "f", []) && Quiet(w, "b");
  }

  // An upload that is cut when one message has arrived, which may be all there is.
  const CUT: seq<UpNet> := [UpNet(1, false), UpNet(0, false), UpNet(0, false)]

  lemma OneMessageArrives(s: Server, c: Cid, p: Path, b: Byte)
    ensures var s' := UploadRpcs(s, c, p, [b], CUT).0;
            && p in s'.files && s'.files[p] == [b] && s'.queues.Keys == s.queues.Keys
  {
    var bytes: Bytes := [b];
    var messages := UploadMessages(bytes);
    assert bytes[..1] == bytes && bytes[1..] == [];
    assert Chunks(bytes) == [bytes] + Chunks(bytes[1..]);
    assert messages == [bytes] && messages[..1] == [bytes] && messages[..0] == [];
    JoiningChunksGivesTheFile(bytes);
    var s1 := CloseRpc(s, c, p, messages[..1]);
    assert CUT[1..] == [UpNet(0, false), UpNet(0, false)] && CUT[1..][1..] == [UpNet(0, false)];
    assert CloseRpc(s1, c, p, messages[..0]) == s1;
    assert UploadRpcs(s1, c, p, bytes, CUT[1..][1..]) == (s1, false);
    assert UploadRpcs(s1, c, p, bytes, CUT[1..]) == (s1, false);
    assert UploadRpcs(s, c, p, bytes, CUT) == (s1, false);
  }

  /** Why soundness asks for the registration and not only for the bytes: from any state in which a
      live client caches a file unmodified, unregistered and with no note pending, a newcomer can
      leave it with bytes other than the server's and still no note. */
  lemma DeafEntryCanGoStale(w0: World, c: Cid, p: Path, d: Cid) returns (w: World)
    requires Struct(w0) && Deaf(w0, c, p) && d !in w0.nodes && d !in w0.server.queues
    ensures Reached(w0, w) && Stale(w, c, p) && Deaf(w, c, p)
  {
    var n := w0.nodes[c];
    var b: Byte := if p in n.client.disk && n.client.disk[p] == [1] then 2 else 1;
    w := NewcomerWrites(w0, c, p, d, b);
    Reach(w0, w, Close(d, p, CUT));
    CutCloseIsSilent(w, c, p, d, b);
    w := NextClose(w, d, p, CUT);
  }

  lemma CutCloseIsSilent(w: World, c: Cid, p: Path, d: Cid, b: Byte)
    requires Deaf(w, c, p) && c != d && d in w.nodes
    requires Uploads(w.nodes[d].client, p) && w.nodes[d].client.disk[p] == [b]
    ensures var w' := NextClose(w, d, p, CUT);
            Deaf(w', c, p) && w'.nodes[c] == w.nodes[c] && p in w'.server.files && w'.server.files[p] == [b]
  {
    UnheardUpload(w.server, d, p, [b], CUT, c, p);
    OneMessageArrives(w.server, d, p, b);
    var w' := NextClose(w, d, p, CUT);
    assert w'.server == UploadRpcs(w.server, d, p, [b], CUT).0;
  }

  // Client d joins, and creates p with one byte in it.
  lemma NewcomerWrites(w0: World, c: Cid, p: Path, d: Cid, b: Byte) returns (w: World)
    requires Struct(w0) && Deaf(w0, c, p) && d !in w0.nodes && d !in w0.server.queues
    ensures Reached(w0, w) && Deaf(w, c, p) && c != d && w.nodes[c] == w0.nodes[c] && w.server.jammed == w0.server.jammed
    ensures d in w.nodes && Uploads(w.nodes[d].client, p) && w.nodes[d].client.disk[p] == [b]
  {
    w := w0;
    assert Legal(w, []) && Run(w, []) == w;
    Reach(w0, w, Join(d));
    w := Next(w, Join(d));
    Reach(w0, w, Create(d, p));
    w := Next(w, Create(d, p));
    assert w.nodes[c] == w0.nodes[c] && c != d;
    w := Writes(w0, w, d, p, b);
    assert w.nodes[c] == w0.nodes[c];
  }

  /** The rename of a file nobody is registered for goes through on the server and is announced to
      nobody: a client that caches the target, and is registered for it, keeps the old bytes. The
      server is jammed from then on. */
  lemma UnregisteredRenameIsSilent() returns (w: World)
    ensures Reached(Init(map["f" := [1], "g" := [2]]), w)
    ensures Stale(w, "a", "g") && Registered(w.server, "g", "a") && w.server.jammed
  {
    var files: map<Path, Bytes> := map["f" := [1], "g" := [2]];
    w := BothJoin(files);
    w := Opens(Init(files), w, "a", "g");
    assert Holds(w, "a", "g", [2]) && Quiet(w, "a");
    Reach(Init(files), w, Rename("b", "f", "g", Unanswered));
    w := NextRename(w, "b", "f", "g", Unanswered);
    assert Holds(w, "a", "g", [2]) && w.server.files["g"] == [1];
  }

  // ------------------------------------------------------------------------- local operations

  /** After an open file is renamed its streams have no mutex under the new name: it can no longer
      be read, written or closed, and opening it again changes nothing. */
  lemma RenamedOpenFileIsStranded(cl: Client, p: Path, q: Path, size: nat, off: int, data: Bytes, ok: bool, rs: seq<Reply>)
    requires p in cl.handles && p in cl.cache && p != q && q !in cl.mutexes && |rs| == TRIES
    ensures var cl' := RenameFile(cl, p, q);
            && q in cl'.handles && q in cl'.cache
            && ClientModel.ReadFile(cl', q, size, off) == (cl', NotRead)
            && ClientModel.WriteFile(cl', q, data, off) == (cl', false)
            && ClientModel.CloseFile(cl', q, ok) == (cl', false)
            && ClientModel.OpenFile(cl', q, rs) == (cl', true)
  {
  }

  /** Renaming a file that is not in the local cache onto one that is deletes the target's local
      copy and keeps its cache entry; from then on it cannot be opened. */
  lemma RenameCanEmptyCachedTarget(cl: Client, p: Path, q: Path, rs: seq<Reply>)
    requires p !in cl.cache && p !in cl.disk && p !in cl.handles && p != q && |rs| == TRIES
    requires q in cl.cache && q !in cl.handles
    ensures var cl' := RenameFile(cl, p, q);
            && q in cl'.cache && q !in cl'.disk
            && ClientModel.OpenFile(cl', q, rs) == (cl', false)
  {
  }

  /** An open that fails leaves the size of its last partial download in the attributes. */
  lemma FailedOpenReportsPartialSize(cl: Client, p: Path, rs: seq<Reply>)
    requires |rs| == TRIES && !Succeeds(rs) && p !in cl.cache && p in cl.attr
    ensures var (cl', ok) := ClientModel.OpenFile(cl, p, rs);
            && !ok && p !in cl'.disk
            && p in cl'.attr && cl'.attr[p] == |Concat(rs[TRIES - 1].chunks)|
  {
    DecidingMeaning(rs);
    DownloadMeaning(cl, p, rs);
  }
}
