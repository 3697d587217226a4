/**
 Coherence over every run: what a client holds unmodified is what the server has, or the client
 is going to hear otherwise. Every step is classified exactly: it keeps that for an entry if and
 only if a condition on the state before it holds.
 */
module Coherence {
  import opened Wire
  import opened Keys
  import opened Notifications
  import opened ServerModel
  import opened ClientModel
  import opened System

  // ------------------------------------------------------------------- what holds of one entry

  predicate SameAsServer(s: Server, cl: Client, p: Path) {
    p in cl.disk && p in s.files && cl.disk[p] == s.files[p]
  }

  // Two claims about a cached file: if unmodified, it has the server's bytes; and, modified or
  // not, the server knows of it.
  datatype Claim = Content | Registration

  // Entries a claim says nothing about: modified ones, and those created here and never uploaded.
  predicate Exempt(k: Claim, n: Node, p: Path) {
    p in n.client.cache && match k case Content => n.client.cache[p] case Registration => p in n.unsent
  }

  // A note about p is on its way to c, or c is registered for p and up to date.
  predicate Sound(k: Claim, s: Server, c: Cid, n: Node, p: Path) {
    p in n.client.cache ==>
      || Exempt(k, n, p)
      || Pending(s, c, n, p)
      || (Registered(s, p, c) && (k.Content? ==> SameAsServer(s, n.client, p)))
  }

  // A client is live while it is subscribed.
  predicate At(k: Claim, w: World, c: Cid, p: Path) {
    c in w.server.queues ==> c in w.nodes && Sound(k, w.server, c, w.nodes[c], p)
  }

  ghost predicate Coherent(k: Claim, w: World) {
    forall c, p :: At(k, w, c, p)
  }

  // -------------------------------------------------------------- what holds without exception

  // Open files are cached and on disk, and unflushed changes belong to open files.
  ghost predicate Shape(n: Node) {
    && (forall p :: p in n.client.handles ==> p in n.client.cache && p in n.client.disk)
    && (forall p :: p in n.client.cache && n.client.cache[p] ==> p in n.client.handles)
    && (forall p :: p in n.unsent ==> p in n.client.cache && n.client.cache[p])
  }

  ghost predicate Struct(w: World) {
    && NoEmptyEntry(w.server)
    && (forall c :: c in w.server.queues ==> c in w.nodes)
    && (forall c :: c in w.nodes ==> Shape(w.nodes[c]))
  }

  // --------------------------------------------------------------- the steps that keep an entry

  predicate Finishes(up: seq<UpNet>) {
    exists i :: 0 <= i < |up| && up[i].finished
  }

  // The note for p just read is dropped, as p is open: another one follows, or none was needed.
  predicate DropSafe(k: Claim, s: Server, c: Cid, n: Node, p: Path)
    requires n.stream != []
  {
    || Exempt(k, n, p)
    || (c in s.queues && Mentions(s.queues[c], p)) || Mentions(n.stream[1..], p)
    || (Registered(s, p, c) && (k.Content? ==> SameAsServer(s, n.client, p)))
  }

  // c is registered for reg, and has under the name from what files has for src.
  predicate Matched(k: Claim, s: Server, c: Cid, reg: Path, cl: Client, from: Path, files: map<Path, Bytes>, src: Path) {
    Registered(s, reg, c) && (k.Content? ==> from in cl.disk && src in files && cl.disk[from] == files[src])
  }

  // The server renames the file.
  predicate Done(s: Server, p: Path, call: Call) {
    !call.Lost? && p in s.files
  }

  // It gets to say so, and to move the registrants.
  predicate Announced(s: Server, p: Path, call: Call) {
    Done(s, p, call) && !s.jammed && p in s.reg
  }

  // The renamer's entry for q afterwards is its entry for p, or the one it had.
  predicate MoverSafe(k: Claim, s: Server, c: Cid, n: Node, p: Path, q: Path, call: Call) {
    p in n.client.cache || q in n.client.cache ==>
      || Exempt(k, n, p)
      || Pending(s, c, n, q)
      || Matched(k, s, c, if Announced(s, p, call) then p else q,
                 n.client, p, s.files, if Done(s, p, call) then p else q)
  }

  // Another client that has an entry for q.
  predicate BystanderSafe(k: Claim, s: Server, c: Cid, n: Node, p: Path, q: Path, call: Call) {
    Done(s, p, call) && q in n.client.cache ==>
      || Exempt(k, n, q)
      || Pending(s, c, n, q)
      || Matched(k, s, c, if Announced(s, p, call) then p else q, n.client, q, s.files, p)
  }

  // Without a word from the server the files become as given.
  predicate SilentSafe(k: Claim, s: Server, c: Cid, n: Node, r: Path, files: map<Path, Bytes>) {
    r in n.client.cache ==>
      Exempt(k, n, r) || Pending(s, c, n, r) || Matched(k, s, c, r, n.client, r, files, r)
  }

  /** When a step keeps the entry of client c for file r. Three kinds of step can do harm: reading a
      note for an open file; an upload by a client that is not registered while others are; and a
      rename onto r. The rename of a file nobody is registered for, and every change once such a
      rename has jammed the server, happens without a word to anybody. */
  predicate SafeAt(k: Claim, w: World, st: Step, c: Cid, r: Path)
    requires Enabled(w, st)
  {
    c in w.server.queues && c in w.nodes ==>
      var s, n := w.server, w.nodes[c];
      match st
      case Deliver(d) => d == c && r == n.stream[0].path && r in n.client.handles ==> DropSafe(k, s, c, n, r)
      case Close(d, p, up) =>
        if d == c then
          r == p && Uploads(n.client, p) && Finishes(up) ==>
            Registered(s, p, c) || p !in s.reg || Pending(s, c, n, p)
        else
          s.jammed && r == p && Uploads(w.nodes[d].client, p) ==>
            SilentSafe(k, s, c, n, p, UploadRpcs(s, d, p, w.nodes[d].client.disk[p], up).0.files)
      case Delete(d, p, call) =>
        d != c && s.jammed && r == p && !call.Lost? ==> SilentSafe(k, s, c, n, p, s.files - {p})
      case Rename(d, p, q, call) =>
        p != q ==>
          && (r == q ==>
                if d == c then MoverSafe(k, s, c, n, p, q, call) else BystanderSafe(k, s, c, n, p, q, call))
          && (r == p && d != c && Done(s, p, call) && !Announced(s, p, call) ==>
                SilentSafe(k, s, c, n, p, s.files - {p}))
      case _ => true
  }

  ghost predicate Safe(k: Claim, w: World, st: Step)
    requires Enabled(w, st)
  {
    forall c, p :: SafeAt(k, w, st, c, p)
  }

  // ------------------------------------------------------------- what other clients live with

  // From s to s', d either hears about p or keeps both its registration and the bytes.
  ghost predicate KeepsAt(s: Server, s': Server, d: Cid, p: Path) {
    && d in s.queues && d in s'.queues
    && (Mentions(s.queues[d], p) ==> Mentions(s'.queues[d], p))
    && (Registered(s, p, d) ==>
          Mentions(s'.queues[d], p)
          || (&& Registered(s', p, d) && (p in s.files <==> p in s'.files)
              && (p in s.files ==> s.files[p] == s'.files[p])))
  }

  lemma KeptAt(k: Claim, w: World, w': World, d: Cid, p: Path)
    requires d in w.nodes && d in w'.nodes && w'.nodes[d] == w.nodes[d]
    requires At(k, w, d, p) && (d in w'.server.queues ==> KeepsAt(w.server, w'.server, d, p))
    ensures At(k, w', d, p)
  {
  }

  lemma AppendMentions(notes: seq<Note>, n: Note, p: Path)
    ensures Mentions(notes + [n], p) <==> Mentions(notes, p) || n.path == p
  {
    if Mentions(notes, p) {
      var i :| 0 <= i < |notes| && notes[i].path == p;
      assert (notes + [n])[i].path == p;
    }
    if n.path == p { assert (notes + [n])[|notes|].path == p; }
  }

  lemma CloseRpcKeeps(s: Server, c: Cid, p: Path, messages: seq<Bytes>, d: Cid, r: Path)
    requires d != c && d in s.queues && (!s.jammed || r != p)
    ensures KeepsAt(s, CloseRpc(s, c, p, messages), d, r)
  {
    AppendMentions(s.queues[d], Note(Update, p), r);
  }

  lemma UnlinkRpcKeeps(s: Server, c: Cid, p: Path, d: Cid, r: Path)
    requires d != c && d in s.queues && (!s.jammed || r != p)
    ensures KeepsAt(s, UnlinkRpc(s, c, p), d, r)
  {
    AppendMentions(s.queues[d], Note(Deleted, p), r);
  }

  // A rename leaves the registrants of a replaced target in the dark.
  lemma RenameRpcKeeps(s: Server, c: Cid, p: Path, q: Path, d: Cid, r: Path)
    requires d != c && d in s.queues
    requires p == q || p !in s.files || (r != q && (r != p || RenameReturns(s, p)))
    ensures KeepsAt(s, RenameRpc(s, c, p, q), d, r)
  {
    AppendMentions(s.queues[d], Note(Renamed(q), p), r);
  }

  // A download that succeeds brings the server's bytes.
  lemma DownloadedBytes(files: map<Path, Bytes>, cl: Client, p: Path, down: seq<DownNet>)
    requires down != [] && Succeeds(Replies(files, p, down))
    ensures p in files && exists i :: 0 <= i < |down| && down[i].reached
    ensures Download(cl, p, Replies(files, p, down)).disk == cl.disk[p := files[p]]
  {
    var rs := Replies(files, p, down);
    DecidingMeaning(rs);
    DownloadMeaning(cl, p, rs);
    assert down[Deciding(rs)].reached;
    JoiningChunksGivesTheFile(files[p]);
  }

  lemma RegisterKeeps(s: Server, c: Cid, p: Path, d: Cid, r: Path)
    requires d in s.queues
    ensures KeepsAt(s, Register(s, c, p), d, r)
  {
  }

  // What a whole upload does, attempt after attempt.
  lemma {:induction false} UploadEffect(s: Server, c: Cid, p: Path, bytes: Bytes, up: seq<UpNet>)
    requires NoEmptyEntry(s)
    ensures var (s', ok) := UploadRpcs(s, c, p, bytes, up);
            && NoEmptyEntry(s') && s'.queues.Keys == s.queues.Keys && s'.jammed == s.jammed
            && (s.jammed ==> s'.reg == s.reg && s'.queues == s.queues)
            && (c in s.queues ==> s'.queues[c] == s.queues[c])
            && (forall r :: Registered(s, r, c) ==> Registered(s', r, c))
            && (forall r :: r != p ==> (r in s.files <==> r in s'.files) && (r in s.files ==> s'.files[r] == s.files[r]))
            && (ok ==> p in s'.files && s'.files[p] == bytes)
    decreases |up|
  {
    if up != [] {
      var messages := UploadMessages(bytes);
      JoiningChunksGivesTheFile(bytes);
      var sent := if up[0].finished then messages else messages[..Min(up[0].delivered, |messages|)];
      if !up[0].finished { UploadEffect(CloseRpc(s, c, p, sent), c, p, bytes, up[1..]); }
    }
  }

  /** And everyone else is kept informed. */
  lemma {:induction false} UploadKeeps(s: Server, c: Cid, p: Path, bytes: Bytes, up: seq<UpNet>, d: Cid, r: Path)
    requires NoEmptyEntry(s) && d in s.queues && d != c && (!s.jammed || r != p)
    ensures KeepsAt(s, UploadRpcs(s, c, p, bytes, up).0, d, r)
    decreases |up|
  {
    if up != [] {
      var messages := UploadMessages(bytes);
      var sent := if up[0].finished then messages else messages[..Min(up[0].delivered, |messages|)];
      CloseRpcKeeps(s, c, p, sent, d, r);
      if !up[0].finished {
        UploadKeeps(CloseRpc(s, c, p, sent), c, p, bytes, up[1..], d, r);
      }
    }
  }

  lemma {:induction false} UploadRegisters(s: Server, c: Cid, p: Path, bytes: Bytes, up: seq<UpNet>)
    requires !s.jammed
    ensures UploadRpcs(s, c, p, bytes, up).1 <==> Finishes(up)
    ensures UploadRpcs(s, c, p, bytes, up).1 ==>
              (Registered(UploadRpcs(s, c, p, bytes, up).0, p, c) <==> Registered(s, p, c) || p !in s.reg)
    decreases |up|
  {
    if up != [] {
      JoiningChunksGivesTheFile(bytes);
      if up[0].finished {
      } else {
        var messages := UploadMessages(bytes);
        var s1 := CloseRpc(s, c, p, messages[..Min(up[0].delivered, |messages|)]);
        UploadRegisters(s1, c, p, bytes, up[1..]);
        if i :| 0 <= i < |up| && up[i].finished { assert up[1..][i - 1].finished; }
        if i :| 0 <= i < |up[1..]| && up[1..][i].finished { assert up[i + 1].finished; }
      }
    }
  }

  lemma ForwardKeepsPending(notes: seq<Note>, stream: seq<Note>, r: Path)
    requires notes != []
    ensures Mentions(notes[1..], r) || Mentions(stream + [notes[0]], r) <==> Mentions(notes, r) || Mentions(stream, r)
  {
    AppendMentions(stream, notes[0], r);
    if Mentions(notes, r) && notes[0].path != r {
      var i :| 0 <= i < |notes| && notes[i].path == r;
      assert notes[1..][i - 1].path == r;
    }
    if i :| 0 <= i < |notes[1..]| && notes[1..][i].path == r { assert notes[i + 1].path == r; }
  }

  // ------------------------------------------------------------------- steps and the structure

  lemma ClientStep(w: World, w': World, c: Cid)
    requires Struct(w) && c in w.nodes && c in w'.nodes && w'.nodes == w.nodes[c := w'.nodes[c]]
    requires Shape(w'.nodes[c]) && NoEmptyEntry(w'.server) && w'.server.queues.Keys <= w.server.queues.Keys
    ensures Struct(w')
  {
  }

  lemma OpenKeepsShape(n: Node, p: Path, rs: seq<Reply>, unsent: set<Path>, synced: map<Path, Bytes>)
    requires Shape(n) && |rs| == TRIES && unsent == if p in n.client.cache then n.unsent else n.unsent - {p}
    ensures Shape(Node(OpenFile(n.client, p, rs).0, n.stream, unsent, synced))
  {
    DownloadMeaning(n.client, p, rs);
  }

  lemma CloseKeepsShape(n: Node, n': Node, p: Path, ok: bool)
    requires Shape(n) && n'.client == CloseFile(n.client, p, ok).0
    requires n'.unsent == if Uploads(n.client, p) && ok then n.unsent - {p} else n.unsent
    ensures Shape(n')
  {
  }

  lemma RenameKeepsShape(n: Node, n': Node, p: Path, q: Path)
    requires Shape(n) && q !in n.client.handles
    requires n'.client == RenameFile(n.client, p, q)
    requires n'.unsent == if p in n.unsent && p != q then n.unsent - {p} + {q}
                         else if p in n.client.cache then n.unsent - {p, q} else n.unsent
    ensures Shape(n')
  {
  }

  lemma EditKeepsShape(w: World, st: Step)
    requires Struct(w) && Enabled(w, st)
    requires st.Read? || st.Write? || st.Create? || st.GetAttr?
    ensures Shape(Next(w, st).nodes[st.c])
  {
    var n := w.nodes[st.c];
    assert Shape(n);
    match st
    case Write(c, p, data, pos) => WriteKeepsShape(n, p, data, pos);
    case Create(c, p) => assert p in n.unsent ==> p in n.client.cache;
    case _ =>
  }

  lemma WriteKeepsShape(n: Node, p: Path, data: Bytes, pos: int)
    requires Shape(n)
    ensures Shape(n.(client := WriteFile(n.client, p, data, pos).0))
  {
  }

  lemma DeleteKeepsShape(n: Node, n': Node, p: Path, ok: bool)
    requires Shape(n) && n'.client == DeleteFile(n.client, p, ok).0 && n'.unsent == n.unsent - {p}
    ensures Shape(n')
  {
  }

  lemma DeliverKeepsShape(n: Node, n': Node, p: Path)
    requires Shape(n) && n'.client == Invalidate(n.client, p) && n'.unsent == n.unsent
    ensures Shape(n')
  {
  }

  lemma OpenKeepsStruct(w: World, c: Cid, p: Path, down: seq<DownNet>)
    requires Struct(w) && Enabled(w, Open(c, p, down))
    ensures Struct(NextOpen(w, c, p, down))
  {
    var n, w' := w.nodes[c], NextOpen(w, c, p, down);
    OpenKeepsShape(n, p, Replies(w.server.files, p, down), w'.nodes[c].unsent, w'.nodes[c].synced);
    ClientStep(w, w', c);
  }

  lemma CloseKeepsStruct(w: World, c: Cid, p: Path, up: seq<UpNet>)
    requires Struct(w) && Enabled(w, Close(c, p, up))
    ensures Struct(NextClose(w, c, p, up))
  {
    var n, w' := w.nodes[c], NextClose(w, c, p, up);
    var ok := false;
    if Uploads(n.client, p) {
      UploadEffect(w.server, c, p, n.client.disk[p], up);
      ok := UploadRpcs(w.server, c, p, n.client.disk[p], up).1;
    }
    CloseKeepsShape(n, w'.nodes[c], p, ok);
    ClientStep(w, w', c);
  }

  lemma JoinKeepsStruct(w: World, c: Cid)
    requires Struct(w) && Enabled(w, Join(c))
    ensures Struct(Next(w, Join(c)))
  {
  }

  lemma RenameKeepsStruct(w: World, c: Cid, p: Path, q: Path, call: Call)
    requires Struct(w) && Enabled(w, Rename(c, p, q, call))
    ensures Struct(NextRename(w, c, p, q, call))
  {
    var w' := NextRename(w, c, p, q, call);
    RenameKeepsShape(w.nodes[c], w'.nodes[c], p, q);
    ClientStep(w, w', c);
  }

  lemma DeleteKeepsStruct(w: World, c: Cid, p: Path, call: Call)
    requires Struct(w) && Enabled(w, Delete(c, p, call))
    ensures Struct(NextDelete(w, c, p, call))
  {
    var w' := NextDelete(w, c, p, call);
    DeleteKeepsShape(w.nodes[c], w'.nodes[c], p, call.Answered? && p in w.server.files);
    ClientStep(w, w', c);
  }

  /** Every step keeps the registry free of empty entries and the clients' maps consistent. */
  lemma StepKeepsStruct(w: World, st: Step)
    requires Struct(w) && Enabled(w, st)
    ensures Struct(Next(w, st))
  {
    match st
    case Join(c) => JoinKeepsStruct(w, c);
    case Open(c, p, down) => OpenKeepsStruct(w, c, p, down);
    case Close(c, p, up) => CloseKeepsStruct(w, c, p, up);
    case Rename(c, p, q, call) => RenameKeepsStruct(w, c, p, q, call);
    case Forward(c) => ClientStep(w, Next(w, st), c);
    case Disconnect(c) =>
      CleanupRemovesOneClient(w.server, c);
      ClientStep(w, Next(w, st), c);
    case Delete(c, p, call) => DeleteKeepsStruct(w, c, p, call);
    case Deliver(c) =>
      DeliverKeepsShape(w.nodes[c], Next(w, st).nodes[c], w.nodes[c].stream[0].path);
      ClientStep(w, Next(w, st), c);
    case _ =>
      EditKeepsShape(w, st);
      ClientStep(w, Next(w, st), st.c);
  }

  // Nobody but the newcomer of a Join becomes live.
  lemma OthersDoNotJoin(w: World, st: Step, d: Cid)
    requires Struct(w) && Enabled(w, st) && (d != st.c || !st.Join?) && d in Next(w, st).server.queues
    ensures d in w.server.queues
  {
    match st
    case Close(c, p, up) =>
      if Uploads(w.nodes[c].client, p) { UploadEffect(w.server, c, p, w.nodes[c].client.disk[p], up); }
    case _ =>
  }

  // -------------------------------------------------------------------- the steps of others

  // The target's holders when the server renames another file onto it.
  lemma ReplacedBehind(k: Claim, s: Server, c: Cid, p: Path, q: Path, call: Call, d: Cid, n: Node)
    requires d != c && d in s.queues && p != q && Done(s, p, call)
    ensures Sound(k, RenameRpc(s, c, p, q), d, n, q) <==> BystanderSafe(k, s, d, n, p, q, call)
  {
    var s' := RenameRpc(s, c, p, q);
    AppendMentions(s.queues[d], Note(Renamed(q), p), q);
    assert s'.files[q] == s.files[p];
    assert Registered(s', q, d) <==> Registered(s, if Announced(s, p, call) then p else q, d);
    assert Mentions(s'.queues[d], q) <==> Mentions(s.queues[d], q);
  }

  // The source's holders when nobody is told.
  lemma MovedSilently(k: Claim, s: Server, c: Cid, p: Path, q: Path, d: Cid, n: Node)
    requires d != c && d in s.queues && p != q && p in s.files && !RenameReturns(s, p)
    ensures Sound(k, RenameRpc(s, c, p, q), d, n, p) <==> SilentSafe(k, s, d, n, p, s.files - {p})
  {
    var s' := RenameRpc(s, c, p, q);
    assert s'.queues == s.queues && s'.reg == s.reg && s'.files == (s.files - {p})[q := s.files[p]];
  }

  lemma BystanderOfRename(k: Claim, w: World, c: Cid, p: Path, q: Path, call: Call, d: Cid, r: Path)
    requires Struct(w) && Enabled(w, Rename(c, p, q, call)) && d in w.nodes && d != c && d in w.server.queues
    requires At(k, w, d, r)
    ensures At(k, Next(w, Rename(c, p, q, call)), d, r) <==> SafeAt(k, w, Rename(c, p, q, call), d, r)
  {
    var w' := NextRename(w, c, p, q, call);
    var s, s' := w.server, w'.server;
    if call.Lost? {
    } else if p == q || p !in s.files || (r != q && (r != p || RenameReturns(s, p))) {
      RenameRpcKeeps(s, c, p, q, d, r);
      KeptAt(k, w, w', d, r);
    } else if r == q {
      ReplacedBehind(k, s, c, p, q, call, d, w.nodes[d]);
    } else {
      MovedSilently(k, s, c, p, q, d, w.nodes[d]);
    }
  }

  // A jammed server still writes and removes files.
  lemma BystanderOfSilentClose(k: Claim, w: World, c: Cid, p: Path, up: seq<UpNet>, d: Cid)
    requires Struct(w) && Enabled(w, Close(c, p, up)) && d in w.nodes && d != c && d in w.server.queues
    requires w.server.jammed && At(k, w, d, p)
    ensures At(k, NextClose(w, c, p, up), d, p) <==> SafeAt(k, w, Close(c, p, up), d, p)
  {
    var s, s' := w.server, NextClose(w, c, p, up).server;
    if Uploads(w.nodes[c].client, p) { UploadEffect(s, c, p, w.nodes[c].client.disk[p], up); }
    assert s'.queues == s.queues && s'.reg == s.reg;
  }

  lemma BystanderOfSilentDelete(k: Claim, w: World, c: Cid, p: Path, call: Call, d: Cid)
    requires Struct(w) && Enabled(w, Delete(c, p, call)) && d in w.nodes && d != c && d in w.server.queues
    requires w.server.jammed && At(k, w, d, p)
    ensures At(k, NextDelete(w, c, p, call), d, p) <==> SafeAt(k, w, Delete(c, p, call), d, p)
  {
  }

  lemma OthersKeep(w: World, st: Step, d: Cid, r: Path)
    requires Struct(w) && Enabled(w, st) && d in w.server.queues && d != st.c && !st.Rename?
    requires w.server.jammed && (st.Close? || st.Delete?) ==> r != st.p
    ensures KeepsAt(w.server, Next(w, st).server, d, r)
  {
    match st
    case Open(c, p, down) => RegisterKeeps(w.server, c, p, d, r);
    case Close(c, p, up) =>
      if Uploads(w.nodes[c].client, p) { UploadKeeps(w.server, c, p, w.nodes[c].client.disk[p], up, d, r); }
    case Delete(c, p, call) => UnlinkRpcKeeps(w.server, c, p, d, r);
    case Disconnect(c) =>
      CleanupRemovesOneClient(w.server, c);
      assert Registered(Next(w, st).server, r, d) <==> Registered(w.server, r, d);
    case _ =>
  }

  lemma StepOfAnother(k: Claim, w: World, st: Step, d: Cid, r: Path)
    requires Struct(w) && Enabled(w, st) && d in w.nodes && d != st.c && At(k, w, d, r)
    ensures At(k, Next(w, st), d, r) <==> SafeAt(k, w, st, d, r)
  {
    var w' := Next(w, st);
    if d !in w.server.queues {
      if d in w'.server.queues { OthersDoNotJoin(w, st, d); }
      return;
    }
    if st.Rename? {
      BystanderOfRename(k, w, st.c, st.p, st.q, st.call, d, r);
    } else if w.server.jammed && st.Close? && r == st.p {
      BystanderOfSilentClose(k, w, st.c, r, st.up, d);
    } else if w.server.jammed && st.Delete? && r == st.p {
      BystanderOfSilentDelete(k, w, st.c, r, st.call, d);
    } else {
      OthersKeep(w, st, d, r);
      KeptAt(k, w, w', d, r);
      assert SafeAt(k, w, st, d, r);
    }
  }

  // --------------------------------------------------------------------------- one's own steps

  lemma OwnOpen(k: Claim, w: World, c: Cid, p: Path, down: seq<DownNet>, r: Path)
    requires Struct(w) && Enabled(w, Open(c, p, down)) && At(k, w, c, r)
    ensures At(k, NextOpen(w, c, p, down), c, r)
  {
    var n, w' := w.nodes[c], NextOpen(w, c, p, down);
    if p in n.client.cache {
      if c in w.server.queues { EntriesStay(k, w.server, w'.server, c, n, w'.nodes[c], r); }
    } else {
      OwnOpenMiss(k, w, c, p, down, r);
    }
  }

  lemma OwnOpenMiss(k: Claim, w: World, c: Cid, p: Path, down: seq<DownNet>, r: Path)
    requires Enabled(w, Open(c, p, down)) && At(k, w, c, r) && p !in w.nodes[c].client.cache
    ensures At(k, NextOpen(w, c, p, down), c, r)
  {
    var n, w' := w.nodes[c], NextOpen(w, c, p, down);
    var rs := Replies(w.server.files, p, down);
    DownloadMeaning(n.client, p, rs);
    if r != p {
      if c in w'.server.queues { EntriesStay(k, w.server, w'.server, c, n, w'.nodes[c], r); }
    } else if Succeeds(rs) {
      DownloadedBytes(w.server.files, n.client, p, down);
    }
  }

  // The client's node, when its entries either stay as they are or vanish.
  lemma EntriesStay(k: Claim, s: Server, s': Server, c: Cid, n: Node, n': Node, r: Path)
    requires Sound(k, s, c, n, r) && c in s.queues && c in s'.queues && s'.queues[c] == s.queues[c]
    requires n'.stream == n.stream && (Registered(s, r, c) ==> Registered(s', r, c))
    requires r in n'.client.cache ==>
               && r in n.client.cache && n'.client.cache[r] == n.client.cache[r] && (r in n.unsent ==> r in n'.unsent)
               && (SameAsServer(s, n.client, r) ==> SameAsServer(s', n'.client, r))
    ensures Sound(k, s', c, n', r)
  {
  }

  lemma OwnRead(k: Claim, w: World, st: Step, r: Path)
    requires Enabled(w, st) && At(k, w, st.c, r) && st.c in w.server.queues && (st.Read? || st.GetAttr?)
    ensures At(k, Next(w, st), st.c, r)
  {
    EntriesStay(k, w.server, w.server, st.c, w.nodes[st.c], Next(w, st).nodes[st.c], r);
  }

  lemma OwnDelete(k: Claim, w: World, c: Cid, p: Path, call: Call, r: Path)
    requires Enabled(w, Delete(c, p, call)) && At(k, w, c, r) && c in w.server.queues
    ensures At(k, NextDelete(w, c, p, call), c, r)
  {
    var w' := NextDelete(w, c, p, call);
    if r != p { EntriesStay(k, w.server, w'.server, c, w.nodes[c], w'.nodes[c], r); }
  }

  lemma OwnCreate(k: Claim, w: World, c: Cid, p: Path, r: Path)
    requires Struct(w) && Enabled(w, Create(c, p)) && At(k, w, c, r) && c in w.server.queues
    ensures At(k, Next(w, Create(c, p)), c, r)
  {
    var n, n' := w.nodes[c], Next(w, Create(c, p)).nodes[c];
    if r != p || p in n.client.cache || p in n.client.handles {
      EntriesStay(k, w.server, w.server, c, n, n', r);
    }
  }

  lemma OwnWrite(k: Claim, w: World, c: Cid, p: Path, data: Bytes, pos: int, r: Path)
    requires Struct(w) && Enabled(w, Write(c, p, data, pos)) && At(k, w, c, r)
    ensures At(k, Next(w, Write(c, p, data, pos)), c, r)
  {
    var n, n' := w.nodes[c], Next(w, Write(c, p, data, pos)).nodes[c];
    if c in w.server.queues && r != p { EntriesStay(k, w.server, w.server, c, n, n', r); }
  }

  lemma OwnClose(k: Claim, w: World, c: Cid, p: Path, up: seq<UpNet>, r: Path)
    requires Struct(w) && Enabled(w, Close(c, p, up)) && At(k, w, c, r) && c in w.server.queues
    ensures At(k, NextClose(w, c, p, up), c, r) <==> SafeAt(k, w, Close(c, p, up), c, r)
  {
    var n, w' := w.nodes[c], NextClose(w, c, p, up);
    if !Uploads(n.client, p) {
      EntriesStay(k, w.server, w'.server, c, n, w'.nodes[c], r);
    } else if r != p {
      UploadEffect(w.server, c, p, n.client.disk[p], up);
      EntriesStay(k, w.server, w'.server, c, n, w'.nodes[c], r);
    } else {
      OwnUpload(k, w, c, p, up);
    }
  }

  lemma OwnUpload(k: Claim, w: World, c: Cid, p: Path, up: seq<UpNet>)
    requires Struct(w) && Enabled(w, Close(c, p, up)) && At(k, w, c, p) && c in w.server.queues
    requires Uploads(w.nodes[c].client, p)
    ensures At(k, NextClose(w, c, p, up), c, p) <==> SafeAt(k, w, Close(c, p, up), c, p)
  {
    var bytes := w.nodes[c].client.disk[p];
    UploadEffect(w.server, c, p, bytes, up);
    if w.server.jammed { UploadNeverEnds(w.server, c, p, bytes, up); } else { UploadRegisters(w.server, c, p, bytes, up); }
  }

  lemma {:induction false} UploadNeverEnds(s: Server, c: Cid, p: Path, bytes: Bytes, up: seq<UpNet>)
    requires !Finishes(up)
    ensures !UploadRpcs(s, c, p, bytes, up).1
    decreases |up|
  {
    if up != [] {
      var messages := UploadMessages(bytes);
      forall i | 0 <= i < |up[1..]| ensures !up[1..][i].finished { assert !up[i + 1].finished; }
      UploadNeverEnds(CloseRpc(s, c, p, messages[..Min(up[0].delivered, |messages|)]), c, p, bytes, up[1..]);
    }
  }

  // The entry the renamer moved, or whatever else it has at the new name.
  lemma OwnRenameTarget(k: Claim, w: World, c: Cid, p: Path, q: Path, call: Call)
    requires Struct(w) && Enabled(w, Rename(c, p, q, call)) && c in w.server.queues && p != q
    ensures At(k, NextRename(w, c, p, q, call), c, q) <==> MoverSafe(k, w.server, c, w.nodes[c], p, q, call)
  {
    var n, w' := w.nodes[c], NextRename(w, c, p, q, call);
    var n' := w'.nodes[c];
    assert w'.server.queues[c] == w.server.queues[c] && n'.stream == n.stream;
    assert Pending(w'.server, c, n', q) <==> Pending(w.server, c, n, q);
    assert q in n'.client.cache <==> p in n.client.cache || q in n.client.cache;
    assert Registered(w'.server, q, c) <==> Registered(w.server, if Announced(w.server, p, call) then p else q, c);
  }

  lemma OwnRename(k: Claim, w: World, c: Cid, p: Path, q: Path, call: Call, r: Path)
    requires Struct(w) && Enabled(w, Rename(c, p, q, call)) && At(k, w, c, r) && c in w.server.queues
    ensures At(k, NextRename(w, c, p, q, call), c, r) <==> SafeAt(k, w, Rename(c, p, q, call), c, r)
  {
    var n, w' := w.nodes[c], NextRename(w, c, p, q, call);
    if r == q && p != q {
      OwnRenameTarget(k, w, c, p, q, call);
    } else if r == p {
      assert p !in w'.nodes[c].client.cache;
    } else {
      assert w'.server.queues[c] == w.server.queues[c];
      assert Registered(w'.server, r, c) <==> Registered(w.server, r, c);
      assert SameAsServer(w'.server, w'.nodes[c].client, r) <==> SameAsServer(w.server, n.client, r);
    }
  }

  lemma OwnDelivery(k: Claim, w: World, c: Cid, r: Path)
    requires Struct(w) && Enabled(w, Deliver(c)) && At(k, w, c, r)
    ensures At(k, NextDeliver(w, c), c, r) <==> SafeAt(k, w, Deliver(c), c, r)
  {
    var stream := w.nodes[c].stream;
    if r != stream[0].path && Mentions(stream, r) {
      var i :| 0 <= i < |stream| && stream[i].path == r;
      assert stream[1..][i - 1].path == r;
    }
    if i :| 0 <= i < |stream[1..]| && stream[1..][i].path == r { assert stream[i + 1].path == r; }
  }

  lemma OwnStep(k: Claim, w: World, st: Step, r: Path)
    requires Struct(w) && Enabled(w, st) && At(k, w, st.c, r)
    ensures At(k, Next(w, st), st.c, r) <==> SafeAt(k, w, st, st.c, r)
  {
    var c := st.c;
    if c !in w.server.queues {
      if c in Next(w, st).server.queues && !st.Join? { OthersDoNotJoin(w, st, c); }
      return;
    }
    match st
    case Open(_, p, down) => OwnOpen(k, w, c, p, down, r);
    case Close(_, p, up) => OwnClose(k, w, c, p, up, r);
    case Rename(_, p, q, call) => OwnRename(k, w, c, p, q, call, r);
    case Forward(_) => ForwardKeepsPending(w.server.queues[c], w.nodes[c].stream, r);
    case Deliver(_) => OwnDelivery(k, w, c, r);
    case Write(_, p, data, pos) => OwnWrite(k, w, c, p, data, pos, r);
    case Join(_) =>
    case Disconnect(_) =>
    case Create(_, p) => OwnCreate(k, w, c, p, r);
    case Delete(_, p, call) => OwnDelete(k, w, c, p, call, r);
    case _ => OwnRead(k, w, st, r);
  }

  // ------------------------------------------------------------------------------ the theorems

  /** The exact effect of one step on one entry: an entry that was sound stays so if and only if
      the step is safe for it. This holds of every step, client and file, whatever the state of
      all other entries. */
  lemma EntryKeptExactlyWhen(k: Claim, w: World, st: Step, c: Cid, p: Path)
    requires Struct(w) && Enabled(w, st) && At(k, w, c, p)
    ensures At(k, Next(w, st), c, p) <==> SafeAt(k, w, st, c, p)
  {
    if c == st.c {
      OwnStep(k, w, st, p);
    } else if c in w.nodes {
      StepOfAnother(k, w, st, c, p);
    } else if c in Next(w, st).server.queues {
      OthersDoNotJoin(w, st, c);
    }
  }

  /** A step from a coherent state leads to a coherent state if and only if it is safe. */
  lemma CoherenceKeptExactlyWhen(k: Claim, w: World, st: Step)
    requires Struct(w) && Enabled(w, st) && Coherent(k, w)
    ensures Coherent(k, Next(w, st)) <==> Safe(k, w, st)
  {
    forall c, p ensures At(k, Next(w, st), c, p) <==> SafeAt(k, w, st, c, p) {
      EntryKeptExactlyWhen(k, w, st, c, p);
    }
  }

  lemma {:induction false} StructAt(w: World, steps: seq<Step>, i: nat)
    requires Struct(w) && Legal(w, steps) && i <= |steps|
    ensures Struct(StateAt(w, steps, i))
    decreases i
  {
    if i > 0 {
      StepKeepsStruct(w, steps[0]);
      StructAt(Next(w, steps[0]), steps[1..], i - 1);
    }
  }

  // The entry is sound in every state of the run.
  ghost predicate SoundThroughout(k: Claim, w: World, steps: seq<Step>, c: Cid, p: Path)
    requires Legal(w, steps)
  {
    forall i :: 0 <= i <= |steps| ==> At(k, StateAt(w, steps, i), c, p)
  }

  // Every step of the run is safe for the entry.
  ghost predicate SafeThroughout(k: Claim, w: World, steps: seq<Step>, c: Cid, p: Path)
    requires Legal(w, steps)
    decreases |steps|
  {
    steps == [] || (SafeAt(k, w, steps[0], c, p) && SafeThroughout(k, Next(w, steps[0]), steps[1..], c, p))
  }

  lemma {:induction false} EntryThroughRun(k: Claim, w: World, steps: seq<Step>, c: Cid, p: Path)
    requires Struct(w) && Legal(w, steps) && At(k, w, c, p)
    ensures SoundThroughout(k, w, steps, c, p) <==> SafeThroughout(k, w, steps, c, p)
    decreases |steps|
  {
    if steps != [] {
      var w1, rest := Next(w, steps[0]), steps[1..];
      EntryKeptExactlyWhen(k, w, steps[0], c, p);
      StepKeepsStruct(w, steps[0]);
      if At(k, w1, c, p) {
        EntryThroughRun(k, w1, rest, c, p);
        assert forall i :: 0 < i <= |steps| ==> StateAt(w, steps, i) == StateAt(w1, rest, i - 1);
        assert forall i :: 0 <= i <= |rest| ==> StateAt(w1, rest, i) == StateAt(w, steps, i + 1);
      } else {
        assert StateAt(w, steps, 1) == w1;
      }
    }
  }

  lemma InitSound(files: map<Path, Bytes>)
    ensures Struct(Init(files)) && forall k, c, p :: At(k, Init(files), c, p)
  {
  }

  /** Strong consistency, exactly. In every run, for any number of clients and any cuts in the
      network, the entry of a client for a file is sound in all states if and only if all steps
      are safe for it. With k = Content, sound says that an unmodified cached file of a live client
      is the server's byte for byte and registered, or a note is on its way. */
  lemma SoundExactlyWhen(k: Claim, files: map<Path, Bytes>, steps: seq<Step>, c: Cid, p: Path)
    requires Legal(Init(files), steps)
    ensures SoundThroughout(k, Init(files), steps, c, p) <==> SafeThroughout(k, Init(files), steps, c, p)
  {
    InitSound(files);
    EntryThroughRun(k, Init(files), steps, c, p);
  }

  /** Coherence. At the end of a run whose steps are safe for the entry, an unmodified cached file
      of a live client is the server's file byte for byte, or a note about it is on its way. What
      happens to other clients' entries, or to other files, does not matter. */
  lemma CachesAreCoherent(files: map<Path, Bytes>, steps: seq<Step>, c: Cid, p: Path)
    requires Legal(Init(files), steps) && SafeThroughout(Content, Init(files), steps, c, p)
    ensures var w := Run(Init(files), steps);
            c in w.server.queues ==>
              && c in w.nodes
              && (p in w.nodes[c].client.cache && !w.nodes[c].client.cache[p] ==>
                    SameAsServer(w.server, w.nodes[c].client, p) || Pending(w.server, c, w.nodes[c], p))
  {
    SoundExactlyWhen(Content, files, steps, c, p);
    LastStateIsRun(Init(files), steps);
    assert At(Content, StateAt(Init(files), steps, |steps|), c, p);
  }

  /** Registration covers caching. At the end of a run whose steps are safe for the registration of
      the entry, whatever a live client caches, modified or not, the server has it registered for,
      or is telling it about, unless the file was created locally and never uploaded. No entry of
      the registry is ever empty. */
  lemma RegistrationCoversCaching(files: map<Path, Bytes>, steps: seq<Step>, c: Cid, p: Path)
    requires Legal(Init(files), steps)
    ensures var w := Run(Init(files), steps);
            && NoEmptyEntry(w.server)
            && (c in w.server.queues && SafeThroughout(Registration, Init(files), steps, c, p) ==>
                  && c in w.nodes
                  && (p in w.nodes[c].client.cache ==>
                        || Registered(w.server, p, c)
                        || Pending(w.server, c, w.nodes[c], p)
                        || (p in w.nodes[c].unsent && w.nodes[c].client.cache[p])))
  {
    InitSound(files);
    SoundExactlyWhen(Registration, files, steps, c, p);
    LastStateIsRun(Init(files), steps);
    StructAt(Init(files), steps, |steps|);
    assert SafeThroughout(Registration, Init(files), steps, c, p) ==>
             At(Registration, StateAt(Init(files), steps, |steps|), c, p);
    var w := Run(Init(files), steps);
    assert c in w.nodes ==> Shape(w.nodes[c]);
  }

  lemma {:induction false} LastSoundState(k: Claim, w: World, steps: seq<Step>, c: Cid, p: Path, n: nat) returns (i: nat)
    requires Struct(w) && Legal(w, steps) && At(k, w, c, p) && n <= |steps|
    requires forall j :: n <= j <= |steps| ==> !At(k, StateAt(w, steps, j), c, p)
    ensures i < n && At(k, StateAt(w, steps, i), c, p)
    ensures forall j :: i < j <= |steps| ==> !At(k, StateAt(w, steps, j), c, p)
    decreases n
  {
    assert StateAt(w, steps, 0) == w;
    i := n - 1;
    if !At(k, StateAt(w, steps, i), c, p) {
      i := LastSoundState(k, w, steps, c, p, i);
    }
  }

  /** Every run, without hypotheses: an entry that is not sound has its culprit. Some step, from a
      state in which the entry was still sound, was unsafe for it, and it has not been sound
      since. */
  lemma UnsoundEntryHasCulprit(k: Claim, files: map<Path, Bytes>, steps: seq<Step>, c: Cid, p: Path)
    returns (i: nat)
    requires Legal(Init(files), steps) && !At(k, Run(Init(files), steps), c, p)
    ensures i < |steps|
    ensures var w := StateAt(Init(files), steps, i);
            && Enabled(w, steps[i]) && At(k, w, c, p) && !SafeAt(k, w, steps[i], c, p)
            && (steps[i].Deliver? || steps[i].Close? || steps[i].Rename? || (w.server.jammed && steps[i].Delete?))
    ensures forall j :: i < j <= |steps| ==> !At(k, StateAt(Init(files), steps, j), c, p)
  {
    var w := Init(files);
    InitSound(files);
    LastStateIsRun(w, steps);
    i := LastSoundState(k, w, steps, c, p, |steps|);
    StructAt(w, steps, i);
    StatesFollow(w, steps, i);
    EntryKeptExactlyWhen(k, StateAt(w, steps, i), steps[i], c, p);
  }

  /** An invalidation never costs a client its unflushed changes: they belong to open files, and
      notes for open files are dropped. */
  lemma InvalidationKeepsUnflushedWrites(files: map<Path, Bytes>, steps: seq<Step>, c: Cid, p: Path)
    requires Legal(Init(files), steps)
    requires Enabled(Run(Init(files), steps), Deliver(c))
    ensures var w := Run(Init(files), steps);
            var cl, cl' := w.nodes[c].client, Next(w, Deliver(c)).nodes[c].client;
            p in cl.cache && cl.cache[p] ==>
              && p in cl'.cache && cl'.cache[p] && p in cl'.handles
              && p in cl.disk && p in cl'.disk && cl'.disk[p] == cl.disk[p]
  {
    InitSound(files);
    StructAt(Init(files), steps, |steps|);
    LastStateIsRun(Init(files), steps);
    assert Shape(Run(Init(files), steps).nodes[c]);
  }
}
