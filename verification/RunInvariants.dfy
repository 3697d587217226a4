/**
 What each client's own maps keep to over whole runs, besides coherence: four laws, each with the
 exact condition under which a step keeps it.
 */
module RunInvariants {
  import opened Wire
  import opened Keys
  import opened Notifications
  import opened ClientModel
  import opened System
  import opened Coherence

  // ------------------------------------------------------------------------------- the four laws

  predicate Paired(cl: Client) {
    cl.mutexes == cl.handles.Keys
  }

  predicate OnDisk(cl: Client) {
    cl.cache.Keys <= cl.disk.Keys
  }

  // The cached attributes know the size of every cached file.
  predicate SizeKnown(cl: Client, p: Path) {
    p in cl.disk && p in cl.attr && cl.attr[p] == |cl.disk[p]|
  }

  ghost predicate SizesAgree(cl: Client) {
    forall p :: p in cl.cache ==> SizeKnown(cl, p)
  }

  // An unmodified file is what was last transferred.
  predicate Synced(n: Node, p: Path) {
    p in n.client.disk && p in n.synced && n.client.disk[p] == n.synced[p]
  }

  ghost predicate CleanIsSynced(n: Node) {
    forall p :: p in n.client.cache && !n.client.cache[p] ==> Synced(n, p)
  }

  // The open files are those with a mutex; cached files have local copies; their sizes are known;
  // and unmodified ones hold the bytes of their latest transfer.
  datatype Law = MutexesMatch | CachedOnDisk | SizesKnown | CleanSynced

  ghost predicate NodeHolds(l: Law, n: Node) {
    match l
    case MutexesMatch => Paired(n.client)
    case CachedOnDisk => OnDisk(n.client)
    case SizesKnown => SizesAgree(n.client)
    case CleanSynced => CleanIsSynced(n)
  }

  ghost predicate Holds(l: Law, w: World) {
    forall c :: c in w.nodes ==> NodeHolds(l, w.nodes[c])
  }

  // The renamed file is not cached and its target is. The target's local copy goes, and what
  // there is of the renamed file's takes its place.
  predicate Replaces(cl: Client, p: Path, q: Path) {
    p != q && p !in cl.cache && q in cl.cache
  }

  // When a rename keeps the law.
  predicate RenameObeys(l: Law, n: Node, p: Path, q: Path) {
    var cl := n.client;
    match l
    case MutexesMatch => p !in cl.handles
    case CachedOnDisk => Replaces(cl, p, q) ==> p in cl.disk
    case SizesKnown =>
      Replaces(cl, p, q) ==>
        p in cl.disk && (p in cl.attr || q in cl.attr) && |cl.disk[p]| == if p in cl.attr then cl.attr[p] else cl.attr[q]
    case CleanSynced =>
      Replaces(cl, p, q) && !cl.cache[q] ==> p in cl.disk && q in n.synced && cl.disk[p] == n.synced[q]
  }

  // Besides renames only one kind of step can break a law: a download of a file whose attributes
  // have not been fetched. The file system layer fetches them first.
  predicate Obeys(l: Law, w: World, st: Step)
    requires Enabled(w, st)
  {
    match st
    case Open(c, p, down) =>
      l.SizesKnown? ==>
        var cl := w.nodes[c].client;
        p in cl.cache || p in cl.attr || !Succeeds(Replies(w.server.files, p, down))
    case Rename(c, p, q, call) => RenameObeys(l, w.nodes[c], p, q)
    case _ => true
  }

  // ------------------------------------------------------------------- open files and their mutexes

  lemma OpenKeepsPairs(cl: Client, p: Path, rs: seq<Reply>)
    requires Paired(cl) && |rs| == TRIES
    ensures Paired(OpenFile(cl, p, rs).0)
  {
    DownloadMeaning(cl, p, rs);
  }

  lemma CloseKeepsPairs(cl: Client, p: Path, ok: bool)
    requires Paired(cl)
    ensures Paired(CloseFile(cl, p, ok).0)
  {
  }

  lemma DeleteKeepsPairs(cl: Client, p: Path, ok: bool)
    requires Paired(cl)
    ensures Paired(DeleteFile(cl, p, ok).0)
  {
  }

  lemma RenameKeepsPairsExactlyWhen(cl: Client, p: Path, q: Path)
    requires Paired(cl) && q !in cl.handles
    ensures Paired(RenameFile(cl, p, q)) <==> p !in cl.handles
  {
    if p in cl.handles { assert p in cl.mutexes && p !in RenameFile(cl, p, q).handles; }
  }

  lemma EditsKeepPairs(cl: Client, p: Path, size: nat, off: int, data: Bytes, r: AttrReply)
    requires Paired(cl)
    ensures Paired(ReadFile(cl, p, size, off).0)
    ensures Paired(WriteFile(cl, p, data, off).0)
    ensures Paired(CreateFile(cl, p).0)
    ensures Paired(GetAttributes(cl, p, r).0)
    ensures Paired(Invalidate(cl, p))
  {
  }

  lemma MutexesMatchStep(w: World, st: Step)
    requires Enabled(w, st) && !st.Join? && Paired(w.nodes[st.c].client)
    ensures Paired(Next(w, st).nodes[st.c].client) <==> Obeys(MutexesMatch, w, st)
  {
    var cl := w.nodes[st.c].client;
    match st
    case Open(c, p, down) => OpenKeepsPairs(cl, p, Replies(w.server.files, p, down));
    case Close(c, p, up) => CloseKeepsPairs(cl, p, true); CloseKeepsPairs(cl, p, false);
    case Delete(c, p, call) => DeleteKeepsPairs(cl, p, true); DeleteKeepsPairs(cl, p, false);
    case Rename(c, p, q, call) => RenameKeepsPairsExactlyWhen(cl, p, q);
    case Read(c, p, size, off) => EditsKeepPairs(cl, p, size, off, [], NoAttr);
    case Write(c, p, data, pos) => EditsKeepPairs(cl, p, 0, pos, data, NoAttr);
    case Create(c, p) => EditsKeepPairs(cl, p, 0, 0, [], NoAttr);
    case GetAttr(c, p, call) => forall r { EditsKeepPairs(cl, p, 0, 0, [], r); }
    case Deliver(c) => EditsKeepPairs(cl, w.nodes[c].stream[0].path, 0, 0, [], NoAttr);
    case _ =>
  }

  // ----------------------------------------------------------------------------------- local copies

  lemma OpenKeepsCopies(cl: Client, p: Path, rs: seq<Reply>)
    requires OnDisk(cl) && |rs| == TRIES
    ensures OnDisk(OpenFile(cl, p, rs).0)
  {
    DownloadMeaning(cl, p, rs);
  }

  lemma EditsKeepCopies(cl: Client, p: Path, size: nat, off: int, data: Bytes, r: AttrReply, ok: bool)
    requires OnDisk(cl)
    ensures OnDisk(ReadFile(cl, p, size, off).0)
    ensures OnDisk(WriteFile(cl, p, data, off).0)
    ensures OnDisk(CreateFile(cl, p).0)
    ensures OnDisk(CloseFile(cl, p, ok).0)
    ensures OnDisk(DeleteFile(cl, p, ok).0)
    ensures OnDisk(GetAttributes(cl, p, r).0)
    ensures OnDisk(Invalidate(cl, p))
  {
  }

  /** Exactly when a rename leaves every cached file with a local copy. */
  lemma RenameKeepsCopiesExactlyWhen(cl: Client, p: Path, q: Path)
    requires OnDisk(cl)
    ensures OnDisk(RenameFile(cl, p, q)) <==> (Replaces(cl, p, q) ==> p in cl.disk)
  {
    if Replaces(cl, p, q) && p !in cl.disk {
      assert q in RenameFile(cl, p, q).cache && q !in RenameFile(cl, p, q).disk;
    }
  }

  lemma CachedOnDiskStep(w: World, st: Step)
    requires Enabled(w, st) && !st.Join? && OnDisk(w.nodes[st.c].client)
    ensures OnDisk(Next(w, st).nodes[st.c].client) <==> Obeys(CachedOnDisk, w, st)
  {
    var cl := w.nodes[st.c].client;
    match st
    case Open(c, p, down) => OpenKeepsCopies(cl, p, Replies(w.server.files, p, down));
    case Rename(c, p, q, call) => RenameKeepsCopiesExactlyWhen(cl, p, q);
    case Close(c, p, up) => EditsKeepCopies(cl, p, 0, 0, [], NoAttr, true); EditsKeepCopies(cl, p, 0, 0, [], NoAttr, false);
    case Delete(c, p, call) => EditsKeepCopies(cl, p, 0, 0, [], NoAttr, true); EditsKeepCopies(cl, p, 0, 0, [], NoAttr, false);
    case Read(c, p, size, off) => EditsKeepCopies(cl, p, size, off, [], NoAttr, true);
    case Write(c, p, data, pos) => EditsKeepCopies(cl, p, 0, pos, data, NoAttr, true);
    case Create(c, p) => EditsKeepCopies(cl, p, 0, 0, [], NoAttr, true);
    case GetAttr(c, p, call) => forall r { EditsKeepCopies(cl, p, 0, 0, [], r, true); }
    case Deliver(c) => EditsKeepCopies(cl, w.nodes[c].stream[0].path, 0, 0, [], NoAttr, true);
    case _ =>
  }

  // ------------------------------------------------------------------------------------------ sizes

  lemma OpenKeepsSizesExactlyWhen(cl: Client, p: Path, rs: seq<Reply>)
    requires SizesAgree(cl) && |rs| == TRIES
    ensures SizesAgree(OpenFile(cl, p, rs).0) <==> (p in cl.cache || p in cl.attr || !Succeeds(rs))
  {
    DownloadMeaning(cl, p, rs);
    if !(p in cl.cache || p in cl.attr || !Succeeds(rs)) {
      assert p in OpenFile(cl, p, rs).0.cache && p !in OpenFile(cl, p, rs).0.attr;
    }
  }

  lemma RenameKeepsSizesExactlyWhen(n: Node, p: Path, q: Path)
    requires SizesAgree(n.client)
    ensures SizesAgree(RenameFile(n.client, p, q)) <==> RenameObeys(SizesKnown, n, p, q)
  {
    var cl, cl' := n.client, RenameFile(n.client, p, q);
    if Replaces(cl, p, q) {
      assert q in cl'.cache && SizeKnown(cl, q);
      assert SizeKnown(cl', q) <==> RenameObeys(SizesKnown, n, p, q);
    }
    forall r | r in cl'.cache && (r != q || !Replaces(cl, p, q)) ensures SizeKnown(cl', r) {
      assert SizeKnown(cl, if r == q then p else r);
    }
  }

  lemma CloseKeepsSizes(cl: Client, p: Path, ok: bool)
    requires SizesAgree(cl)
    ensures SizesAgree(CloseFile(cl, p, ok).0)
  {
  }

  lemma EditsKeepSizes(cl: Client, p: Path, size: nat, off: int, data: Bytes, r: AttrReply, ok: bool)
    requires SizesAgree(cl)
    ensures SizesAgree(ReadFile(cl, p, size, off).0)
    ensures SizesAgree(WriteFile(cl, p, data, off).0)
    ensures p !in cl.handles ==> SizesAgree(CreateFile(cl, p).0)
    ensures SizesAgree(GetAttributes(cl, p, r).0)
    ensures SizesAgree(DeleteFile(cl, p, ok).0)
    ensures SizesAgree(Invalidate(cl, p))
  {
  }

  lemma SizesKnownStep(w: World, st: Step)
    requires Enabled(w, st) && !st.Join? && SizesAgree(w.nodes[st.c].client)
    ensures SizesAgree(Next(w, st).nodes[st.c].client) <==> Obeys(SizesKnown, w, st)
  {
    var cl := w.nodes[st.c].client;
    match st
    case Open(_, p, down) => OpenKeepsSizesExactlyWhen(cl, p, Replies(w.server.files, p, down));
    case Close(_, p, up) => CloseKeepsSizes(cl, p, true); CloseKeepsSizes(cl, p, false);
    case Rename(c, p, q, call) => RenameKeepsSizesExactlyWhen(w.nodes[c], p, q);
    case Delete(_, p, call) => forall ok { EditsKeepSizes(cl, p, 0, 0, [], NoAttr, ok); }
    case Read(_, p, size, off) => EditsKeepSizes(cl, p, size, off, [], NoAttr, true);
    case Write(_, p, data, pos) => EditsKeepSizes(cl, p, 0, pos, data, NoAttr, true);
    case Create(_, p) => EditsKeepSizes(cl, p, 0, 0, [], NoAttr, true);
    case GetAttr(_, p, call) => forall r { EditsKeepSizes(cl, p, 0, 0, [], r, true); }
    case Deliver(c) => EditsKeepSizes(cl, w.nodes[c].stream[0].path, 0, 0, [], NoAttr, true);
    case _ =>
  }

  // --------------------------------------------------------------------------- the latest transfer

  lemma CleanIsSyncedOpen(w: World, c: Cid, p: Path, down: seq<DownNet>)
    requires Enabled(w, Open(c, p, down)) && CleanIsSynced(w.nodes[c])
    ensures CleanIsSynced(NextOpen(w, c, p, down).nodes[c])
  {
    if p !in w.nodes[c].client.cache {
      var rs := Replies(w.server.files, p, down);
      DownloadMeaning(w.nodes[c].client, p, rs);
      if Succeeds(rs) { DownloadedBytes(w.server.files, w.nodes[c].client, p, down); }
    }
  }

  lemma CleanIsSyncedClose(w: World, c: Cid, p: Path, up: seq<UpNet>)
    requires Struct(w) && Enabled(w, Close(c, p, up)) && CleanIsSynced(w.nodes[c])
    ensures CleanIsSynced(NextClose(w, c, p, up).nodes[c])
  {
    var n := w.nodes[c];
    if Uploads(n.client, p) { UploadEffect(w.server, c, p, n.client.disk[p], up); }
  }

  lemma EditsKeepSynced(n: Node, cl: Client)
    requires CleanIsSynced(n)
    requires forall r :: r in cl.cache && !cl.cache[r] ==>
                           && r in n.client.cache && !n.client.cache[r]
                           && (r in n.client.disk && r in cl.disk ==> cl.disk[r] == n.client.disk[r])
                           && (r in n.client.disk ==> r in cl.disk)
    ensures forall st, u :: CleanIsSynced(Node(cl, st, u, n.synced))
  {
  }

  lemma CleanIsSyncedEdit(w: World, st: Step)
    requires Struct(w) && Enabled(w, st) && (st.Read? || st.Write? || st.Create? || st.GetAttr?)
    requires CleanIsSynced(w.nodes[st.c])
    ensures CleanIsSynced(Next(w, st).nodes[st.c])
  {
    EditsKeepSynced(w.nodes[st.c], Next(w, st).nodes[st.c].client);
  }

  lemma CleanIsSyncedDelete(w: World, c: Cid, p: Path, call: Call)
    requires Struct(w) && Enabled(w, Delete(c, p, call)) && CleanIsSynced(w.nodes[c])
    ensures CleanIsSynced(NextDelete(w, c, p, call).nodes[c])
  {
    EditsKeepSynced(w.nodes[c], NextDelete(w, c, p, call).nodes[c].client);
  }

  lemma RenameKeepsSyncedExactlyWhen(w: World, c: Cid, p: Path, q: Path, call: Call)
    requires Struct(w) && Enabled(w, Rename(c, p, q, call)) && CleanIsSynced(w.nodes[c])
    ensures CleanIsSynced(NextRename(w, c, p, q, call).nodes[c]) <==> RenameObeys(CleanSynced, w.nodes[c], p, q)
  {
    var n, n' := w.nodes[c], NextRename(w, c, p, q, call).nodes[c];
    if Replaces(n.client, p, q) && !n.client.cache[q] {
      assert Synced(n, q);
      assert Synced(n', q) <==> RenameObeys(CleanSynced, n, p, q);
    }
    forall r | r in n'.client.cache && !n'.client.cache[r] && (r != q || !Replaces(n.client, p, q))
      ensures Synced(n', r)
    {
      assert Synced(n, if r == q then p else r);
    }
  }

  lemma CleanSyncedStep(w: World, st: Step)
    requires Struct(w) && Enabled(w, st) && !st.Join? && CleanIsSynced(w.nodes[st.c])
    ensures CleanIsSynced(Next(w, st).nodes[st.c]) <==> Obeys(CleanSynced, w, st)
  {
    match st
    case Open(c, p, down) => CleanIsSyncedOpen(w, c, p, down);
    case Close(c, p, up) => CleanIsSyncedClose(w, c, p, up);
    case Delete(c, p, call) => CleanIsSyncedDelete(w, c, p, call);
    case Rename(c, p, q, call) => RenameKeepsSyncedExactlyWhen(w, c, p, q, call);
    case Forward(_) =>
    case Deliver(_) =>
    case Disconnect(_) =>
    case _ => CleanIsSyncedEdit(w, st);
  }

  // ----------------------------------------------------------------------------------- the theorems

  lemma ActorDecides(l: Law, w: World, st: Step)
    requires Enabled(w, st) && Holds(l, w)
    ensures st.Join? ==> Holds(l, Next(w, st))
    ensures !st.Join? ==> (Holds(l, Next(w, st)) <==> NodeHolds(l, Next(w, st).nodes[st.c]))
  {
    forall c | c != st.c ensures c in Next(w, st).nodes ==> c in w.nodes && Next(w, st).nodes[c] == w.nodes[c] {
      OthersUntouched(w, st, c);
    }
    ActorStays(w, st);
  }

  lemma ActorStays(w: World, st: Step)
    requires Enabled(w, st)
    ensures st.c in Next(w, st).nodes
    ensures st.Join? ==> forall l :: NodeHolds(l, Next(w, st).nodes[st.c])
  {
  }

  /** A step keeps the law for all clients if and only if it obeys it. */
  lemma LawKeptExactlyWhen(l: Law, w: World, st: Step)
    requires Struct(w) && Holds(l, w) && Enabled(w, st)
    ensures Holds(l, Next(w, st)) <==> Obeys(l, w, st)
  {
    ActorDecides(l, w, st);
    if !st.Join? {
      match l
      case MutexesMatch => MutexesMatchStep(w, st);
      case CachedOnDisk => CachedOnDiskStep(w, st);
      case SizesKnown => SizesKnownStep(w, st);
      case CleanSynced => CleanSyncedStep(w, st);
    }
  }

  predicate ObeysThroughout(l: Law, w: World, steps: seq<Step>)
    requires Legal(w, steps)
    decreases |steps|
  {
    steps == [] || (Obeys(l, w, steps[0]) && ObeysThroughout(l, Next(w, steps[0]), steps[1..]))
  }

  ghost predicate HoldsThroughout(l: Law, w: World, steps: seq<Step>)
    requires Legal(w, steps)
  {
    forall i :: 0 <= i <= |steps| ==> Holds(l, StateAt(w, steps, i))
  }

  lemma {:induction false} LawThroughRun(l: Law, w: World, steps: seq<Step>)
    requires Struct(w) && Holds(l, w) && Legal(w, steps)
    ensures HoldsThroughout(l, w, steps) <==> ObeysThroughout(l, w, steps)
    decreases |steps|
  {
    if steps != [] {
      var w1, rest := Next(w, steps[0]), steps[1..];
      LawKeptExactlyWhen(l, w, steps[0]);
      StepKeepsStruct(w, steps[0]);
      if Holds(l, w1) {
        LawThroughRun(l, w1, rest);
        assert forall i :: 0 < i <= |steps| ==> StateAt(w, steps, i) == StateAt(w1, rest, i - 1);
        assert forall i :: 0 <= i <= |rest| ==> StateAt(w1, rest, i) == StateAt(w, steps, i + 1);
      } else {
        assert StateAt(w, steps, 1) == w1;
      }
    }
  }

  /** In all states of a run the law holds for all clients if and only if all steps obey it. */
  lemma LawsHoldExactlyWhen(l: Law, files: map<Path, Bytes>, steps: seq<Step>)
    requires Legal(Init(files), steps)
    ensures HoldsThroughout(l, Init(files), steps) <==> ObeysThroughout(l, Init(files), steps)
  {
    InitSound(files);
    LawThroughRun(l, Init(files), steps);
  }

  lemma LawAtTheEnd(l: Law, files: map<Path, Bytes>, steps: seq<Step>, c: Cid)
    requires Legal(Init(files), steps) && ObeysThroughout(l, Init(files), steps) && c in Run(Init(files), steps).nodes
    ensures NodeHolds(l, Run(Init(files), steps).nodes[c])
  {
    LawsHoldExactlyWhen(l, files, steps);
    LastStateIsRun(Init(files), steps);
    assert Holds(l, StateAt(Init(files), steps, |steps|));
  }

  /** In every run open files are cached and on disk; and as long as no open file is renamed, the
      files with a mutex are exactly the open ones. */
  lemma OpenFilesKeepTheirMutexes(files: map<Path, Bytes>, steps: seq<Step>, c: Cid, p: Path)
    requires Legal(Init(files), steps) && c in Run(Init(files), steps).nodes
    ensures var cl := Run(Init(files), steps).nodes[c].client;
            && (p in cl.handles ==> p in cl.cache && p in cl.disk)
            && (ObeysThroughout(MutexesMatch, Init(files), steps) ==> (p in cl.mutexes <==> p in cl.handles))
  {
    InitSound(files);
    StructAt(Init(files), steps, |steps|);
    LastStateIsRun(Init(files), steps);
    assert Shape(Run(Init(files), steps).nodes[c]);
    if ObeysThroughout(MutexesMatch, Init(files), steps) { LawAtTheEnd(MutexesMatch, files, steps, c); }
  }

  /** The size reported for a cached file is the length of its local bytes, after every run that
      obeys the law of sizes. */
  lemma CachedSizesAreRight(files: map<Path, Bytes>, steps: seq<Step>, c: Cid, p: Path)
    requires Legal(Init(files), steps) && ObeysThroughout(SizesKnown, Init(files), steps)
    requires c in Run(Init(files), steps).nodes
    ensures var cl := Run(Init(files), steps).nodes[c].client;
            p in cl.cache ==> SizeKnown(cl, p)
  {
    LawAtTheEnd(SizesKnown, files, steps, c);
  }

  /** With nothing pending, and if all steps were safe for it, get_attributes answers for an unmodified
      cached file with the size of the server's file, whatever becomes of a call to the server. */
  lemma QuietSizesAreTheServers(files: map<Path, Bytes>, steps: seq<Step>, c: Cid, p: Path, reply: AttrReply)
    requires Legal(Init(files), steps) && ObeysThroughout(SizesKnown, Init(files), steps)
    requires SafeThroughout(Content, Init(files), steps, c, p)
    requires var w := Run(Init(files), steps);
             && c in w.server.queues && c in w.nodes && !Pending(w.server, c, w.nodes[c], p)
             && p in w.nodes[c].client.cache && !w.nodes[c].client.cache[p]
    ensures var w := Run(Init(files), steps);
            p in w.server.files && GetAttributes(w.nodes[c].client, p, reply).1 == Size(|w.server.files[p]|)
  {
    CachedSizesAreRight(files, steps, c, p);
    CachesAreCoherent(files, steps, c, p);
  }

  /** For a file whose attributes are not known, an answered call yields, and remembers, the size of the
      server's file, or that there is none; a call that is not answered yields nothing. */
  lemma UnknownSizesAreFetched(w: World, c: Cid, p: Path, call: Call)
    requires Enabled(w, GetAttr(c, p, call)) && p !in w.nodes[c].client.attr
    ensures var cl' := Next(w, GetAttr(c, p, call)).nodes[c].client;
            && (p in cl'.attr <==> call.Answered? && p in w.server.files)
            && (p in cl'.attr ==> cl'.attr[p] == |w.server.files[p]|)
            && Next(w, GetAttr(c, p, call)).server == w.server
  {
  }

  /** Clean means synced: whatever closes failed on the way, an unmodified file holds the bytes of
      its latest successful download or upload, after every run that obeys the law. */
  lemma UnmodifiedFilesAreSynced(files: map<Path, Bytes>, steps: seq<Step>, c: Cid, p: Path)
    requires Legal(Init(files), steps) && ObeysThroughout(CleanSynced, Init(files), steps)
    requires c in Run(Init(files), steps).nodes
    ensures var n := Run(Init(files), steps).nodes[c];
            p in n.client.cache && !n.client.cache[p] ==> Synced(n, p)
  {
    LawAtTheEnd(CleanSynced, files, steps, c);
  }

  // ------------------------------------------------------------------------ what the records say

  // open_file brings r into the cache.
  predicate Fetches(w: World, st: Step, r: Path)
    requires Enabled(w, st) && !st.Join?
  {
    st.Open? && st.p == r && r !in w.nodes[st.c].client.cache && r in Next(w, st).nodes[st.c].client.cache
  }

  // close_file takes r from modified to clean.
  predicate Flushes(w: World, st: Step, r: Path)
    requires Enabled(w, st) && !st.Join?
  {
    var n, n' := w.nodes[st.c].client, Next(w, st).nodes[st.c].client;
    st.Close? && st.p == r && r in n.cache && n.cache[r] && r in n'.cache && !n'.cache[r]
  }

  /** What the two records of a node mean, for every file and every step of its client but a rename.
      The bytes of the last transfer are, after a download, what the server has and the local copy
      is; after an upload, what the local copy was and the server now has; otherwise as before.
      A file counts as never uploaded from its creation until it is uploaded or deleted. */
  lemma RecordsFollow(w: World, st: Step, r: Path)
    requires Struct(w) && Enabled(w, st) && !st.Join? && !st.Rename?
    ensures var n, w' := w.nodes[st.c], Next(w, st);
            var n' := w'.nodes[st.c];
            && (Fetches(w, st, r) ==>
                  && r in w.server.files && r in n'.synced && n'.synced[r] == w.server.files[r]
                  && r in n'.client.disk && n'.client.disk[r] == w.server.files[r])
            && (Flushes(w, st, r) ==>
                  && r in n.client.disk && r in n'.synced && n'.synced[r] == n.client.disk[r]
                  && r in w'.server.files && w'.server.files[r] == n.client.disk[r])
            && (!Fetches(w, st, r) && !Flushes(w, st, r) ==>
                  && (r in n'.synced <==> r in n.synced) && (r in n.synced ==> n'.synced[r] == n.synced[r]))
            && (r in n'.unsent <==>
                  || (st.Create? && st.p == r && r !in n.client.cache)
                  || (r in n.unsent && !Flushes(w, st, r) && !(st.Delete? && st.p == r)))
  {
    assert Shape(w.nodes[st.c]);
    match st
    case Open(c, p, down) =>
      var n := w.nodes[c].client;
      var rs := Replies(w.server.files, p, down);
      DownloadMeaning(n, p, rs);
      if Succeeds(rs) { DownloadedBytes(w.server.files, n, p, down); }
    case Close(c, p, up) =>
      var n := w.nodes[c].client;
      if Uploads(n, p) { UploadEffect(w.server, c, p, n.disk[p], up); }
    case _ =>
  }
}
