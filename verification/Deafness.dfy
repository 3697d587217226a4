/**
 Clients the server has lost track of: how long one that caches a file unregistered stays deaf to
 its changes.
 */
module Deafness {
  import opened Wire
  import opened Keys
  import opened Notifications
  import opened ServerModel
  import opened ClientModel
  import opened System
  import opened Coherence

  // A live client caches p unmodified, is not registered for it, and has no note about it coming.
  predicate Deaf(w: World, c: Cid, p: Path) {
    && c in w.server.queues && c in w.nodes
    && p in w.nodes[c].client.cache && !w.nodes[c].client.cache[p]
    && !Pending(w.server, c, w.nodes[c], p) && !Registered(w.server, p, c)
  }

  // The step leaves c deaf to p: c stays and does not change, delete or rename its copy; nobody
  // renames a file onto p that c is registered for; and c renames nothing modified onto p.
  predicate LeavesDeaf(w: World, st: Step, c: Cid, p: Path)
    requires Enabled(w, st) && c in w.nodes
  {
    var cl := w.nodes[c].client;
    match st
    case Write(d, r, data, pos) =>
      d == c && r == p ==>
        !(Usable(cl, p) && !cl.handles[p].writeFailed && !cl.handles[p].closed && pos >= 0 && p in cl.disk)
    case Delete(d, r, _) => d != c || r != p
    case Disconnect(d) => d != c
    case Rename(d, x, y, call) =>
      && (d == c ==> x != p)
      && (y == p && x != p ==>
            && !(Announced(w.server, x, call) && Registered(w.server, x, c))
            && (d == c && x in cl.cache ==> !cl.cache[x]))
    case _ => true
  }

  // The step renames nothing onto the local copy.
  predicate SparesCopy(st: Step, c: Cid, p: Path) {
    !(st.Rename? && st.c == c && st.q == p)
  }

  predicate CopyKept(cl: Client, cl': Client, p: Path) {
    p in cl.disk ==> p in cl'.disk && cl'.disk[p] == cl.disk[p]
  }

  lemma RenameUnheard(s: Server, c: Cid, p: Path, d: Cid, x: Path, y: Path, call: Call, s': Server)
    requires c in s.queues && !Mentions(s.queues[c], p) && !Registered(s, p, c)
    requires s' == if call.Lost? then s else RenameRpc(s, d, x, y)
    ensures c in s'.queues && !Mentions(s'.queues[c], p)
  {
    AppendMentions(s.queues[c], Note(Renamed(y), x), p);
    assert x == p ==> s'.queues[c] == s.queues[c];
  }

  lemma RenameSparesCopy(cl: Client, x: Path, y: Path, p: Path)
    requires x != p && y != p
    ensures CopyKept(cl, RenameFile(cl, x, y), p)
    ensures p in RenameFile(cl, x, y).cache <==> p in cl.cache
    ensures p in cl.cache ==> RenameFile(cl, x, y).cache[p] == cl.cache[p]
  {
  }

  lemma DeafToRename(w: World, c: Cid, p: Path, d: Cid, x: Path, y: Path, call: Call)
    requires Struct(w) && Enabled(w, Rename(d, x, y, call)) && Deaf(w, c, p)
    ensures Deaf(NextRename(w, d, x, y, call), c, p) <==> LeavesDeaf(w, Rename(d, x, y, call), c, p)
    ensures LeavesDeaf(w, Rename(d, x, y, call), c, p) && !(d == c && y == p) ==>
              CopyKept(w.nodes[c].client, NextRename(w, d, x, y, call).nodes[c].client, p)
  {
    var s, w' := w.server, NextRename(w, d, x, y, call);
    RenameUnheard(s, c, p, d, x, y, call, w'.server);
    assert w'.nodes[c].stream == w.nodes[c].stream;
    if y == p && x != p {
      assert Registered(w'.server, p, c) <==> Announced(s, x, call) && Registered(s, x, c);
    } else {
      RenamedElsewhere(s, c, p, d, x, y, call);
      if d == c && x != p { RenameSparesCopy(w.nodes[c].client, x, y, p); }
    }
  }

  lemma RenamedElsewhere(s: Server, c: Cid, p: Path, d: Cid, x: Path, y: Path, call: Call)
    requires !Registered(s, p, c) && (y != p || x == p)
    ensures !Registered(if call.Lost? then s else RenameRpc(s, d, x, y), p, c)
  {
  }

  lemma DeafToOthers(w: World, st: Step, c: Cid, p: Path)
    requires Struct(w) && Enabled(w, st) && Deaf(w, c, p) && st.c != c && !st.Rename?
    ensures Deaf(Next(w, st), c, p) && Next(w, st).nodes[c] == w.nodes[c]
  {
    OthersUntouched(w, st, c);
    UnheardOfOthers(w, st, c, p);
  }

  // What the others do neither registers c for p nor tells it about p.
  lemma UnheardOfOthers(w: World, st: Step, c: Cid, p: Path)
    requires Struct(w) && Enabled(w, st) && st.c != c && !st.Rename?
    requires c in w.server.queues && !Registered(w.server, p, c) && !Mentions(w.server.queues[c], p)
    ensures var s' := Next(w, st).server;
            c in s'.queues && !Registered(s', p, c) && !Mentions(s'.queues[c], p)
  {
    var s := w.server;
    match st
    case Close(d, r, up) =>
      if Uploads(w.nodes[d].client, r) { UnheardUpload(s, d, r, w.nodes[d].client.disk[r], up, c, p); }
    case Delete(d, r, call) => UnheardUnlink(s, d, r, c, p);
    case Disconnect(d) =>
      CleanupRemovesOneClient(s, d);
      assert Registered(Next(w, st).server, p, c) <==> Registered(s, p, c);
    case _ =>
  }

  lemma UnheardUnlink(s: Server, d: Cid, r: Path, c: Cid, p: Path)
    requires c in s.queues && !Registered(s, p, c) && !Mentions(s.queues[c], p)
    ensures var s' := UnlinkRpc(s, d, r);
            c in s'.queues && !Registered(s', p, c) && !Mentions(s'.queues[c], p)
  {
    AppendMentions(s.queues[c], Note(Deleted, r), p);
  }

  lemma {:induction false} UnheardUpload(s: Server, d: Cid, r: Path, bytes: Bytes, up: seq<UpNet>, c: Cid, p: Path)
    requires d != c && c in s.queues && !Registered(s, p, c) && !Mentions(s.queues[c], p)
    ensures var s' := UploadRpcs(s, d, r, bytes, up).0;
            c in s'.queues && !Registered(s', p, c) && !Mentions(s'.queues[c], p)
    decreases |up|
  {
    if up != [] {
      var messages := UploadMessages(bytes);
      var sent := if up[0].finished then messages else messages[..Min(up[0].delivered, |messages|)];
      AppendMentions(s.queues[c], Note(Update, r), p);
      if !up[0].finished { UnheardUpload(CloseRpc(s, d, r, sent), d, r, bytes, up[1..], c, p); }
    }
  }

  lemma DeafToOwnOpen(w: World, c: Cid, p: Path, r: Path, down: seq<DownNet>)
    requires Enabled(w, Open(c, r, down)) && Deaf(w, c, p)
    ensures Deaf(NextOpen(w, c, r, down), c, p)
    ensures CopyKept(w.nodes[c].client, NextOpen(w, c, r, down).nodes[c].client, p)
  {
    if r !in w.nodes[c].client.cache {
      DownloadMeaning(w.nodes[c].client, r, Replies(w.server.files, r, down));
      assert r != p;
    }
    var w' := NextOpen(w, c, r, down);
    assert w'.server.queues == w.server.queues && w'.nodes[c].stream == w.nodes[c].stream;
    assert !Registered(w'.server, p, c);
  }

  lemma DeafToOwnClose(w: World, c: Cid, p: Path, r: Path, up: seq<UpNet>)
    requires Struct(w) && Enabled(w, Close(c, r, up)) && Deaf(w, c, p)
    ensures Deaf(NextClose(w, c, r, up), c, p)
    ensures CopyKept(w.nodes[c].client, NextClose(w, c, r, up).nodes[c].client, p)
  {
    var n, s := w.nodes[c], w.server;
    if Uploads(n.client, r) {
      UploadEffect(s, c, r, n.client.disk[r], up);
      OwnUpload(s, c, r, n.client.disk[r], up, p);
    }
  }

  lemma DeafToOwnDelete(w: World, c: Cid, p: Path, r: Path, call: Call)
    requires Enabled(w, Delete(c, r, call)) && Deaf(w, c, p)
    ensures Deaf(NextDelete(w, c, r, call), c, p) <==> r != p
    ensures r != p ==> CopyKept(w.nodes[c].client, NextDelete(w, c, r, call).nodes[c].client, p)
  {
    var w' := NextDelete(w, c, r, call);
    assert w'.server.queues[c] == w.server.queues[c] && w'.nodes[c].stream == w.nodes[c].stream;
    assert p in w'.nodes[c].client.cache <==> r != p;
  }

  lemma DeafToOwnWrite(w: World, c: Cid, p: Path, r: Path, data: Bytes, pos: int)
    requires Enabled(w, Write(c, r, data, pos)) && Deaf(w, c, p)
    ensures var st := Write(c, r, data, pos);
            && (Deaf(Next(w, st), c, p) <==> LeavesDeaf(w, st, c, p))
            && (LeavesDeaf(w, st, c, p) ==> CopyKept(w.nodes[c].client, Next(w, st).nodes[c].client, p))
  {
    WriteLocally(w.nodes[c].client, r, data, pos);
  }

  lemma DeafToOwnEdit(w: World, st: Step, c: Cid, p: Path)
    requires Enabled(w, st) && Deaf(w, c, p) && st.c == c && (st.Read? || st.Create? || st.GetAttr?)
    ensures Deaf(Next(w, st), c, p)
    ensures CopyKept(w.nodes[c].client, Next(w, st).nodes[c].client, p)
  {
    var n, n' := w.nodes[c], Next(w, st).nodes[c];
    assert n'.stream == n.stream && Next(w, st).server == w.server;
    assert p in n'.client.cache && n'.client.cache[p] == n.client.cache[p];
  }

  lemma DeafToDelivery(w: World, c: Cid, p: Path)
    requires Enabled(w, Deliver(c)) && Deaf(w, c, p)
    ensures Deaf(NextDeliver(w, c), c, p) && NextDeliver(w, c).nodes[c].client.disk == w.nodes[c].client.disk
  {
    var stream := w.nodes[c].stream;
    assert stream[0].path != p;
    forall i | 0 <= i < |stream[1..]| ensures stream[1..][i].path != p { assert stream[i + 1].path != p; }
  }

  lemma WriteLocally(cl: Client, p: Path, data: Bytes, pos: int)
    ensures var (cl', ok) := ClientModel.WriteFile(cl, p, data, pos);
            && (!ok ==> cl'.cache == cl.cache && cl'.disk == cl.disk)
            && (ok ==> p in cl.cache && p in cl.disk && cl'.cache == cl.cache[p := true]
                       && cl'.disk == cl.disk[p := Overlay(cl.disk[p], pos, data)])
            && (ok <==> Usable(cl, p) && !cl.handles[p].writeFailed && !cl.handles[p].closed && pos >= 0 && p in cl.disk)
  {
  }

  lemma DeafToItself(w: World, st: Step, c: Cid, p: Path)
    requires Struct(w) && Enabled(w, st) && Deaf(w, c, p) && st.c == c && !st.Rename?
    ensures Deaf(Next(w, st), c, p) <==> LeavesDeaf(w, st, c, p)
    ensures LeavesDeaf(w, st, c, p) ==> CopyKept(w.nodes[c].client, Next(w, st).nodes[c].client, p)
  {
    var n, s := w.nodes[c], w.server;
    match st
    case Open(_, r, down) => DeafToOwnOpen(w, c, p, r, down);
    case Close(_, r, up) => DeafToOwnClose(w, c, p, r, up);
    case Forward(_) => ForwardKeepsPending(s.queues[c], n.stream, p);
    case Deliver(_) => DeafToDelivery(w, c, p);
    case Delete(_, r, call) => DeafToOwnDelete(w, c, p, r, call);
    case Write(_, r, data, pos) => DeafToOwnWrite(w, c, p, r, data, pos);
    case Disconnect(_) =>
    case Join(_) =>
    case _ => DeafToOwnEdit(w, st, c, p);
  }

  lemma {:induction false} OwnUpload(s: Server, c: Cid, r: Path, bytes: Bytes, up: seq<UpNet>, p: Path)
    requires r != p
    ensures Registered(UploadRpcs(s, c, r, bytes, up).0, p, c) <==> Registered(s, p, c)
    decreases |up|
  {
    if up != [] && !up[0].finished {
      var messages := UploadMessages(bytes);
      OwnUpload(CloseRpc(s, c, r, messages[..Min(up[0].delivered, |messages|)]), c, r, bytes, up[1..], p);
    }
  }

  lemma DeafKeptExactlyWhen(w: World, st: Step, c: Cid, p: Path)
    requires Struct(w) && Enabled(w, st) && Deaf(w, c, p)
    ensures Deaf(Next(w, st), c, p) <==> LeavesDeaf(w, st, c, p)
    ensures LeavesDeaf(w, st, c, p) && SparesCopy(st, c, p) ==>
              CopyKept(w.nodes[c].client, Next(w, st).nodes[c].client, p)
  {
    match st
    case Rename(d, x, y, call) => DeafToRename(w, c, p, d, x, y, call);
    case _ => if st.c == c { DeafToItself(w, st, c, p); } else { DeafToOthers(w, st, c, p); }
  }

  ghost predicate DeafThroughout(w: World, steps: seq<Step>, c: Cid, p: Path)
    requires Legal(w, steps)
  {
    forall i :: 0 <= i <= |steps| ==> Deaf(StateAt(w, steps, i), c, p)
  }

  predicate LeavesDeafThroughout(w: World, steps: seq<Step>, c: Cid, p: Path)
    requires Legal(w, steps)
    decreases |steps|
  {
    steps == [] ||
    (c in w.nodes && LeavesDeaf(w, steps[0], c, p) && LeavesDeafThroughout(Next(w, steps[0]), steps[1..], c, p))
  }

  /** A deaf client stays deaf to the file for exactly as long as every step leaves it so. All the
      while, unless it renames something onto the file itself, its copy stays as it is, however
      often the others change the file. */
  lemma {:induction false} DeafExactlyAsLong(w: World, steps: seq<Step>, c: Cid, p: Path)
    requires Struct(w) && Legal(w, steps) && Deaf(w, c, p)
    ensures DeafThroughout(w, steps, c, p) <==> LeavesDeafThroughout(w, steps, c, p)
    ensures LeavesDeafThroughout(w, steps, c, p) && (forall i :: 0 <= i < |steps| ==> SparesCopy(steps[i], c, p)) ==>
              Deaf(Run(w, steps), c, p) && CopyKept(w.nodes[c].client, Run(w, steps).nodes[c].client, p)
    decreases |steps|
  {
    assert StateAt(w, steps, 0) == w;
    if steps != [] {
      var w1, rest := Next(w, steps[0]), steps[1..];
      DeafKeptExactlyWhen(w, steps[0], c, p);
      StepKeepsStruct(w, steps[0]);
      if Deaf(w1, c, p) {
        DeafExactlyAsLong(w1, rest, c, p);
        assert forall i :: 0 < i <= |steps| ==> StateAt(w, steps, i) == StateAt(w1, rest, i - 1);
        assert forall i :: 0 <= i <= |rest| ==> StateAt(w1, rest, i) == StateAt(w, steps, i + 1);
      } else {
        assert StateAt(w, steps, 1) == w1;
      }
    }
  }
}
