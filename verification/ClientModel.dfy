/**
 One client as a value, with every file named by its server path. Each operation of the
 client is a function on it; what the network did is a parameter.
 */
module ClientModel {
  import opened Wire
  import opened Keys
  import opened Notifications

  // The pair of streams behind an open file: their failure bits, and whether a failed close
  // has already closed them.
  datatype Handle = Handle(readFailed: bool, writeFailed: bool, closed: bool)

  const FRESH: Handle := Handle(false, false, false)

  datatype Client = Client(
    cache: map<Path, bool>,           // locally_modified of each cached file
    handles: map<Path, Handle>,        // opened_files
    mutexes: set<Path>,               // the keys of file_mutexes
    attr: map<Path, nat>,             // the size in cached_attr
    disk: map<Path, Bytes>)           // the files under the cache directory

  const EMPTY: Client := Client(map[], map[], {}, map[], map[])

  // What one download attempt yields: the chunks received, and the final status.
  datatype Reply = Reply(chunks: seq<Bytes>, ok: bool)

  const TRIES: nat := 3

  // The size an existing cached_attr entry takes after the local file changed.
  function SyncAttr(c: Client, p: Path): Client {
    if p in c.attr && p in c.disk then c.(attr := c.attr[p := |c.disk[p]|]) else c
  }

  // One round of the download loop.
  function Attempt(c: Client, p: Path, r: Reply): Client {
    SyncAttr(
      c.(disk := c.disk[p := Concat(r.chunks)], cache := if r.ok then c.cache[p := false] else c.cache),
      p)
  }

  // The rounds of the download loop, and the index of the one that succeeded.
  function Download(c: Client, p: Path, rs: seq<Reply>): Client
    decreases |rs|
  {
    if rs == [] then c
    else if rs[0].ok then Attempt(c, p, rs[0])
    else Download(Attempt(c, p, rs[0]), p, rs[1..])
  }

  predicate Succeeds(rs: seq<Reply>) {
    exists i :: 0 <= i < |rs| && rs[i].ok
  }

  function OpenStreams(c: Client, p: Path): Client {
    c.(handles := c.handles[p := FRESH], mutexes := c.mutexes + {p})
  }

  // open_file; rs holds what the attempts would yield, of which at most TRIES are made.
  function OpenFile(c: Client, p: Path, rs: seq<Reply>): (Client, bool)
    requires |rs| == TRIES
  {
    if p !in c.cache then
      var c' := Download(c, p, rs);
      if Succeeds(rs) then (OpenStreams(c', p), true) else (c'.(disk := c'.disk - {p}), false)
    else if p in c.handles then (c, true)
    else if p !in c.disk then (c, false)
    else (OpenStreams(c, p), true)
  }

  // The three checks in front of every read and write.
  predicate Usable(c: Client, p: Path) {
    p in c.cache && p in c.handles && p in c.mutexes
  }

  datatype ReadResult = NotRead | Data(bytes: Bytes)

  // Seek and read on a stream, over the local file if there is one. A stream that came up
  // short keeps its failure bit, so its next seek fails.
  function SeekAndRead(h: Handle, onDisk: bool, bytes: Bytes, size: nat, off: int): (Handle, ReadResult) {
    if h.readFailed || h.closed || off < 0 || !onDisk then (h.(readFailed := true), NotRead)
    else
      var data := Slice(bytes, off, size);
      (h.(readFailed := |data| < size), Data(data))
  }

  // read_file
  function ReadFile(c: Client, p: Path, size: nat, off: int): (Client, ReadResult) {
    if !Usable(c, p) then (c, NotRead)
    else
      var (h, r) := SeekAndRead(c.handles[p], p in c.disk, if p in c.disk then c.disk[p] else [], size, off);
      (c.(handles := c.handles[p := h]), r)
  }

  // write_file
  function WriteFile(c: Client, p: Path, data: Bytes, pos: int): (Client, bool) {
    if !Usable(c, p) then (c, false)
    else
      var h := c.handles[p];
      if h.writeFailed || h.closed || pos < 0 || p !in c.disk then
        (c.(handles := c.handles[p := h.(writeFailed := false)]), false)
      else
        (SyncAttr(c.(disk := c.disk[p := Overlay(c.disk[p], pos, data)], cache := c.cache[p := true]), p), true)
  }

  // create_file
  function CreateFile(c: Client, p: Path): (Client, bool) {
    if p in c.cache || p in c.handles then (c, false)
    else
      var c' := c.(disk := c.disk[p := []], cache := c.cache[p := true], attr := c.attr[p := 0]);
      (OpenStreams(c', p), true)
  }

  function Forget(c: Client, p: Path): Client {
    c.(handles := c.handles - {p}, mutexes := c.mutexes - {p})
  }

  // close_file gets as far as uploading the local file.
  predicate Uploads(c: Client, p: Path) {
    && p in c.handles && p in c.mutexes && p in c.cache && c.cache[p]
    && !c.handles[p].writeFailed && p in c.disk
  }

  // close_file; ok tells whether one of the upload attempts succeeded. Closing a stream that
  // is closed already sets its failure bit.
  function CloseFile(c: Client, p: Path, ok: bool): (Client, bool) {
    if p !in c.handles || p !in c.mutexes then (c, false)
    else if p !in c.cache then (Forget(c, p), false)
    else if !c.cache[p] then (Forget(c, p), true)
    else
      var h := c.handles[p];
      if h.writeFailed then (c, false)
      else
        var closed := c.(handles := c.handles[p := Handle(h.readFailed || h.closed, h.closed, true)]);
        if p !in c.disk || !ok then (closed, false)
        else (Forget(SyncAttr(closed.(cache := c.cache[p := false]), p), p), true)
  }

  // delete_file; ok is the status of the unlink call. The local copy and the attributes go by two
  // paths, which are the same for a path without a trailing slash.
  function DeleteAt(c: Client, local: Path, p: Path, ok: bool): (Client, bool) {
    var c' := Forget(c.(cache := c.cache - {local}, attr := c.attr - {p}), local);
    if ok then (c'.(disk := c'.disk - {local}), true) else (c', false)
  }

  function DeleteFile(c: Client, p: Path, ok: bool): (Client, bool) {
    DeleteAt(c, p, p, ok)
  }

  datatype AttrReply = NoAttr | Size(size: nat)

  // get_attributes
  function GetAttributes(c: Client, p: Path, r: AttrReply): (Client, AttrReply) {
    if p in c.attr then (c, Size(c.attr[p]))
    else if r.NoAttr? then (c, NoAttr)
    else (c.(attr := c.attr[p := r.size]), r)
  }

  // One notification in RunSubscriber: dropped while the file is open, otherwise the file
  // leaves the cache. Without a cache entry the attributes stay as they are.
  function Invalidate(c: Client, p: Path): Client {
    if p in c.handles || p !in c.cache then c
    else c.(cache := c.cache - {p}, attr := c.attr - {p})
  }

  function InvalidateAll(c: Client, notes: seq<Note>): Client
    decreases |notes|
  {
    if notes == [] then c else InvalidateAll(Invalidate(c, notes[0].path), notes[1..])
  }

  // Assign to the new key, then erase the old one.
  function Move<V>(m: map<Path, V>, p: Path, q: Path): map<Path, V> {
    if p in m then m[q := m[p]] - {p} else m
  }

  // The local part of rename_file for a single file: the local target is removed first, then
  // the local source moved if there is one, then the keys rewritten. The mutexes are not.
  function RenameFile(c: Client, p: Path, q: Path): Client {
    var d := c.disk - {q};
    c.(disk := if p in d then (d - {p})[q := d[p]] else d,
       cache := Move(c.cache, p, q), handles := Move(c.handles, p, q), attr := Move(c.attr, p, q))
  }

  // The attempt that decides what is left on disk: the first that succeeds, or the last.
  function Deciding(rs: seq<Reply>): nat
    requires rs != []
    decreases |rs|
  {
    if rs[0].ok || |rs| == 1 then 0 else 1 + Deciding(rs[1..])
  }

  lemma {:induction false} DecidingMeaning(rs: seq<Reply>)
    requires rs != []
    ensures Deciding(rs) < |rs|
    ensures forall i :: 0 <= i < Deciding(rs) ==> !rs[i].ok
    ensures Succeeds(rs) <==> rs[Deciding(rs)].ok
    ensures !Succeeds(rs) ==> Deciding(rs) == |rs| - 1
    decreases |rs|
  {
    if !rs[0].ok && |rs| > 1 {
      var rest := rs[1..];
      DecidingMeaning(rest);
      forall i | 0 <= i < |rs| && rs[i].ok ensures rest[i - 1].ok {}
      assert rs[Deciding(rs)] == rest[Deciding(rest)];
    }
  }

  // The client with p downloaded as bytes, and entered into the cache if all went well.
  function Settled(c: Client, p: Path, bytes: Bytes, ok: bool): Client {
    c.(disk := c.disk[p := bytes],
       cache := if ok then c.cache[p := false] else c.cache,
       attr := if p in c.attr then c.attr[p := |bytes|] else c.attr)
  }

  lemma LaterAttemptOverwrites(c: Client, p: Path, b: Bytes, b': Bytes, ok: bool)
    ensures Settled(Settled(c, p, b, false), p, b', ok) == Settled(c, p, b', ok)
  {
    assert c.disk[p := b][p := b'] == c.disk[p := b'];
    if p in c.attr { assert c.attr[p := |b|][p := |b'|] == c.attr[p := |b'|]; }
  }

  /** What the download loop leaves: the bytes of the attempt that succeeded, or those of the
      last one, an entry in the cache exactly if one succeeded, and a matching size. */
  lemma {:induction false} DownloadMeaning(c: Client, p: Path, rs: seq<Reply>)
    requires rs != []
    ensures Deciding(rs) < |rs|
    ensures Download(c, p, rs) == Settled(c, p, Concat(rs[Deciding(rs)].chunks), Succeeds(rs))
    decreases |rs|
  {
    DecidingMeaning(rs);
    var r := rs[0];
    assert Attempt(c, p, r) == Settled(c, p, Concat(r.chunks), r.ok);
    if !r.ok && |rs| > 1 {
      var rest := rs[1..];
      DecidingMeaning(rest);
      DownloadMeaning(Attempt(c, p, r), p, rest);
      LaterAttemptOverwrites(c, p, Concat(r.chunks), Concat(rest[Deciding(rest)].chunks), Succeeds(rest));
    } else {
      assert Download(c, p, rs) == Attempt(c, p, r);
    }
  }
}
