/**
 What each operation of the client answers and does, entry by entry: to the file it is about, and
 that it leaves every other file alone.
 */
module ClientEffects {
  import opened Wire
  import opened Keys
  import opened ClientModel

  predicate SameAt<V(==)>(m: map<Path, V>, m': map<Path, V>, r: Path) {
    (r in m <==> r in m') && (r in m ==> m'[r] == m[r])
  }

  // Nothing about the file r has changed.
  predicate Untouched(c: Client, c': Client, r: Path) {
    && SameAt(c.cache, c'.cache, r) && SameAt(c.handles, c'.handles, r) && (r in c.mutexes <==> r in c'.mutexes)
    && SameAt(c.attr, c'.attr, r) && SameAt(c.disk, c'.disk, r)
  }

  ghost predicate OnlyAbout(c: Client, c': Client, p: Path) {
    forall r :: r != p ==> Untouched(c, c', r)
  }

  // p has streams no operation has used yet, and a mutex.
  predicate FreshlyOpen(c: Client, p: Path) {
    && p in c.handles && !c.handles[p].readFailed && !c.handles[p].writeFailed && !c.handles[p].closed
    && p in c.mutexes
  }

  /** open_file of a cached file succeeds exactly if the file is open or has a local copy. If it was
      open, or the operation fails, nothing changes; otherwise it is open afterwards, with streams
      and a mutex of its own, and that is all that changes. */
  lemma OpenHitEffect(c: Client, p: Path, rs: seq<Reply>)
    requires p in c.cache && |rs| == 3
    ensures var (c', ok) := OpenFile(c, p, rs);
            && (ok <==> p in c.handles || p in c.disk)
            && (!ok || p in c.handles ==> c' == c)
            && (ok && p !in c.handles ==>
                  && FreshlyOpen(c', p) && OnlyAbout(c, c', p)
                  && c'.cache == c.cache && c'.attr == c.attr && c'.disk == c.disk)
  {
  }

  /** open_file of a file that is not cached succeeds exactly if one of the three attempts does. Then
      the file is open, cached and clean, as the first attempt that succeeded brought it; otherwise it
      has neither an entry nor a local copy, and its streams are as they were. */
  lemma OpenMissEffect(c: Client, p: Path, rs: seq<Reply>)
    requires p !in c.cache && |rs| == 3
    ensures var (c', ok) := OpenFile(c, p, rs);
            && (ok <==> rs[0].ok || rs[1].ok || rs[2].ok)
            && OnlyAbout(c, c', p) && (p in c'.attr <==> p in c.attr)
            && (ok ==>
                  && FreshlyOpen(c', p) && p in c'.cache && !c'.cache[p] && p in c'.disk
                  && c'.disk[p] == Concat((if rs[0].ok then rs[0] else if rs[1].ok then rs[1] else rs[2]).chunks)
                  && (p in c.attr ==> c'.attr[p] == |c'.disk[p]|))
            && (!ok ==>
                  && p !in c'.cache && p !in c'.disk
                  && c'.handles == c.handles && c'.mutexes == c.mutexes)
  {
    DownloadMeaning(c, p, rs);
    DecidingOfThree(rs);
    var d := Download(c, p, rs);
    SettledEffect(c, p, Concat(rs[Deciding(rs)].chunks), Succeeds(rs));
    if Succeeds(rs) { OpenedEffect(c, d, p); } else { DroppedEffect(c, d, p); }
  }

  lemma OpenedEffect(c: Client, d: Client, p: Path)
    requires OnlyAbout(c, d, p)
    ensures OnlyAbout(c, OpenStreams(d, p), p) && FreshlyOpen(OpenStreams(d, p), p)
    ensures var c' := OpenStreams(d, p); c'.cache == d.cache && c'.disk == d.disk && c'.attr == d.attr
  {
    forall r | r != p ensures Untouched(c, OpenStreams(d, p), r) { assert Untouched(c, d, r); }
  }

  lemma DroppedEffect(c: Client, d: Client, p: Path)
    requires OnlyAbout(c, d, p)
    ensures OnlyAbout(c, d.(disk := d.disk - {p}), p)
  {
    forall r | r != p ensures Untouched(c, d.(disk := d.disk - {p}), r) { assert Untouched(c, d, r); }
  }

  lemma DecidingOfThree(rs: seq<Reply>)
    requires |rs| == 3
    ensures Deciding(rs) == if rs[0].ok then 0 else if rs[1].ok then 1 else 2
    ensures Succeeds(rs) <==> rs[0].ok || rs[1].ok || rs[2].ok
  {
    DecidingMeaning(rs);
  }

  lemma SettledEffect(c: Client, p: Path, bytes: Bytes, ok: bool)
    ensures var c' := Settled(c, p, bytes, ok);
            && OnlyAbout(c, c', p) && c'.handles == c.handles && c'.mutexes == c.mutexes
            && p in c'.disk && c'.disk[p] == bytes && (p in c'.attr <==> p in c.attr)
            && (p in c.attr ==> c'.attr[p] == |bytes|)
            && (ok ==> p in c'.cache && !c'.cache[p]) && (!ok ==> c'.cache == c.cache)
  {
  }

  /** read_file answers exactly if the file is cached, open and has a mutex, its stream has not failed
      or been closed, the offset is not negative and the local copy is there. It returns the bytes from
      the offset on, as many as asked for or as there are; coming up short, or failing, spoils the
      stream. Nothing else changes. */
  lemma ReadEffect(c: Client, p: Path, size: nat, off: int)
    ensures var (c', r) := ReadFile(c, p, size, off);
            var usable := p in c.cache && p in c.handles && p in c.mutexes;
            && (r.Data? <==> usable && !c.handles[p].readFailed && !c.handles[p].closed && off >= 0 && p in c.disk)
            && (r.Data? ==>
                  && |r.bytes| == Min(size, Remaining(|c.disk[p]|, off))
                  && (forall i :: 0 <= i < |r.bytes| ==> r.bytes[i] == c.disk[p][off + i])
                  && c'.handles[p] == c.handles[p].(readFailed := off + size > |c.disk[p]| && size > 0))
            && (r.NotRead? && usable ==> c'.handles[p] == c.handles[p].(readFailed := true))
            && (!usable ==> c' == c)
            && OnlyAbout(c, c', p) && c'.handles.Keys == c.handles.Keys
            && c'.cache == c.cache && c'.mutexes == c.mutexes && c'.attr == c.attr && c'.disk == c.disk
  {
    if Usable(c, p) && off >= 0 && p in c.disk { SliceMeaning(c.disk[p], off, size); }
  }

  /** write_file succeeds exactly if the file is cached, open and has a mutex, its stream has not failed
      or been closed, the position is not negative and the local copy is there. Then the bytes are
      laid over the local copy, the file is modified, and a known size is brought up to date. A refused
      write clears the stream's failure. */
  lemma WriteEffect(c: Client, p: Path, data: Bytes, pos: int)
    ensures var (c', ok) := WriteFile(c, p, data, pos);
            var usable := p in c.cache && p in c.handles && p in c.mutexes;
            && (ok <==> usable && !c.handles[p].writeFailed && !c.handles[p].closed && pos >= 0 && p in c.disk)
            && (ok ==>
                  && p in c'.cache && c'.cache[p] && p in c'.disk && c'.disk[p] == Overlay(c.disk[p], pos, data)
                  && c'.handles == c.handles && (p in c'.attr <==> p in c.attr)
                  && (p in c.attr ==> c'.attr[p] == |c'.disk[p]|))
            && (!ok && usable ==>
                  && c'.handles == c.handles[p := c.handles[p].(writeFailed := false)]
                  && c'.cache == c.cache && c'.disk == c.disk && c'.attr == c.attr)
            && (!usable ==> c' == c)
            && OnlyAbout(c, c', p) && c'.mutexes == c.mutexes
  {
  }

  /** create_file is refused, with nothing changed, exactly if the file is cached or open. Otherwise
      the file is empty, whatever an earlier copy held, modified, open, and known to have no bytes. */
  lemma CreateEffect(c: Client, p: Path)
    ensures var (c', ok) := CreateFile(c, p);
            && (ok <==> p !in c.cache && p !in c.handles)
            && (!ok ==> c' == c)
            && (ok ==>
                  && p in c'.disk && c'.disk[p] == [] && p in c'.cache && c'.cache[p]
                  && FreshlyOpen(c', p) && p in c'.attr && c'.attr[p] == 0)
            && OnlyAbout(c, c', p)
  {
  }

  /** close_file answers true exactly if the file was open, and is closed and cached afterwards; it is
      then clean, and has no mutex. If it was modified, an upload was acknowledged. The local copy is
      never touched. */
  lemma CloseEffect(c: Client, p: Path, acknowledged: bool)
    ensures var (c', ok) := CloseFile(c, p, acknowledged);
            && (ok <==> p in c.handles && p !in c'.handles && p in c'.cache)
            && (ok ==> p !in c'.mutexes && p in c.cache && !c'.cache[p] && (c.cache[p] ==> acknowledged))
            && (ok && c.cache[p] && p in c.attr ==> p in c'.attr && p in c.disk && c'.attr[p] == |c.disk[p]|)
            && (!ok && p in c.cache ==> c'.cache == c.cache && (p in c.handles <==> p in c'.handles) && c'.attr == c.attr)
            && OnlyAbout(c, c', p) && c'.disk == c.disk
  {
  }

  /** A modified file that is open, with a mutex, a local copy and a sound stream, is closed exactly if
      an upload is acknowledged. If none is, its streams are closed: nothing can be read or written,
      and it can be closed once more in the same way. After two such failures no close gets as far as
      an upload, until a write, itself refused, clears the stream's failure. */
  lemma FailedCloses(c: Client, p: Path, acknowledged: bool, size: nat, off: int, data: Bytes, pos: int)
    requires p in c.cache && c.cache[p] && FreshlyOpen(c, p) && p in c.disk
    ensures CloseFile(c, p, acknowledged).1 <==> acknowledged
    ensures var c1 := CloseFile(c, p, false).0;
            && ReadFile(c1, p, size, off).1 == NotRead && !WriteFile(c1, p, data, pos).1
            && (CloseFile(c1, p, acknowledged).1 <==> acknowledged)
            && var c2 := CloseFile(c1, p, false).0;
            && CloseFile(c2, p, acknowledged) == (c2, false)
            && var c3 := WriteFile(c2, p, data, pos).0;
            && !WriteFile(c2, p, data, pos).1 && (CloseFile(c3, p, acknowledged).1 <==> acknowledged)
  {
    var c1 := CloseFile(c, p, false).0;
    assert c1.handles[p] == Handle(false, false, true);
    var c2 := CloseFile(c1, p, false).0;
    assert c2.handles[p] == Handle(true, true, true);
    var c3 := WriteFile(c2, p, data, pos).0;
    assert c3.handles[p] == Handle(true, false, true);
  }

  /** delete_file drops entry, streams and mutex under the one path and the attributes under the other,
      whatever the server answers; the local copy goes exactly if the server did delete the file, which
      is also the answer. */
  lemma DeleteEffect(c: Client, local: Path, p: Path, deleted: bool, r: Path)
    ensures var (c', ok) := DeleteAt(c, local, p, deleted);
            && ok == deleted
            && local !in c'.cache && local !in c'.handles && local !in c'.mutexes && p !in c'.attr
            && (local in c'.disk <==> local in c.disk && !deleted)
            && (r != local ==>
                  && SameAt(c.cache, c'.cache, r) && SameAt(c.handles, c'.handles, r)
                  && (r in c.mutexes <==> r in c'.mutexes) && SameAt(c.disk, c'.disk, r))
            && (r != p ==> SameAt(c.attr, c'.attr, r))
            && (!deleted ==> c'.disk == c.disk)
  {
  }

  /** get_attributes answers from the cache if it can; otherwise with what the server says, which it
      remembers if it is a size. */
  lemma AttributesEffect(c: Client, p: Path, reply: AttrReply)
    ensures var (c', r) := GetAttributes(c, p, reply);
            && r == (if p in c.attr then Size(c.attr[p]) else reply)
            && (p in c'.attr <==> r.Size?) && (r.Size? ==> c'.attr[p] == r.size)
            && OnlyAbout(c, c', p)
            && c'.cache == c.cache && c'.handles == c.handles && c'.mutexes == c.mutexes && c'.disk == c.disk
  {
  }
}
