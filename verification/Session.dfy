/**
 What a session on one open file sees and leaves behind, whatever the other clients do.
 */
module Session {
  import opened Wire
  import opened Keys
  import opened Notifications
  import opened ClientModel
  import opened System
  import opened Coherence
  import opened ClientEffects
  import opened Transfers

  // c has p open, on streams no close has touched.
  ghost predicate InSession(w: World, c: Cid, p: Path) {
    && c in w.nodes && p in w.nodes[c].client.disk && Usable(w.nodes[c].client, p)
    && !w.nodes[c].client.handles[p].closed && !w.nodes[c].client.handles[p].writeFailed
  }

  // Other clients do what they like, notes arrive as they will, and c itself neither closes
  // nor deletes nor renames p.
  predicate KeepsSession(st: Step, c: Cid, p: Path) {
    st.c == c && !st.Forward? && !st.Deliver? && !st.Disconnect? && !st.Join? ==>
      if st.Rename? then st.p != p && st.q != p
      else st.p == p ==> st.Read? || st.Write? || st.GetAttr? || st.Open? || st.Create?
  }

  // A write c makes to p during the session.
  predicate IsWrite(st: Step, c: Cid, p: Path) {
    st.Write? && st.c == c && st.p == p && st.pos >= 0
  }

  function AfterStep(b: Bytes, st: Step, c: Cid, p: Path): Bytes {
    if IsWrite(st, c, p) then Overlay(b, st.pos, st.data) else b
  }

  // The writes of the session, laid over the file one after the other.
  function AfterWrites(b: Bytes, steps: seq<Step>, c: Cid, p: Path): Bytes
    decreases |steps|
  {
    if steps == [] then b else AfterWrites(AfterStep(b, steps[0], c, p), steps[1..], c, p)
  }

  predicate AnyWrite(steps: seq<Step>, c: Cid, p: Path) {
    exists i :: 0 <= i < |steps| && IsWrite(steps[i], c, p)
  }

  // A read that comes up short, or seeks before the start, spoils its stream.
  predicate Spoils(b: Bytes, st: Step, c: Cid, p: Path) {
    st.Read? && st.c == c && st.p == p && (st.off < 0 || (st.size > 0 && st.off + st.size > |b|))
  }

  predicate Spoiled(b: Bytes, steps: seq<Step>, c: Cid, p: Path)
    decreases |steps|
  {
    steps != [] && (Spoils(b, steps[0], c, p) || Spoiled(AfterStep(b, steps[0], c, p), steps[1..], c, p))
  }

  ghost predicate SessionOver(w: World, w': World, c: Cid, p: Path, b: Bytes, wrote: bool, spoiled: bool)
    requires InSession(w, c, p)
  {
    && InSession(w', c, p)
    && w'.nodes[c].client.disk[p] == b
    && w'.nodes[c].client.cache[p] == (w.nodes[c].client.cache[p] || wrote)
    && w'.nodes[c].client.handles[p].readFailed == (w.nodes[c].client.handles[p].readFailed || spoiled)
  }

  lemma SessionOpen(w: World, c: Cid, p: Path, r: Path, down: seq<DownNet>)
    requires InSession(w, c, p) && Enabled(w, Open(c, r, down))
    ensures SessionOver(w, NextOpen(w, c, r, down), c, p, w.nodes[c].client.disk[p], false, false)
  {
    if r !in w.nodes[c].client.cache {
      DownloadMeaning(w.nodes[c].client, r, Replies(w.server.files, r, down));
    }
  }

  lemma SessionClose(w: World, c: Cid, p: Path, r: Path, up: seq<UpNet>)
    requires InSession(w, c, p) && Enabled(w, Close(c, r, up)) && r != p
    ensures SessionOver(w, NextClose(w, c, r, up), c, p, w.nodes[c].client.disk[p], false, false)
  {
  }

  lemma SessionRename(w: World, c: Cid, p: Path, st: Step)
    requires InSession(w, c, p) && Enabled(w, st) && st.Rename? && KeepsSession(st, c, p)
    ensures SessionOver(w, Next(w, st), c, p, w.nodes[c].client.disk[p], false, false)
  {
  }

  lemma SessionEdit(w: World, c: Cid, p: Path, st: Step)
    requires InSession(w, c, p) && Enabled(w, st) && KeepsSession(st, c, p)
    requires st.Read? || st.Write? || st.Create? || st.GetAttr?
    ensures var b := w.nodes[c].client.disk[p];
            SessionOver(w, Next(w, st), c, p, AfterStep(b, st, c, p), IsWrite(st, c, p), Spoils(b, st, c, p))
  {
    if st.Read? && st.off >= 0 { SliceMeaning(w.nodes[c].client.disk[p], st.off, st.size); }
  }

  lemma SessionStep(w: World, st: Step, c: Cid, p: Path)
    requires InSession(w, c, p) && Enabled(w, st) && KeepsSession(st, c, p)
    ensures var b := w.nodes[c].client.disk[p];
            SessionOver(w, Next(w, st), c, p, AfterStep(b, st, c, p), IsWrite(st, c, p), Spoils(b, st, c, p))
  {
    if st.c != c {
      OthersUntouched(w, st, c);
      return;
    }
    match st
    case Open(_, r, down) => SessionOpen(w, c, p, r, down);
    case Close(_, r, up) => SessionClose(w, c, p, r, up);
    case Rename(_, _, _, _) => SessionRename(w, c, p, st);
    case Read(_, _, _, _) => SessionEdit(w, c, p, st);
    case Write(_, _, _, _) => SessionEdit(w, c, p, st);
    case Create(_, _) => SessionEdit(w, c, p, st);
    case GetAttr(_, _, _) => SessionEdit(w, c, p, st);
    case _ =>
  }

  lemma {:induction false} SessionRun(w: World, steps: seq<Step>, c: Cid, p: Path)
    requires InSession(w, c, p) && Legal(w, steps)
    requires forall i :: 0 <= i < |steps| ==> KeepsSession(steps[i], c, p)
    ensures var b := w.nodes[c].client.disk[p];
            SessionOver(w, Run(w, steps), c, p, AfterWrites(b, steps, c, p),
                        AnyWrite(steps, c, p), Spoiled(b, steps, c, p))
    decreases |steps|
  {
    if steps != [] {
      var st, rest := steps[0], steps[1..];
      SessionStep(w, st, c, p);
      SessionRun(Next(w, st), rest, c, p);
      if AnyWrite(steps, c, p) && !IsWrite(st, c, p) {
        var i :| 0 <= i < |steps| && IsWrite(steps[i], c, p);
        assert IsWrite(rest[i - 1], c, p);
      }
      if i :| 0 <= i < |rest| && IsWrite(rest[i], c, p) { assert IsWrite(steps[i + 1], c, p); }
    }
  }

  // An open_file that goes through and opens the streams: after a download, or on the local copy.
  predicate Opens(w: World, c: Cid, p: Path, down: seq<DownNet>) {
    && Enabled(w, Open(c, p, down)) && p !in w.nodes[c].client.handles
    && OpenFile(w.nodes[c].client, p, Replies(w.server.files, p, down)).1
  }

  // The bytes the session starts from.
  function Opened(w: World, c: Cid, p: Path, down: seq<DownNet>): Bytes
    requires Opens(w, c, p, down)
  {
    var cl := w.nodes[c].client;
    if p in cl.cache then if p in cl.disk then cl.disk[p] else []
    else if p in w.server.files then w.server.files[p] else []
  }

  lemma SessionBegins(w: World, c: Cid, p: Path, down: seq<DownNet>)
    requires Struct(w) && Opens(w, c, p, down)
    ensures p in w.nodes[c].client.cache ==> p in w.nodes[c].client.disk
    ensures p !in w.nodes[c].client.cache ==> p in w.server.files
    ensures var w' := NextOpen(w, c, p, down);
            && InSession(w', c, p) && w'.nodes[c].client.disk[p] == Opened(w, c, p, down)
            && !w'.nodes[c].client.cache[p] && !w'.nodes[c].client.handles[p].readFailed
  {
    assert Shape(w.nodes[c]);
    if p in w.nodes[c].client.cache {
      OpenHitEffect(w.nodes[c].client, p, Replies(w.server.files, p, down));
    } else {
      DownloadUnderRetries(w.server.files, w.nodes[c].client, p, down);
    }
  }

  lemma ReadInSession(w: World, c: Cid, p: Path, size: nat, off: nat)
    requires InSession(w, c, p)
    ensures var b, r := w.nodes[c].client.disk[p], ReadFile(w.nodes[c].client, p, size, off).1;
            if w.nodes[c].client.handles[p].readFailed then r == NotRead
            else r.Data? && Reads(b, off, size, r.bytes)
  {
    SliceMeaning(w.nodes[c].client.disk[p], off, size);
  }

  // data is what b holds from off on: size bytes, or as many as there are.
  predicate Reads(b: Bytes, off: nat, size: nat, data: Bytes) {
    && |data| == (if off >= |b| then 0 else if off + size <= |b| then size else |b| - off)
    && forall i :: 0 <= i < |data| ==> data[i] == b[off + i]
  }

  /** A read returns the requested bytes of the file as it was opened, downloaded or from the local
      copy, with the session's writes laid over it, fewer only at its end, exactly when no earlier
      read of the session came up short or failed to seek. Other clients' steps in between change
      nothing. */
  lemma ReadsSeeTheSession(w: World, c: Cid, p: Path, down: seq<DownNet>, steps: seq<Step>, size: nat, off: nat)
    requires Struct(w) && Opens(w, c, p, down)
    requires Legal(Next(w, Open(c, p, down)), steps)
    requires forall i :: 0 <= i < |steps| ==> KeepsSession(steps[i], c, p)
    ensures var b, w' := Opened(w, c, p, down), Run(Next(w, Open(c, p, down)), steps);
            c in w'.nodes &&
            var r := ReadFile(w'.nodes[c].client, p, size, off).1;
            if Spoiled(b, steps, c, p) then r == NotRead
            else r.Data? && Reads(AfterWrites(b, steps, c, p), off, size, r.bytes)
  {
    SessionBegins(w, c, p, down);
    var inside := NextOpen(w, c, p, down);
    SessionRun(inside, steps, c, p);
    ReadInSession(Run(inside, steps), c, p, size, off);
  }

  // A close of an open session that gets through.
  lemma CloseEndsSession(w: World, c: Cid, p: Path, up: seq<UpNet>)
    requires InSession(w, c, p) && Enabled(w, Close(c, p, up))
    requires exists i :: 0 <= i < |up| && up[i].finished
    ensures var cl, w' := w.nodes[c].client, NextClose(w, c, p, up);
            && (cl.cache[p] ==> w'.server.files == w.server.files[p := cl.disk[p]])
            && (!cl.cache[p] ==> w'.server == w.server)
            && c in w'.nodes && p !in w'.nodes[c].client.handles
            && p in w'.nodes[c].client.cache && !w'.nodes[c].client.cache[p]
  {
    UploadUnderRetries(w.server, c, p, w.nodes[c].client.disk[p], up);
  }

  /** Open, any number of writes, then a close that succeeds: the server holds the file as it was
      opened with the writes laid over it, whatever other clients did to it meanwhile. With no write
      the close sends nothing and the server is left alone. */
  lemma SessionEndsOnTheServer(w: World, c: Cid, p: Path, down: seq<DownNet>, steps: seq<Step>, up: seq<UpNet>)
    requires Struct(w) && Opens(w, c, p, down)
    requires Legal(Next(w, Open(c, p, down)), steps)
    requires forall i :: 0 <= i < |steps| ==> KeepsSession(steps[i], c, p)
    requires Enabled(Run(Next(w, Open(c, p, down)), steps), Close(c, p, up))
    requires exists i :: 0 <= i < |up| && up[i].finished
    ensures var before := Run(Next(w, Open(c, p, down)), steps);
            var w' := Next(before, Close(c, p, up));
            && (AnyWrite(steps, c, p) ==>
                  w'.server.files == before.server.files[p := AfterWrites(Opened(w, c, p, down), steps, c, p)])
            && (!AnyWrite(steps, c, p) ==> w'.server == before.server)
            && p !in w'.nodes[c].client.handles && p in w'.nodes[c].client.cache && !w'.nodes[c].client.cache[p]
  {
    SessionBegins(w, c, p, down);
    var inside := NextOpen(w, c, p, down);
    SessionRun(inside, steps, c, p);
    CloseEndsSession(Run(inside, steps), c, p, up);
  }

  // ------------------------------------------------------------------------ what a close answers

  // The answer of close_file, given what happened to its upload attempts.
  function CloseAnswer(w: World, c: Cid, p: Path, up: seq<UpNet>): bool
    requires c in w.nodes
  {
    var cl := w.nodes[c].client;
    CloseFile(cl, p, Uploads(cl, p) && UploadRpcs(w.server, c, p, cl.disk[p], up).1).1
  }

  /** A close of a modified file that answers true has left the client's bytes on the server and the
      entry clean and closed; one that answers false has left the file open, cached, modified and with
      the same bytes. In a session it answers true exactly if an upload attempt was finished. */
  lemma CloseAnswersTruly(w: World, c: Cid, p: Path, up: seq<UpNet>)
    requires Struct(w) && Enabled(w, Close(c, p, up))
    requires p in w.nodes[c].client.cache && w.nodes[c].client.cache[p]
    ensures var cl, w' := w.nodes[c].client, NextClose(w, c, p, up);
            var cl' := w'.nodes[c].client;
            && p in cl.disk && p in cl'.disk && cl'.disk[p] == cl.disk[p] && p in cl'.cache
            && (CloseAnswer(w, c, p, up) ==>
                  && p in w'.server.files && w'.server.files[p] == cl.disk[p]
                  && !cl'.cache[p] && p !in cl'.handles)
            && (!CloseAnswer(w, c, p, up) ==> cl'.cache[p] && p in cl'.handles)
            && (InSession(w, c, p) ==> (CloseAnswer(w, c, p, up) <==> exists i :: 0 <= i < |up| && up[i].finished))
  {
    var cl := w.nodes[c].client;
    assert Shape(w.nodes[c]);
    if Uploads(cl, p) {
      UploadUnderRetries(w.server, c, p, cl.disk[p], up);
      CloseEffect(cl, p, UploadRpcs(w.server, c, p, cl.disk[p], up).1);
    } else {
      CloseEffect(cl, p, false);
    }
  }
}
