/**
 The windows of the small-step model: runs in which a note read at the wrong moment costs a client
 its coherence, or an open file its cache entry, and one in which no note is sent.
 */
module FineDepartures {
  import opened Wire
  import opened Notifications
  import opened FineCoherence
  import FineServer

  // Some run leads to w.
  ghost predicate Reached(file: Bytes, subscribers: set<Cid>, w: World) {
    exists steps :: Legal(Init(file, subscribers), steps) && Run(Init(file, subscribers), steps) == w
  }

  lemma {:induction false} OneMore(w: World, steps: seq<Step>, st: Step)
    requires Legal(w, steps) && Enabled(Run(w, steps), st)
    ensures Legal(w, steps + [st]) && Run(w, steps + [st]) == Next(Run(w, steps), st)
    decreases |steps|
  {
    var all := steps + [st];
    if steps == [] {
      assert all[1..] == [];
    } else {
      OneMore(Next(w, steps[0]), steps[1..], st);
      assert all[1..] == steps[1..] + [st];
    }
  }

  lemma Reach(file: Bytes, subscribers: set<Cid>, w: World, st: Step)
    requires Reached(file, subscribers, w) && Enabled(w, st)
    ensures Reached(file, subscribers, Next(w, st))
  {
    var steps :| Legal(Init(file, subscribers), steps) && Run(Init(file, subscribers), steps) == w;
    OneMore(Init(file, subscribers), steps, st);
  }

  const R: set<Cid> := {"r"}

  // Client r has read its one byte; since then it may have begun a close of its own.
  function AtServer(file: Bytes, told: map<Cid, nat>, selfClose: bool,
                    closers: map<Handler, FineServer.Closer>): FineServer.State {
    FineServer.State(file, R, R, told, map[0 := FineServer.Opener("r", 0, [2], true, selfClose)], closers)
  }

  // Client w closes the file with one new byte.
  function Closing(written: nat, scanned: bool): FineServer.Closer {
    FineServer.Closer("w", [1], written, scanned, 0, false, false)
  }

  lemma OneByteWritten(b: Bytes, data: Bytes)
    requires |b| <= 1 && |data| == 1
    ensures data[0..1] == data && Overlay(b, 0, data) == data
  {
  }

  lemma TruncateEffect(selfClose: bool, closers: map<Handler, FineServer.Closer>, file: Bytes)
    requires 2 !in closers && forall k :: k in closers ==> closers[k].c != "w"
    ensures FineServer.Enabled(AtServer(file, map[], selfClose, closers), FineServer.Truncate(2, "w", [1]))
    ensures FineServer.Next(AtServer(file, map[], selfClose, closers), FineServer.Truncate(2, "w", [1])) ==
            AtServer([], map[], selfClose, closers[2 := Closing(0, false)])
  {
    var s := AtServer(file, map[], selfClose, closers);
    assert FineServer.SelfClose(s.openers, "w") == s.openers;
    assert FineServer.Overlap(closers, "w") == closers;
  }

  lemma WriteEffect(file: Bytes, selfClose: bool, closers: map<Handler, FineServer.Closer>)
    requires |file| <= 1 && 2 in closers && closers[2] == Closing(0, false)
    ensures FineServer.Enabled(AtServer(file, map[], selfClose, closers), FineServer.WritePiece(2, 1))
    ensures FineServer.Next(AtServer(file, map[], selfClose, closers), FineServer.WritePiece(2, 1)) ==
            AtServer([1], map[], selfClose, closers[2 := Closing(1, false)])
  {
    OneByteWritten(file, [1]);
  }

  lemma ScanEffect(file: Bytes, selfClose: bool, closers: map<Handler, FineServer.Closer>)
    requires 2 in closers && closers[2] == Closing(1, false)
    ensures FineServer.Enabled(AtServer(file, map[], selfClose, closers), FineServer.Scan(2))
    ensures FineServer.Next(AtServer(file, map[], selfClose, closers), FineServer.Scan(2)) ==
            AtServer(file, map["r" := 1], selfClose, closers[2 := Closing(1, true)])
  {
    assert (R - {"w"}) * R == R && "r" in R;
  }

  // Some run leads to server s with r, the only client, as l.
  ghost predicate ReachedAt(s: FineServer.State, l: Local) {
    Reached([2], R, World(s, map["r" := l]))
  }

  // A step of the server alone.
  lemma ServerMoves(s: FineServer.State, l: Local, st: FineServer.Step, s': FineServer.State)
    requires ReachedAt(s, l) && FineServer.Enabled(s, st) && !st.Register? && s' == FineServer.Next(s, st)
    ensures ReachedAt(s', l)
  {
    Reach([2], R, World(s, map["r" := l]), Server(st));
  }

  // A step of r alone.
  lemma ClientMoves(s: FineServer.State, l: Local, st: Step, l': Local)
    requires ReachedAt(s, l) && Enabled(World(s, map["r" := l]), st)
    requires !st.Server? && !st.Fetch? && !st.StartUpload? && !st.RetryUpload? && st.c == "r"
    requires At(Next(World(s, map["r" := l]), st), "r") == l'
    ensures ReachedAt(s, l')
  {
    Reach([2], R, World(s, map["r" := l]), st);
    assert Next(World(s, map["r" := l]), st) == World(s, map["r" := l']);
  }

  // r opens and closes the file it has just entered into the cache.
  lemma OpensAndCloses(s: FineServer.State, l: Local)
    requires ReachedAt(s, l) && l.opening && !l.dirty && !l.open
    ensures ReachedAt(s, l.(opening := false))
  {
    var l1 := l.(opening := false, open := true);
    ClientMoves(s, l, OpenStreams("r"), l1);
    ClientMoves(s, l1, Close("r"), l.(opening := false));
  }

  const FETCHING: Local := NEW.(entry := Fetching(0))
  const ENTERED: Local := NEW.(entry := Downloaded(0), opening := true)

  // Client r has downloaded one byte.
  lemma Fetched()
    ensures ReachedAt(AtServer([2], map[], false, map[]), FETCHING)
  {
    var w := Init([2], R);
    assert Legal(w, []) && Run(w, []) == w;
    Reach([2], R, w, Fetch("r", 0));
    w := Next(w, Fetch("r", 0));
    assert w.locals == map["r" := FETCHING];
    assert Slice([2], 0, 4) == [2] && [] + [2] == [2];
    ServerMoves(w.s, FETCHING, FineServer.ReadPiece(0, 4), AtServer([2], map[], false, map[]));
  }

  // And entered it into the cache.
  lemma FetchedAndEntered()
    ensures ReachedAt(AtServer([2], map[], false, map[]), ENTERED)
  {
    Fetched();
    ClientMoves(AtServer([2], map[], false, map[]), FETCHING, Enter("r"), ENTERED);
  }

  // Client w replaces the byte.
  lemma ChangedMeanwhile(l: Local)
    requires ReachedAt(AtServer([2], map[], false, map[]), l)
    ensures ReachedAt(AtServer([1], map["r" := 1], false, map[2 := Closing(1, true)]), l)
  {
    var s0, s1 := AtServer([2], map[], false, map[]), AtServer([], map[], false, map[2 := Closing(0, false)]);
    TruncateEffect(false, map[], [2]);
    ServerMoves(s0, l, FineServer.Truncate(2, "w", [1]), s1);
    var s2 := AtServer([1], map[], false, map[2 := Closing(1, false)]);
    WriteEffect([], false, map[2 := Closing(0, false)]);
    assert map[2 := Closing(0, false)][2 := Closing(1, false)] == map[2 := Closing(1, false)];
    ServerMoves(s1, l, FineServer.WritePiece(2, 1), s2);
    ScanEffect([1], false, map[2 := Closing(1, false)]);
    assert map[2 := Closing(1, false)][2 := Closing(1, true)] == map[2 := Closing(1, true)];
    ServerMoves(s2, l, FineServer.Scan(2), AtServer([1], map["r" := 1], false, map[2 := Closing(1, true)]));
  }

  // r holds old bytes, nothing is running, and nothing is on its way.
  predicate QuietlyStale(w: World) {
    && Holds(w, "r") && Held(w, "r") != w.s.file && !At(w, "r").open
    && (forall k :: k in w.s.closers ==> w.s.closers[k].scanned)
    && At(w, "r").seen == FineServer.Told(w.s, "r")
  }

  /** The first window: a note that arrives when the download is complete but not yet in the cache
      is lost. The client goes on to cache, and keep, the old bytes, with nothing on its way. */
  lemma NoteBeforeEntryIsLost() returns (w: World)
    ensures Reached([2], R, w) && QuietlyStale(w)
    ensures At(w, "r").entry.Downloaded?
  {
    Fetched();
    ChangedMeanwhile(FETCHING);
    var s := AtServer([1], map["r" := 1], false, map[2 := Closing(1, true)]);
    var l := FETCHING.(seen := 1);
    ClientMoves(s, FETCHING, Deliver("r"), l);
    var l1 := l.(entry := Downloaded(0), opening := true);
    ClientMoves(s, l, Enter("r"), l1);
    OpensAndCloses(s, l1);
    w := World(s, map["r" := l1.(opening := false)]);
  }

  /** The second window: a note that arrives between the cache entry and the streams takes the
      entry away from a file about to be open. It is then open and not cached, so that reads and
      writes are refused. */
  lemma NoteBeforeStreamsEmptiesOpenFile() returns (w: World)
    ensures Reached([2], R, w)
    ensures At(w, "r").open && At(w, "r").entry.Absent?
  {
    FetchedAndEntered();
    ChangedMeanwhile(ENTERED);
    var s := AtServer([1], map["r" := 1], false, map[2 := Closing(1, true)]);
    var l := ENTERED.(entry := Absent, seen := 1);
    ClientMoves(s, ENTERED, Deliver("r"), l);
    var l1 := l.(opening := false, open := true);
    ClientMoves(s, l, OpenStreams("r"), l1);
    w := World(s, map["r" := l1]);
  }

  // r's own close of data.
  function Own(data: Bytes, written: nat, scanned: bool, overlap: bool): FineServer.Closer {
    FineServer.Closer("r", data, written, scanned, 0, true, overlap)
  }

  // r uploading what it has made of the file.
  function Sending(bytes: Bytes): Local {
    NEW.(entry := Downloaded(0), open := true, dirty := true, upload := Uploading(bytes, 1))
  }

  const CHANGED: Local := NEW.(entry := Downloaded(0), open := true, dirty := true)

  // r opens the file and changes it.
  lemma FileChanged()
    ensures ReachedAt(AtServer([2], map[], false, map[]), CHANGED)
  {
    FetchedAndEntered();
    var s := AtServer([2], map[], false, map[]);
    var l := ENTERED.(opening := false, open := true);
    ClientMoves(s, ENTERED, OpenStreams("r"), l);
    ClientMoves(s, l, Write("r"), CHANGED);
  }

  // And begins the upload.
  lemma UploadBegun(bytes: Bytes)
    ensures ReachedAt(AtServer([], map[], true, map[1 := Own(bytes, 0, false, false)]), Sending(bytes))
  {
    FileChanged();
    var s := AtServer([2], map[], false, map[]);
    var l1 := CHANGED;
    var st := StartUpload("r", 1, bytes, |bytes|);
    assert bytes[..|bytes|] == bytes;
    var w := World(s, map["r" := l1]);
    Reach([2], R, w, st);
    OwnTruncateEffect(bytes);
    assert Next(w, st).locals == map["r" := Sending(bytes)];
  }

  lemma OwnTruncateEffect(bytes: Bytes)
    ensures FineServer.Next(AtServer([2], map[], false, map[]), FineServer.Truncate(1, "r", bytes)) ==
            AtServer([], map[], true, map[1 := Own(bytes, 0, false, false)])
  {
    var s := AtServer([2], map[], false, map[]);
    assert FineServer.SelfClose(s.openers, "r") == AtServer([2], map[], true, map[]).openers;
  }

  lemma OwnCloseEffect()
    ensures var s := AtServer([], map[], true, map[1 := Own([3], 0, false, false), 2 := Closing(0, false)]);
            var s' := AtServer([3], map[], true, map[1 := Own([3], 1, false, false), 2 := Closing(0, false)]);
            && FineServer.Enabled(s, FineServer.WritePiece(1, 1))
            && FineServer.Next(s, FineServer.WritePiece(1, 1)) == s'
            && FineServer.Enabled(s', FineServer.Scan(1))
            && FineServer.Next(s', FineServer.Scan(1)) ==
               AtServer([3], map[], true, map[1 := Own([3], 1, true, false), 2 := Closing(0, false)])
  {
    OneByteWritten([], [3]);
    var s := AtServer([], map[], true, map[1 := Own([3], 0, false, false), 2 := Closing(0, false)]);
    var s' := AtServer([3], map[], true, map[1 := Own([3], 1, false, false), 2 := Closing(0, false)]);
    assert FineServer.Next(s, FineServer.WritePiece(1, 1)).closers == s'.closers;
    assert (R - {"r"}) * R == {};
    assert FineServer.Next(s', FineServer.Scan(1)).told == map[];
  }

  // Its bytes arrive and are announced while w is closing the file too.
  lemma OwnUploadArrives()
    ensures ReachedAt(AtServer([3], map[], true, map[1 := Own([3], 1, true, false), 2 := Closing(0, false)]), Sending([3]))
  {
    UploadBegun([3]);
    var closers := map[1 := Own([3], 0, false, false)];
    TruncateEffect(true, closers, []);
    assert closers[2 := Closing(0, false)] == map[1 := Own([3], 0, false, false), 2 := Closing(0, false)];
    var s := AtServer([], map[], true, map[1 := Own([3], 0, false, false), 2 := Closing(0, false)]);
    ServerMoves(AtServer([], map[], true, closers), Sending([3]), FineServer.Truncate(2, "w", [1]), s);
    OwnCloseEffect();
    var s1 := AtServer([3], map[], true, map[1 := Own([3], 1, false, false), 2 := Closing(0, false)]);
    ServerMoves(s, Sending([3]), FineServer.WritePiece(1, 1), s1);
    var s2 := AtServer([3], map[], true, map[1 := Own([3], 1, true, false), 2 := Closing(0, false)]);
    ServerMoves(s1, Sending([3]), FineServer.Scan(1), s2);
  }

  // Then w's bytes do.
  lemma BothUpload()
    ensures ReachedAt(AtServer([1], map["r" := 1], true, map[1 := Own([3], 1, true, false), 2 := Closing(1, true)]),
                      Sending([3]))
  {
    OwnUploadArrives();
    var c0 := map[1 := Own([3], 1, true, false), 2 := Closing(0, false)];
    var c1 := map[1 := Own([3], 1, true, false), 2 := Closing(1, false)];
    var c2 := map[1 := Own([3], 1, true, false), 2 := Closing(1, true)];
    WriteEffect([3], true, c0);
    assert c0[2 := Closing(1, false)] == c1;
    ServerMoves(AtServer([3], map[], true, c0), Sending([3]), FineServer.WritePiece(2, 1), AtServer([1], map[], true, c1));
    ScanEffect([1], true, c1);
    assert c1[2 := Closing(1, true)] == c2;
    ServerMoves(AtServer([1], map[], true, c1), Sending([3]), FineServer.Scan(2), AtServer([1], map["r" := 1], true, c2));
  }

  /** The third window: the file counts as open until its upload is acknowledged, so a note about
      another client's close that overwrote the upload is dropped. The client then marks clean, and
      keeps, bytes the server no longer has. */
  lemma NoteDuringUploadIsLost() returns (w: World)
    ensures Reached([2], R, w) && QuietlyStale(w)
    ensures At(w, "r").entry.Uploaded?
  {
    BothUpload();
    var s := AtServer([1], map["r" := 1], true, map[1 := Own([3], 1, true, false), 2 := Closing(1, true)]);
    var l := Sending([3]).(seen := 1);
    ClientMoves(s, Sending([3]), Deliver("r"), l);
    var l1 := NEW.(entry := Uploaded(1), seen := 1);
    ClientMoves(s, l, FinishUpload("r"), l1);
    w := World(s, map["r" := l1]);
  }

  lemma TwoByteEffect()
    ensures var s := AtServer([], map[], true, map[1 := Own([3, 4], 0, false, false)]);
            var s1 := AtServer([3, 4], map[], true, map[1 := Own([3, 4], 2, false, false)]);
            && FineServer.Enabled(s, FineServer.WritePiece(1, 2)) && FineServer.Next(s, FineServer.WritePiece(1, 2)) == s1
            && FineServer.Enabled(s1, FineServer.Scan(1))
            && FineServer.Next(s1, FineServer.Scan(1)) ==
               AtServer([3, 4], map[], true, map[1 := Own([3, 4], 2, true, false)])
  {
    var data: Bytes := [3, 4];
    assert data[0..2] == data && Overlay([], 0, data) == data;
    assert (R - {"r"}) * R == {};
    var s1 := AtServer([3, 4], map[], true, map[1 := Own([3, 4], 2, false, false)]);
    assert FineServer.Next(s1, FineServer.Scan(1)).told == map[];
  }

  lemma LateEffect()
    ensures var s := AtServer([3, 4], map[], true, map[1 := Own([3, 4], 2, true, false)]);
            var s1 := AtServer([], map[], true,
                               map[1 := Own([3, 4], 2, true, true), 2 := Own([3], 0, false, false)]);
            && FineServer.Enabled(s, FineServer.Truncate(2, "r", [3]))
            && FineServer.Next(s, FineServer.Truncate(2, "r", [3])) == s1
  {
    var s := AtServer([3, 4], map[], true, map[1 := Own([3, 4], 2, true, false)]);
    var s' := FineServer.Next(s, FineServer.Truncate(2, "r", [3]));
    assert s'.openers == s.openers;
    assert s'.closers == map[1 := Own([3, 4], 2, true, true), 2 := Own([3], 0, false, false)];
  }

  lemma LateRestEffect()
    ensures var s := AtServer([], map[], true,
                              map[1 := Own([3, 4], 2, true, true), 2 := Own([3], 0, false, false)]);
            var s1 := AtServer([3], map[], true,
                               map[1 := Own([3, 4], 2, true, true), 2 := Own([3], 1, false, false)]);
            && FineServer.Enabled(s, FineServer.WritePiece(2, 1)) && FineServer.Next(s, FineServer.WritePiece(2, 1)) == s1
            && FineServer.Enabled(s1, FineServer.Scan(2))
            && FineServer.Next(s1, FineServer.Scan(2)) ==
               AtServer([3], map[], true,
                        map[1 := Own([3, 4], 2, true, true), 2 := Own([3], 1, true, false)])
  {
    OneByteWritten([], [3]);
    assert (R - {"r"}) * R == {};
    var s1 := AtServer([3], map[], true,
                       map[1 := Own([3, 4], 2, true, true), 2 := Own([3], 1, false, false)]);
    assert FineServer.Next(s1, FineServer.Scan(2)).told == map[];
  }

  // Two bytes, written and uploaded by r.
  lemma TwoBytesAcknowledged()
    ensures ReachedAt(AtServer([3, 4], map[], true, map[1 := Own([3, 4], 2, true, false)]), NEW.(entry := Uploaded(1)))
  {
    UploadBegun([3, 4]);
    TwoByteEffect();
    var s := AtServer([], map[], true, map[1 := Own([3, 4], 0, false, false)]);
    var s1 := AtServer([3, 4], map[], true, map[1 := Own([3, 4], 2, false, false)]);
    ServerMoves(s, Sending([3, 4]), FineServer.WritePiece(1, 2), s1);
    var s2 := AtServer([3, 4], map[], true, map[1 := Own([3, 4], 2, true, false)]);
    ServerMoves(s1, Sending([3, 4]), FineServer.Scan(1), s2);
    ClientMoves(s2, Sending([3, 4]), FinishUpload("r"), NEW.(entry := Uploaded(1)));
  }

  /** And without any note: the close of an attempt the client has abandoned, cut after the first of
      two bytes, gets to the file when the upload has been acknowledged. It cuts the upload short,
      and its announcement leaves out the client, which keeps both bytes. (Bytes stand for the
      chunks of a longer file.) */
  lemma AbandonedAttemptCutsUpload() returns (w: World)
    ensures Reached([2], R, w) && QuietlyStale(w)
    ensures At(w, "r").entry.Uploaded? && Held(w, "r") == [3, 4] && w.s.file == [3]
    ensures forall k :: k in w.s.closers ==> w.s.closers[k].c == "r"
  {
    LateAttemptArrives();
    var s := AtServer([3], map[], true, map[1 := Own([3, 4], 2, true, true), 2 := Own([3], 1, true, false)]);
    w := World(s, map["r" := NEW.(entry := Uploaded(1))]);
  }

  lemma LateAttemptArrives()
    ensures ReachedAt(AtServer([3], map[], true, map[1 := Own([3, 4], 2, true, true), 2 := Own([3], 1, true, false)]),
                      NEW.(entry := Uploaded(1)))
  {
    TwoBytesAcknowledged();
    var l := NEW.(entry := Uploaded(1));
    var s := AtServer([3, 4], map[], true, map[1 := Own([3, 4], 2, true, false)]);
    var s1 := AtServer([], map[], true, map[1 := Own([3, 4], 2, true, true), 2 := Own([3], 0, false, false)]);
    LateEffect();
    ServerMoves(s, l, FineServer.Truncate(2, "r", [3]), s1);
    var s2 := AtServer([3], map[], true, map[1 := Own([3, 4], 2, true, true), 2 := Own([3], 1, false, false)]);
    LateRestEffect();
    ServerMoves(s1, l, FineServer.WritePiece(2, 1), s2);
    var s3 := AtServer([3], map[], true, map[1 := Own([3, 4], 2, true, true), 2 := Own([3], 1, true, false)]);
    ServerMoves(s2, l, FineServer.Scan(2), s3);
  }
}
