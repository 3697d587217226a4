/**
 One path, from the server's file to the clients' caches, in small steps: to FineServer's
 interleaving of opens and closes come the client's ends of open_file and close_file, which take
 several steps each, and the arrival of notes at any time.
 */
module FineCoherence {
  import opened Wire
  import opened Keys
  import opened Notifications
  import ClientModel
  import FineServer

  type Handler = FineServer.HandlerId

  // The cache entry of one client: none, a download under way, the file as the open h brought it,
  // or as the close k sent it.
  datatype Entry = Absent | Fetching(h: Handler) | Downloaded(h: Handler) | Uploaded(k: Handler)

  // The upload of the local bytes; k is the close of the latest attempt.
  datatype Upload = NoUpload | Uploading(bytes: Bytes, k: Handler)

  // opening: open_file has found or made the entry, the streams are not there yet. dirty is
  // locally_modified. seen counts the notes read so far.
  datatype Local = Local(entry: Entry, opening: bool, open: bool, dirty: bool, upload: Upload, seen: nat)

  const NEW: Local := Local(Absent, false, false, false, NoUpload, 0)

  datatype World = World(s: FineServer.State, locals: map<Cid, Local>)

  datatype Step =
    | Server(st: FineServer.Step)                  // anything but a registration
    | Fetch(c: Cid, h: Handler)                     // open_file misses, or tries once more
    | GiveUp(c: Cid)                              // after the last failed attempt
    | Enter(c: Cid)                               // the download is complete: into the cache
    | Hit(c: Cid)                                 // open_file finds the entry
    | OpenStreams(c: Cid)
    | Write(c: Cid)
    | StartUpload(c: Cid, k: Handler, bytes: Bytes, n: nat)   // an attempt that n bytes survive
    | RetryUpload(c: Cid, k: Handler, n: nat)
    | GiveUpUpload(c: Cid)
    | FinishUpload(c: Cid)                         // acknowledged: clean, and no longer open
    | Close(c: Cid)                               // of an unmodified file
    | Deliver(c: Cid)

  function At(w: World, c: Cid): Local {
    if c in w.locals then w.locals[c] else NEW
  }

  predicate IsCached(e: Entry) {
    e.Downloaded? || e.Uploaded?
  }

  predicate Enabled(w: World, st: Step) {
    match st
    case Server(st) => !st.Register? && FineServer.Enabled(w.s, st)
    case Fetch(c, h) =>
      !IsCached(At(w, c).entry) && !At(w, c).opening && FineServer.Enabled(w.s, FineServer.Register(h, c))
    case GiveUp(c) => At(w, c).entry.Fetching?
    case Enter(c) =>
      At(w, c).entry.Fetching? && At(w, c).entry.h in w.s.openers && w.s.openers[At(w, c).entry.h].eof
    case Hit(c) => IsCached(At(w, c).entry) && !At(w, c).opening && !At(w, c).open
    case OpenStreams(c) => At(w, c).opening
    case Write(c) => Usable(At(w, c)) && At(w, c).upload.NoUpload?
    case StartUpload(c, k, bytes, n) =>
      Usable(At(w, c)) && At(w, c).dirty && At(w, c).upload.NoUpload? && n <= |bytes| && k !in w.s.closers
    case RetryUpload(c, k, n) => At(w, c).upload.Uploading? && n <= |At(w, c).upload.bytes| && k !in w.s.closers
    case GiveUpUpload(c) => At(w, c).upload.Uploading?
    case FinishUpload(c) =>
      var u := At(w, c).upload;
      u.Uploading? && u.k in w.s.closers && w.s.closers[u.k].scanned && w.s.closers[u.k].data == u.bytes
    case Close(c) => At(w, c).open && !At(w, c).opening && !At(w, c).dirty
    case Deliver(c) => At(w, c).seen < FineServer.Told(w.s, c)
  }

  predicate Usable(l: Local) {
    l.open && !l.opening && IsCached(l.entry)
  }

  // RunSubscriber: a note is dropped while the file is open, and when there is no cache entry.
  function ReadNote(l: Local): Local {
    var l' := l.(seen := l.seen + 1);
    if l.open || !IsCached(l.entry) then l' else l'.(entry := Absent)
  }

  function Attempt(w: World, c: Cid, k: Handler, bytes: Bytes, n: nat): World
    requires n <= |bytes| && k !in w.s.closers
  {
    World(FineServer.Next(w.s, FineServer.Truncate(k, c, bytes[..n])),
          w.locals[c := At(w, c).(upload := Uploading(bytes, k))])
  }

  function Next(w: World, st: Step): World
    requires Enabled(w, st)
  {
    match st
    case Server(st) => w.(s := FineServer.Next(w.s, st))
    case Fetch(c, h) =>
      World(FineServer.Next(w.s, FineServer.Register(h, c)),
            w.locals[c := NEW.(entry := Fetching(h), open := At(w, c).open, seen := At(w, c).seen)])
    case GiveUp(c) => w.(locals := w.locals[c := At(w, c).(entry := Absent)])
    case Enter(c) => w.(locals := w.locals[c := At(w, c).(entry := Downloaded(At(w, c).entry.h), opening := true)])
    case Hit(c) => w.(locals := w.locals[c := At(w, c).(opening := true)])
    case OpenStreams(c) => w.(locals := w.locals[c := At(w, c).(opening := false, open := true)])
    case Write(c) => w.(locals := w.locals[c := At(w, c).(dirty := true)])
    case StartUpload(c, k, bytes, n) => Attempt(w, c, k, bytes, n)
    case RetryUpload(c, k, n) => Attempt(w, c, k, At(w, c).upload.bytes, n)
    case GiveUpUpload(c) => w.(locals := w.locals[c := At(w, c).(upload := NoUpload)])
    case FinishUpload(c) =>
      w.(locals := w.locals[c := At(w, c).(entry := Uploaded(At(w, c).upload.k), open := false, dirty := false,
                                           upload := NoUpload)])
    case Close(c) => w.(locals := w.locals[c := At(w, c).(open := false)])
    case Deliver(c) => w.(locals := w.locals[c := ReadNote(At(w, c))])
  }

  function Init(file: Bytes, subscribers: set<Cid>): World {
    World(FineServer.Init(file, subscribers), map[])
  }

  predicate Legal(w: World, steps: seq<Step>)
    decreases |steps|
  {
    steps == [] || (Enabled(w, steps[0]) && Legal(Next(w, steps[0]), steps[1..]))
  }

  function Run(w: World, steps: seq<Step>): World
    requires Legal(w, steps)
    decreases |steps|
  {
    if steps == [] then w else Run(Next(w, steps[0]), steps[1..])
  }

  // ---------------------------------------------------------------------------- the argument

  // The entry is what the handlers it names brought or sent.
  ghost predicate EntryOk(s: FineServer.State, c: Cid, l: Local) {
    match l.entry
    case Absent => true
    case Fetching(h) => h in s.openers && s.openers[h].c == c
    case Downloaded(h) => h in s.openers && s.openers[h].c == c && s.openers[h].eof
    case Uploaded(k) => k in s.closers && s.closers[k].c == c && s.closers[k].scanned && s.closers[k].known
  }

  ghost predicate UploadOk(s: FineServer.State, c: Cid, l: Local) {
    && (l.dirty ==> l.open && !l.opening && IsCached(l.entry))
    && (l.upload.Uploading? ==>
          var k := l.upload.k;
          l.dirty && k in s.closers && s.closers[k].c == c && s.closers[k].known)
  }

  ghost predicate LocalOk(s: FineServer.State, c: Cid, l: Local) {
    l.seen <= FineServer.Told(s, c) && EntryOk(s, c, l) && UploadOk(s, c, l)
  }

  ghost predicate Inv(w: World) {
    FineServer.Inv(w.s) && forall c :: LocalOk(w.s, c, At(w, c))
  }

  // What no step of the server takes back.
  ghost predicate Extends(s: FineServer.State, s': FineServer.State) {
    && (forall c :: FineServer.Told(s, c) <= FineServer.Told(s', c))
    && (forall h :: h in s.openers ==>
                      && h in s'.openers && s'.openers[h].c == s.openers[h].c
                      && s'.openers[h].mark == s.openers[h].mark
                      && (s.openers[h].eof ==> s'.openers[h].eof && s'.openers[h].got == s.openers[h].got))
    && (forall k :: k in s.closers ==>
                      && k in s'.closers && s'.closers[k].c == s.closers[k].c
                      && s'.closers[k].mark == s.closers[k].mark && s'.closers[k].known == s.closers[k].known
                      && s'.closers[k].data == s.closers[k].data && (s.closers[k].scanned ==> s'.closers[k].scanned))
  }

  lemma ServerExtends(s: FineServer.State, st: FineServer.Step)
    requires FineServer.Enabled(s, st)
    ensures Extends(s, FineServer.Next(s, st))
  {
  }

  lemma LocalKept(s: FineServer.State, s': FineServer.State, c: Cid, l: Local)
    requires Extends(s, s') && LocalOk(s, c, l)
    ensures LocalOk(s', c, l)
  {
  }

  // The server takes a step, and one client's state changes.
  lemma JointStep(w: World, st: FineServer.Step, w': World, c: Cid)
    requires Inv(w) && FineServer.Enabled(w.s, st) && w'.s == FineServer.Next(w.s, st)
    requires forall d :: d != c ==> At(w', d) == At(w, d)
    requires LocalOk(w'.s, c, At(w', c))
    ensures Inv(w')
  {
    FineServer.StepKeepsInv(w.s, st);
    ServerExtends(w.s, st);
    forall d | d != c ensures LocalOk(w'.s, d, At(w', d)) { LocalKept(w.s, w'.s, d, At(w, d)); }
  }

  // Whoever has an entry is registered.
  lemma EntryIsKnown(w: World, c: Cid)
    requires Inv(w) && !At(w, c).entry.Absent?
    ensures c in w.s.reg
  {
    var l := At(w, c);
    assert LocalOk(w.s, c, l);
    if l.entry.Uploaded? {
      assert FineServer.CloserOk(w.s, l.entry.k);
    } else {
      assert FineServer.OpenerOk(w.s, w.s.openers[l.entry.h]);
    }
  }

  lemma AttemptStep(w: World, c: Cid, k: Handler, bytes: Bytes, n: nat)
    requires Inv(w) && n <= |bytes| && k !in w.s.closers && At(w, c).dirty
    ensures Inv(Attempt(w, c, k, bytes, n))
  {
    var l, st, w' := At(w, c), FineServer.Truncate(k, c, bytes[..n]), Attempt(w, c, k, bytes, n);
    assert LocalOk(w.s, c, l);
    EntryIsKnown(w, c);
    ServerExtends(w.s, st);
    JointStep(w, st, w', c);
  }

  lemma FetchStep(w: World, c: Cid, h: Handler)
    requires Inv(w) && Enabled(w, Fetch(c, h))
    ensures Inv(Next(w, Fetch(c, h)))
  {
    assert LocalOk(w.s, c, At(w, c));
    JointStep(w, FineServer.Register(h, c), Next(w, Fetch(c, h)), c);
  }

  lemma ServerStep(w: World, st: FineServer.Step)
    requires Inv(w) && Enabled(w, Server(st))
    ensures Inv(Next(w, Server(st)))
  {
    FineServer.StepKeepsInv(w.s, st);
    ServerExtends(w.s, st);
    var w' := Next(w, Server(st));
    forall c ensures LocalOk(w'.s, c, At(w', c)) { LocalKept(w.s, w'.s, c, At(w, c)); }
  }

  // One client's state changes, and nothing else.
  lemma LocalStep(w: World, w': World, c: Cid)
    requires Inv(w) && w'.s == w.s && LocalOk(w.s, c, At(w', c))
    requires forall d :: d != c ==> At(w', d) == At(w, d)
    ensures Inv(w')
  {
    forall d | d != c ensures LocalOk(w'.s, d, At(w', d)) { assert LocalOk(w.s, d, At(w, d)); }
  }

  lemma DeliverStep(w: World, c: Cid)
    requires Inv(w) && Enabled(w, Deliver(c))
    ensures Inv(Next(w, Deliver(c)))
  {
    assert LocalOk(w.s, c, At(w, c));
    LocalStep(w, Next(w, Deliver(c)), c);
  }

  lemma FinishStep(w: World, c: Cid)
    requires Inv(w) && Enabled(w, FinishUpload(c))
    ensures Inv(Next(w, FinishUpload(c)))
  {
    assert LocalOk(w.s, c, At(w, c));
    LocalStep(w, Next(w, FinishUpload(c)), c);
  }

  lemma EntryStep(w: World, st: Step)
    requires Inv(w) && Enabled(w, st)
    requires st.GiveUp? || st.Enter? || st.Hit? || st.OpenStreams? || st.Write? || st.GiveUpUpload? || st.Close?
    ensures Inv(Next(w, st))
  {
    assert LocalOk(w.s, st.c, At(w, st.c));
    LocalStep(w, Next(w, st), st.c);
  }

  lemma StepKeepsInv(w: World, st: Step)
    requires Inv(w) && Enabled(w, st)
    ensures Inv(Next(w, st))
  {
    match st
    case Server(st) => ServerStep(w, st);
    case Fetch(c, h) => FetchStep(w, c, h);
    case StartUpload(c, k, bytes, n) => AttemptStep(w, c, k, bytes, n);
    case RetryUpload(c, k, n) =>
      assert LocalOk(w.s, c, At(w, c));
      AttemptStep(w, c, k, At(w, c).upload.bytes, n);
    case Deliver(c) => DeliverStep(w, c);
    case FinishUpload(c) => FinishStep(w, c);
    case _ => EntryStep(w, st);
  }

  lemma {:induction false} RunKeepsInv(w: World, steps: seq<Step>)
    requires Inv(w) && Legal(w, steps)
    ensures Inv(Run(w, steps))
    decreases |steps|
  {
    if steps != [] {
      StepKeepsInv(w, steps[0]);
      RunKeepsInv(Next(w, steps[0]), steps[1..]);
    }
  }

  // ----------------------------------------------------------------------- when entries are sound

  // The entry has the bytes of the file, as far as they were read.
  predicate Matches(file: Bytes, s: FineServer.State, e: Entry) {
    match e
    case Absent => true
    case Fetching(h) => h in s.openers && FineServer.UpToDate(file, s.openers[h])
    case Downloaded(h) => h in s.openers && FineServer.UpToDate(file, s.openers[h])
    case Uploaded(k) => k in s.closers && file == s.closers[k].data
  }

  // A close by another client is running, and will announce itself, or a note is unread.
  ghost predicate WillHear(w: World, c: Cid) {
    FineServer.OthersRunning(w.s, c) || At(w, c).seen < FineServer.Told(w.s, c)
  }

  ghost predicate SoundAt(w: World, c: Cid) {
    c in w.s.subscribers && !At(w, c).dirty ==> WillHear(w, c) || Matches(w.s.file, w.s, At(w, c).entry)
  }

  // Three kinds of step can do harm: reading the last note when it is dropped, because the file is
  // open or not in the cache yet; the acknowledgement of an upload that has been overwritten; and a
  // close of the client's own, as of an abandoned attempt, that truncates the file or writes to it
  // late. Nobody tells the client of that one.
  ghost predicate SafeStep(w: World, st: Step, c: Cid)
    requires Enabled(w, st)
  {
    var l := At(w, c);
    match st
    case Server(Truncate(h, d, data)) =>
      d == c && c in w.s.subscribers && !l.dirty ==> WillHear(w, c) || Matches([], w.s, l.entry)
    case Server(WritePiece(h, n)) =>
      var k := w.s.closers[h];
      k.c == c && c in w.s.subscribers && !l.dirty ==>
        WillHear(w, c) || Matches(Overlay(w.s.file, k.written, k.data[k.written..k.written + n]), w.s, l.entry)
    case Deliver(d) =>
      d == c && c in w.s.subscribers && !l.dirty && (l.open || !IsCached(l.entry)) ==>
        || FineServer.OthersRunning(w.s, c) || l.seen + 1 < FineServer.Told(w.s, c)
        || Matches(w.s.file, w.s, l.entry)
    case FinishUpload(d) =>
      d == c && c in w.s.subscribers ==> WillHear(w, c) || Matches(w.s.file, w.s, Uploaded(l.upload.k))
    case _ => true
  }

  // A step of the server that is not the client's own doing.
  predicate Foreign(s: FineServer.State, st: FineServer.Step, c: Cid)
    requires FineServer.Enabled(s, st)
  {
    match st
    case Truncate(h, d, data) => d != c
    case WritePiece(h, n) => s.closers[h].c != c
    case _ => true
  }

  lemma ServerKeepsSound(s: FineServer.State, st: FineServer.Step, c: Cid, e: Entry, seen: nat)
    requires FineServer.Enabled(s, st) && Foreign(s, st, c) && (e.Absent? || c in s.reg) && c in s.subscribers
    requires seen <= FineServer.Told(s, c) && EntryNamed(s, e)
    requires FineServer.OthersRunning(s, c) || seen < FineServer.Told(s, c) || Matches(s.file, s, e)
    ensures var s' := FineServer.Next(s, st);
            FineServer.OthersRunning(s', c) || seen < FineServer.Told(s', c) || Matches(s'.file, s', e)
  {
    var s' := FineServer.Next(s, st);
    if seen < FineServer.Told(s, c) {
      ServerExtends(s, st);
    } else if FineServer.OthersRunning(s, c) {
      OthersGoOn(s, st, c);
    } else {
      MatchKept(s, st, c, e);
    }
  }

  // The handlers an entry names exist; what has been downloaded is complete.
  predicate EntryNamed(s: FineServer.State, e: Entry) {
    match e
    case Absent => true
    case Fetching(h) => h in s.openers
    case Downloaded(h) => h in s.openers && s.openers[h].eof
    case Uploaded(k) => k in s.closers
  }

  lemma OthersGoOn(s: FineServer.State, st: FineServer.Step, c: Cid)
    requires FineServer.Enabled(s, st) && FineServer.OthersRunning(s, c)
    ensures var s' := FineServer.Next(s, st);
            FineServer.OthersRunning(s', c) ||
            (c in s.reg && c in s.subscribers ==> FineServer.Told(s', c) == FineServer.Told(s, c) + 1)
  {
    var s' := FineServer.Next(s, st);
    var h :| h in s.closers && FineServer.Running(s.closers[h]) && s.closers[h].c != c;
    if st == FineServer.Scan(h) {
      if c in s.reg && c in s.subscribers { assert c in (s.reg - {s.closers[h].c}) * s.subscribers; }
    } else {
      assert FineServer.Running(s'.closers[h]) && s'.closers[h].c != c;
    }
  }

  lemma MatchKept(s: FineServer.State, st: FineServer.Step, c: Cid, e: Entry)
    requires FineServer.Enabled(s, st) && Foreign(s, st, c) && EntryNamed(s, e)
    requires Matches(s.file, s, e) && !FineServer.OthersRunning(s, c)
    ensures var s' := FineServer.Next(s, st); FineServer.OthersRunning(s', c) || Matches(s'.file, s', e)
  {
    var s' := FineServer.Next(s, st);
    match st
    case Truncate(h, d, data) => assert FineServer.Running(s'.closers[h]) && s'.closers[h].c != c;
    case ReadPiece(h, n) => if !e.Absent? && !e.Uploaded? && e.h == h { ReadingOn(s.file, s.openers[h], n); }
    case _ =>
  }

  lemma ReadingOn(file: Bytes, o: FineServer.Opener, n: nat)
    requires n > 0 && FineServer.UpToDate(file, o)
    ensures var piece := Slice(file, |o.got|, n);
            FineServer.UpToDate(file, o.(got := o.got + piece, eof := |piece| < n))
  {
    var got := o.got + Slice(file, |o.got|, n);
    assert got == file[..|got|];
  }

  lemma SoundThroughServer(w: World, st: FineServer.Step, w': World, c: Cid)
    requires Inv(w) && FineServer.Enabled(w.s, st) && SoundAt(w, c) && (Foreign(w.s, st, c) || At(w, c).dirty)
    requires w'.s == FineServer.Next(w.s, st) && At(w', c).entry == At(w, c).entry
    requires At(w', c).dirty == At(w, c).dirty && At(w', c).seen == At(w, c).seen
    ensures SoundAt(w', c)
  {
    var l := At(w, c);
    assert LocalOk(w.s, c, l);
    if !l.entry.Absent? { EntryIsKnown(w, c); }
    if c in w.s.subscribers && !l.dirty { ServerKeepsSound(w.s, st, c, l.entry, l.seen); }
  }

  lemma SoundFetch(w: World, c: Cid, h: Handler)
    requires Inv(w) && Enabled(w, Fetch(c, h))
    ensures SoundAt(Next(w, Fetch(c, h)), c)
  {
    var w' := Next(w, Fetch(c, h));
    var o := w'.s.openers[h];
    assert o.got == [] == w'.s.file[..0];
    assert FineServer.UpToDate(w'.s.file, o);
  }

  lemma OwnStepLeavesOthers(s: FineServer.State, st: FineServer.Step, c: Cid)
    requires FineServer.Enabled(s, st) && !Foreign(s, st, c)
    ensures var s' := FineServer.Next(s, st);
            && (FineServer.OthersRunning(s', c) <==> FineServer.OthersRunning(s, c))
            && FineServer.Told(s', c) == FineServer.Told(s, c)
  {
    var s' := FineServer.Next(s, st);
    if h :| h in s.closers && FineServer.Running(s.closers[h]) && s.closers[h].c != c {
      assert FineServer.Running(s'.closers[h]) && s'.closers[h].c != c;
    }
    if h :| h in s'.closers && FineServer.Running(s'.closers[h]) && s'.closers[h].c != c {
      assert FineServer.Running(s.closers[h]) && s.closers[h].c != c;
    }
  }

  lemma OwnServerStep(w: World, st: FineServer.Step, c: Cid)
    requires Inv(w) && Enabled(w, Server(st)) && !Foreign(w.s, st, c)
    ensures SoundAt(Next(w, Server(st)), c) <==> SafeStep(w, Server(st), c)
  {
    var s, s', e := w.s, FineServer.Next(w.s, st), At(w, c).entry;
    assert LocalOk(s, c, At(w, c));
    OwnStepLeavesOthers(s, st, c);
    assert forall file :: Matches(file, s', e) <==> Matches(file, s, e);
  }

  lemma SoundLocally(w: World, st: Step, c: Cid)
    requires Inv(w) && Enabled(w, st) && SoundAt(w, c)
    requires !st.Server? && !st.Fetch? && !st.StartUpload? && !st.RetryUpload?
    ensures SoundAt(Next(w, st), c) <==> SafeStep(w, st, c)
  {
    assert LocalOk(w.s, c, At(w, c));
    if st.c != c { assert At(Next(w, st), c) == At(w, c); }
  }

  /** The exact effect of one step on one client: a sound entry stays sound if and only if the step
      is safe for it. */
  lemma SoundKeptExactlyWhen(w: World, st: Step, c: Cid)
    requires Inv(w) && Enabled(w, st) && SoundAt(w, c)
    ensures SoundAt(Next(w, st), c) <==> SafeStep(w, st, c)
  {
    var w' := Next(w, st);
    assert LocalOk(w.s, c, At(w, c));
    match st
    case Server(st) =>
      if Foreign(w.s, st, c) { SoundThroughServer(w, st, w', c); } else { OwnServerStep(w, st, c); }
    case Fetch(d, h) =>
      if d == c { SoundFetch(w, c, h); } else { SoundThroughServer(w, FineServer.Register(h, d), w', c); }
    case StartUpload(d, k, bytes, n) => SoundThroughServer(w, FineServer.Truncate(k, d, bytes[..n]), w', c);
    case RetryUpload(d, k, n) =>
      SoundThroughServer(w, FineServer.Truncate(k, d, At(w, d).upload.bytes[..n]), w', c);
    case _ => SoundLocally(w, st, c);
  }

  // The state after the first i steps.
  function StateAt(w: World, steps: seq<Step>, i: nat): World
    requires Legal(w, steps) && i <= |steps|
    decreases i
  {
    if i == 0 then w else StateAt(Next(w, steps[0]), steps[1..], i - 1)
  }

  lemma {:induction false} LastStateIsRun(w: World, steps: seq<Step>)
    requires Legal(w, steps)
    ensures StateAt(w, steps, |steps|) == Run(w, steps)
    decreases |steps|
  {
    if steps != [] { LastStateIsRun(Next(w, steps[0]), steps[1..]); }
  }

  ghost predicate SoundThroughout(w: World, steps: seq<Step>, c: Cid)
    requires Legal(w, steps)
  {
    forall i :: 0 <= i <= |steps| ==> SoundAt(StateAt(w, steps, i), c)
  }

  ghost predicate SafeThroughout(w: World, steps: seq<Step>, c: Cid)
    requires Legal(w, steps)
    decreases |steps|
  {
    steps == [] || (SafeStep(w, steps[0], c) && SafeThroughout(Next(w, steps[0]), steps[1..], c))
  }

  lemma {:induction false} SoundThroughRun(w: World, steps: seq<Step>, c: Cid)
    requires Inv(w) && Legal(w, steps) && SoundAt(w, c)
    ensures SoundThroughout(w, steps, c) <==> SafeThroughout(w, steps, c)
    decreases |steps|
  {
    if steps != [] {
      var w1, rest := Next(w, steps[0]), steps[1..];
      SoundKeptExactlyWhen(w, steps[0], c);
      StepKeepsInv(w, steps[0]);
      if SoundAt(w1, c) {
        SoundThroughRun(w1, rest, c);
        assert forall i :: 0 < i <= |steps| ==> StateAt(w, steps, i) == StateAt(w1, rest, i - 1);
        assert forall i :: 0 <= i <= |rest| ==> StateAt(w1, rest, i) == StateAt(w, steps, i + 1);
      } else {
        assert StateAt(w, steps, 1) == w1;
      }
    }
  }

  /** Coherence in small steps, exactly. In every interleaving of any number of opens, uploads and
      deliveries, a client's entry is sound in all states if and only if all steps are safe for
      it. */
  lemma SoundExactlyWhen(file: Bytes, subscribers: set<Cid>, steps: seq<Step>, c: Cid)
    requires Legal(Init(file, subscribers), steps)
    ensures SoundThroughout(Init(file, subscribers), steps, c) <==> SafeThroughout(Init(file, subscribers), steps, c)
  {
    SoundThroughRun(Init(file, subscribers), steps, c);
  }

  // c caches the file unmodified.
  predicate Holds(w: World, c: Cid) {
    var l := At(w, c);
    && c in w.s.subscribers && !l.dirty
    && match l.entry
       case Downloaded(h) => h in w.s.openers
       case Uploaded(k) => k in w.s.closers
       case _ => false
  }

  function Held(w: World, c: Cid): Bytes
    requires Holds(w, c)
  {
    match At(w, c).entry
    case Downloaded(h) => w.s.openers[h].got
    case Uploaded(k) => w.s.closers[k].data
  }

  /** After a run whose steps are safe for it, what a client caches unmodified of the path, be it
      downloaded or uploaded, is the server's file as it is now, or a close by another client has
      still to announce itself, or a note is on its way. */
  lemma CachedBytesAreCoherent(file: Bytes, subscribers: set<Cid>, steps: seq<Step>, c: Cid)
    requires Legal(Init(file, subscribers), steps) && Holds(Run(Init(file, subscribers), steps), c)
    requires SafeThroughout(Init(file, subscribers), steps, c)
    ensures var w := Run(Init(file, subscribers), steps);
            Held(w, c) == w.s.file || WillHear(w, c)
  {
    RunKeepsInv(Init(file, subscribers), steps);
    SoundExactlyWhen(file, subscribers, steps, c);
    LastStateIsRun(Init(file, subscribers), steps);
    var w := Run(Init(file, subscribers), steps);
    assert SoundAt(StateAt(Init(file, subscribers), steps, |steps|), c);
    assert LocalOk(w.s, c, At(w, c));
    assert w.s.file[..|w.s.file|] == w.s.file;
  }

  // ------------------------------------------------------------------ open files and their entries

  // Whatever is open, or being opened, has a cache entry.
  ghost predicate OpenIsCached(w: World) {
    forall c :: At(w, c).open || At(w, c).opening ==> IsCached(At(w, c).entry)
  }

  // No note is read by a client between its entry and its streams.
  predicate KeepsOpenCached(w: World, st: Step) {
    !(st.Deliver? && At(w, st.c).opening && !At(w, st.c).open)
  }

  lemma OpenCachedKeptExactlyWhen(w: World, st: Step)
    requires Enabled(w, st) && OpenIsCached(w)
    ensures OpenIsCached(Next(w, st)) <==> KeepsOpenCached(w, st)
  {
    var w' := Next(w, st);
    if !KeepsOpenCached(w, st) {
      assert At(w', st.c).opening && At(w', st.c).entry.Absent?;
    } else {
      forall c | At(w', c).open || At(w', c).opening ensures IsCached(At(w', c).entry) {
        assert At(w, c).open || At(w, c).opening ==> IsCached(At(w, c).entry);
      }
    }
  }

  predicate KeepsOpenCachedThroughout(w: World, steps: seq<Step>)
    requires Legal(w, steps)
    decreases |steps|
  {
    steps == [] || (KeepsOpenCached(w, steps[0]) && KeepsOpenCachedThroughout(Next(w, steps[0]), steps[1..]))
  }

  ghost predicate OpenCachedThroughout(w: World, steps: seq<Step>)
    requires Legal(w, steps)
  {
    forall i :: 0 <= i <= |steps| ==> OpenIsCached(StateAt(w, steps, i))
  }

  lemma {:induction false} OpenCachedThroughRun(w: World, steps: seq<Step>)
    requires Legal(w, steps) && OpenIsCached(w)
    ensures OpenCachedThroughout(w, steps) <==> KeepsOpenCachedThroughout(w, steps)
    decreases |steps|
  {
    if steps != [] {
      var w1, rest := Next(w, steps[0]), steps[1..];
      OpenCachedKeptExactlyWhen(w, steps[0]);
      if OpenIsCached(w1) {
        OpenCachedThroughRun(w1, rest);
        assert forall i :: 0 < i <= |steps| ==> StateAt(w, steps, i) == StateAt(w1, rest, i - 1);
        assert forall i :: 0 <= i <= |rest| ==> StateAt(w1, rest, i) == StateAt(w, steps, i + 1);
      } else {
        assert StateAt(w, steps, 1) == w1;
      }
    }
  }

  /** Open files stay cached, in all states of a run, if and only if no client ever reads a note
      between the moment open_file has the entry and the moment it has the streams. */
  lemma OpenFilesAreCachedExactlyWhen(file: Bytes, subscribers: set<Cid>, steps: seq<Step>)
    requires Legal(Init(file, subscribers), steps)
    ensures OpenCachedThroughout(Init(file, subscribers), steps) <==>
            KeepsOpenCachedThroughout(Init(file, subscribers), steps)
  {
    OpenCachedThroughRun(Init(file, subscribers), steps);
  }

  // ---------------------------------------------------------------- the client, one step at a time

  // The client as its operations see it, with bytes in its local copy of the path p.
  function View(l: Local, p: Path, bytes: Bytes): ClientModel.Client {
    ClientModel.Client(
      if IsCached(l.entry) then map[p := l.dirty] else map[],
      if l.open then map[p := ClientModel.FRESH] else map[],
      if l.open then {p} else {},
      map[],
      map[p := bytes])
  }

  lemma WriteInView(l: Local, p: Path, b: Bytes, data: Bytes, pos: nat)
    requires l.open && IsCached(l.entry)
    ensures ClientModel.WriteFile(View(l, p, b), p, data, pos) ==
            (View(l.(dirty := true), p, Overlay(b, pos, data)), true)
  {
    assert map[p := b][p := Overlay(b, pos, data)] == map[p := Overlay(b, pos, data)];
    assert map[p := l.dirty][p := true] == map[p := true];
  }

  lemma FinishInView(l: Local, l': Local, p: Path, b: Bytes)
    requires l.open && l.dirty && IsCached(l.entry) && !l'.open && !l'.dirty && IsCached(l'.entry)
    ensures ClientModel.CloseFile(View(l, p, b), p, true) == (View(l', p, b), true)
  {
    var v := View(l, p, b);
    assert v.cache[p := false] == map[p := false];
    assert v.handles[p := ClientModel.Handle(false, false, true)] - {p} == map[] && v.mutexes - {p} == {};
  }

  /** The client's small steps are its operations: to read a note, to write, to close an unmodified
      file, to finish an upload and to open the streams each do what the operation does, and until
      then open_file leaves the streams alone. */
  lemma LocalStepsAreTheOperations(w: World, st: Step, p: Path, b: Bytes, data: Bytes, pos: nat)
    requires Inv(w) && Enabled(w, st) && !st.Server?
    ensures var c, w' := st.c, Next(w, st);
            var v := View(At(w, c), p, b);
            && (st.Deliver? ==> View(At(w', c), p, b) == ClientModel.Invalidate(v, p))
            && (st.Write? ==>
                  ClientModel.WriteFile(v, p, data, pos) == (View(At(w', c), p, Overlay(b, pos, data)), true))
            && (st.Close? ==> View(At(w', c), p, b) == ClientModel.CloseFile(v, p, true).0)
            && (st.FinishUpload? ==> ClientModel.CloseFile(v, p, true) == (View(At(w', c), p, b), true))
            && (st.OpenStreams? ==> View(At(w', c), p, b) == ClientModel.OpenStreams(v, p))
            && (st.Enter? ==> View(At(w', c), p, b) == v.(cache := v.cache[p := false]))
            && (st.Fetch? || st.GiveUp? || st.Hit? || st.StartUpload? || st.RetryUpload? || st.GiveUpUpload? ==>
                  View(At(w', c), p, b) == v)
  {
    var l := At(w, st.c);
    assert LocalOk(w.s, st.c, l);
    if st.Write? { WriteInView(l, p, b, data, pos); }
    if st.FinishUpload? { FinishInView(l, At(Next(w, st), st.c), p, b); }
  }
}
