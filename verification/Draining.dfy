/**
 What is left once all notes have arrived, and what a rename leaves behind.
 */
module Draining {
  import opened Wire
  import opened Keys
  import opened Notifications
  import opened ServerModel
  import opened ClientModel
  import opened System
  import opened Coherence

  /** A stretch of notes removes exactly the entries it mentions whose files are closed, together
      with their attributes, and changes nothing else of what is cached, known, open or on disk. */
  lemma {:induction false} InvalidateAllMeaning(cl: Client, notes: seq<Note>, p: Path)
    ensures var cl' := InvalidateAll(cl, notes);
            && cl'.handles == cl.handles && cl'.disk == cl.disk && cl'.mutexes == cl.mutexes
            && (p in cl'.cache <==> p in cl.cache && (p in cl.handles || !Mentions(notes, p)))
            && (p in cl'.cache ==> cl'.cache[p] == cl.cache[p])
            && (p in cl'.attr <==>
                  p in cl.attr && !(p in cl.cache && p !in cl.handles && Mentions(notes, p)))
            && (p in cl'.attr ==> cl'.attr[p] == cl.attr[p])
    decreases |notes|
  {
    if notes != [] {
      var rest := notes[1..];
      InvalidateAllMeaning(Invalidate(cl, notes[0].path), rest, p);
      if notes[0].path != p && Mentions(notes, p) {
        var i :| 0 <= i < |notes| && notes[i].path == p;
        assert rest[i - 1].path == p;
      }
      if i :| 0 <= i < |rest| && rest[i].path == p { assert notes[i + 1].path == p; }
    }
  }

  // What is on its way to c, in the order in which it will read it.
  function Backlog(w: World, c: Cid): seq<Note>
    requires c in w.nodes && c in w.server.queues
  {
    w.nodes[c].stream + w.server.queues[c]
  }

  // What c will be once it has read all of it.
  function Outlook(w: World, c: Cid): Client
    requires c in w.nodes && c in w.server.queues
  {
    InvalidateAll(w.nodes[c].client, Backlog(w, c))
  }

  // Notes are forwarded and read, in any order, and nothing else happens.
  predicate NotesOnly(steps: seq<Step>) {
    forall i :: 0 <= i < |steps| ==> steps[i].Forward? || steps[i].Deliver?
  }

  // Nothing is left to forward or to read.
  ghost predicate Quiet(w: World) {
    forall c :: c in w.nodes ==> w.nodes[c].stream == [] && (c in w.server.queues ==> w.server.queues[c] == [])
  }

  lemma NoteStepKeepsOutlook(w: World, st: Step, c: Cid)
    requires Enabled(w, st) && (st.Forward? || st.Deliver?) && c in w.nodes && c in w.server.queues
    ensures var w' := Next(w, st);
            && w'.server == w.server.(queues := w'.server.queues)
            && w'.server.queues.Keys == w.server.queues.Keys && w'.nodes.Keys == w.nodes.Keys
            && Outlook(w', c) == Outlook(w, c)
  {
    var w' := Next(w, st);
    var notes := Backlog(w, c);
    if st == Forward(c) {
      assert Backlog(w', c) == notes;
    } else if st == Deliver(c) {
      assert Backlog(w', c) == notes[1..] && notes[0] == w.nodes[c].stream[0];
    } else {
      assert Backlog(w', c) == notes;
    }
  }

  lemma {:induction false} RunKeepsOutlook(w: World, steps: seq<Step>, c: Cid)
    requires Legal(w, steps) && NotesOnly(steps) && c in w.nodes && c in w.server.queues
    ensures var w' := Run(w, steps);
            && w'.server == w.server.(queues := w'.server.queues)
            && w'.server.queues.Keys == w.server.queues.Keys && w'.nodes.Keys == w.nodes.Keys
            && Outlook(w', c) == Outlook(w, c)
    decreases |steps|
  {
    if steps != [] {
      assert steps[0] in steps;
      NoteStepKeepsOutlook(w, steps[0], c);
      assert NotesOnly(steps[1..]);
      RunKeepsOutlook(Next(w, steps[0]), steps[1..], c);
    }
  }

  /** Once everything has arrived. From a coherent state, in whatever order the notes of all clients
      are forwarded and read, once nothing is left each live client caches exactly what it cached
      before, less the closed files it was told about; and every unmodified one of those is the
      server's, except that a file which was open when a note for it arrived may not be. */
  lemma DrainingBringsCoherence(w: World, steps: seq<Step>, c: Cid, p: Path)
    requires Struct(w) && At(Content, w, c, p) && c in w.server.queues
    requires Legal(w, steps) && NotesOnly(steps) && Quiet(Run(w, steps))
    ensures var w' := Run(w, steps);
            && w'.server.files == w.server.files && w'.server.reg == w.server.reg
            && c in w'.nodes && c in w'.server.queues
            && (p in w'.nodes[c].client.cache <==>
                  p in w.nodes[c].client.cache &&
                  (p in w.nodes[c].client.handles || !Pending(w.server, c, w.nodes[c], p)))
            && (p in w'.nodes[c].client.cache && !w'.nodes[c].client.cache[p] ==>
                  || SameAsServer(w'.server, w'.nodes[c].client, p)
                  || (p in w.nodes[c].client.handles && Pending(w.server, c, w.nodes[c], p)))
  {
    RunKeepsOutlook(w, steps, c);
    var w' := Run(w, steps);
    assert Backlog(w', c) == [];
    assert w'.nodes[c].client == Outlook(w, c);
    InvalidateAllMeaning(w.nodes[c].client, Backlog(w, c), p);
    BacklogMentions(w, c, p);
  }

  // ----------------------------------------------------------------------- no note is lost

  // d has its notes, with new ones at the end, but none for what d did itself.
  predicate Appended(s: Server, s': Server, from: Cid, d: Cid) {
    && (d in s.queues <==> d in s'.queues)
    && (d in s.queues ==> s.queues[d] <= s'.queues[d] && (d == from ==> s'.queues[d] == s.queues[d]))
  }

  lemma {:induction false} UploadAppends(s: Server, c: Cid, p: Path, bytes: Bytes, up: seq<UpNet>, d: Cid)
    ensures Appended(s, UploadRpcs(s, c, p, bytes, up).0, c, d)
    decreases |up|
  {
    if up != [] && !up[0].finished {
      var messages := UploadMessages(bytes);
      UploadAppends(CloseRpc(s, c, p, messages[..Min(up[0].delivered, |messages|)]), c, p, bytes, up[1..], d);
    }
  }

  lemma CallsAppend(w: World, st: Step, c: Cid)
    requires Enabled(w, st) && c in w.nodes && (st.Open? || st.Close? || st.Delete? || st.Rename?)
    ensures Appended(w.server, Next(w, st).server, st.c, c)
    ensures c in Next(w, st).nodes && Next(w, st).nodes[c].stream == w.nodes[c].stream
  {
    match st
    case Close(d, p, up) =>
      if Uploads(w.nodes[d].client, p) { UploadAppends(w.server, d, p, w.nodes[d].client.disk[p], up, c); }
    case _ =>
  }

  /** A live client reads its oldest note first; any other step leaves its notes as they are, with
      new ones at the end, and none for what the client did itself. Leaving drops them all. */
  lemma StepKeepsNotes(w: World, st: Step, c: Cid)
    requires Enabled(w, st) && c in w.nodes && c in w.server.queues
    ensures var w' := Next(w, st);
            && c in w'.nodes
            && (st == Disconnect(c) ==> c !in w'.server.queues && w'.nodes[c].stream == [])
            && (st != Disconnect(c) ==>
                  && c in w'.server.queues
                  && (st == Deliver(c) ==> Backlog(w', c) == Backlog(w, c)[1..])
                  && (st != Deliver(c) ==> Backlog(w, c) <= Backlog(w', c))
                  && (st.c == c && !st.Deliver? ==> Backlog(w', c) == Backlog(w, c)))
  {
    if st.Open? || st.Close? || st.Delete? || st.Rename? {
      CallsAppend(w, st, c);
    } else if st.Forward? {
      assert Backlog(Next(w, st), c) == Backlog(w, c);
    }
  }

  lemma {:induction false} GoneStaysGone(w: World, steps: seq<Step>, c: Cid)
    requires Legal(w, steps) && c in w.nodes && c !in w.server.queues && w.nodes[c].stream == []
    ensures var w' := Run(w, steps);
            c in w'.nodes && c !in w'.server.queues && w'.nodes[c].stream == [] && Received(w, steps, c) == []
    decreases |steps|
  {
    if steps != [] {
      var st := steps[0];
      if st.Open? || st.Close? || st.Delete? || st.Rename? { CallsAppend(w, st, c); }
      GoneStaysGone(Next(w, st), steps[1..], c);
    }
  }

  // The notes c reads during a run, in order.
  function Received(w: World, steps: seq<Step>, c: Cid): seq<Note>
    requires Legal(w, steps)
    decreases |steps|
  {
    if steps == [] then []
    else if steps[0] == Deliver(c) then [w.nodes[c].stream[0]] + Received(Next(w, steps[0]), steps[1..], c)
    else Received(Next(w, steps[0]), steps[1..], c)
  }

  // got comes from the front of notes, or goes beyond them.
  predicate InStep(got: seq<Note>, notes: seq<Note>) { got <= notes || notes <= got }

  lemma OneRead(note: Note, notes: seq<Note>, got: seq<Note>, left: seq<Note>)
    ensures notes <= got + left ==> [note] + notes <= [note] + got + left
    ensures InStep(got, notes) ==> InStep([note] + got, [note] + notes)
  {
    assert [note] + got + left == [note] + (got + left);
  }

  lemma SomeAdded(notes: seq<Note>, more: seq<Note>, got: seq<Note>, left: seq<Note>)
    requires notes <= more
    ensures more <= got + left ==> notes <= got + left
    ensures InStep(got, more) ==> InStep(got, notes)
  {
  }

  // c has read got between w and w'.
  predicate Conserved(w: World, c: Cid, got: seq<Note>, w': World)
    requires c in w.nodes && c in w.server.queues
  {
    && c in w'.nodes
    && (c in w'.server.queues ==> Backlog(w, c) <= got + Backlog(w', c))
    && (c !in w'.server.queues ==> w'.nodes[c].stream == [] && InStep(got, Backlog(w, c)))
  }

  lemma StepConserves(w: World, st: Step, c: Cid, got: seq<Note>, w': World)
    requires Enabled(w, st) && c in w.nodes && c in w.server.queues && st != Disconnect(c)
    requires c in Next(w, st).nodes && c in Next(w, st).server.queues && Conserved(Next(w, st), c, got, w')
    ensures Conserved(w, c, if st == Deliver(c) then [w.nodes[c].stream[0]] + got else got, w')
  {
    StepKeepsNotes(w, st, c);
    var now, next := Backlog(w, c), Backlog(Next(w, st), c);
    var left := if c in w'.server.queues then Backlog(w', c) else [];
    if st == Deliver(c) {
      assert now == [w.nodes[c].stream[0]] + next;
      OneRead(w.nodes[c].stream[0], next, got, left);
    } else {
      SomeAdded(now, next, got, left);
    }
  }

  /** In every run, what a client reads, followed by what is still on its way, begins with what was on
      its way at first: none is lost, read twice or overtaken, for as long as the client stays. Of one
      that has left nothing is on its way, and none was read out of turn before that. */
  lemma {:induction false} NotesAreConserved(w: World, steps: seq<Step>, c: Cid)
    requires Legal(w, steps) && c in w.nodes && c in w.server.queues
    ensures Conserved(w, c, Received(w, steps, c), Run(w, steps))
    decreases |steps|
  {
    if steps != [] {
      var st, rest := steps[0], steps[1..];
      StepKeepsNotes(w, st, c);
      if st == Disconnect(c) {
        GoneStaysGone(Next(w, st), rest, c);
      } else {
        NotesAreConserved(Next(w, st), rest, c);
        StepConserves(w, st, c, Received(Next(w, st), rest, c), Run(w, steps));
      }
    }
  }

  // ---------------------------------------------------------------------- every schedule ends

  // A queued note has two steps before it, a forwarded one has one.
  function Weight(w: World, c: Cid): nat {
    (if c in w.server.queues then 2 * |w.server.queues[c]| else 0) +
    (if c in w.nodes then |w.nodes[c].stream| else 0)
  }

  ghost function Load(w: World, cs: set<Cid>): nat {
    if cs == {} then 0
    else var c :| c in cs; Weight(w, c) + Load(w, cs - {c})
  }

  lemma {:induction false} LoadWithout(w: World, cs: set<Cid>, c: Cid)
    requires c in cs
    ensures Load(w, cs) == Weight(w, c) + Load(w, cs - {c})
    decreases cs
  {
    var x :| x in cs && Load(w, cs) == Weight(w, x) + Load(w, cs - {x});
    if x != c {
      LoadWithout(w, cs - {x}, c);
      LoadWithout(w, cs - {c}, x);
      assert cs - {x} - {c} == cs - {c} - {x};
    }
  }

  lemma {:induction false} LoadUnchanged(w: World, w': World, cs: set<Cid>)
    requires forall c :: c in cs ==> Weight(w', c) == Weight(w, c)
    ensures Load(w', cs) == Load(w, cs)
    decreases cs
  {
    if cs != {} {
      var c :| c in cs;
      LoadWithout(w, cs, c);
      LoadWithout(w', cs, c);
      LoadUnchanged(w, w', cs - {c});
    }
  }

  lemma NoteStepSheds(w: World, st: Step)
    requires Enabled(w, st) && (st.Forward? || st.Deliver?)
    ensures Next(w, st).nodes.Keys == w.nodes.Keys
    ensures Load(Next(w, st), w.nodes.Keys) == Load(w, w.nodes.Keys) - 1
  {
    var w', all := Next(w, st), w.nodes.Keys;
    LoadWithout(w, all, st.c);
    LoadWithout(w', all, st.c);
    LoadUnchanged(w, w', all - {st.c});
  }

  lemma {:induction false} QuietIsUnloaded(w: World, cs: set<Cid>)
    requires cs <= w.nodes.Keys
    ensures Load(w, cs) == 0 <==> forall c :: c in cs ==> Weight(w, c) == 0
    decreases cs
  {
    if cs != {} {
      var c :| c in cs;
      LoadWithout(w, cs, c);
      QuietIsUnloaded(w, cs - {c});
    }
  }

  /** However the notes are scheduled, they run out after the same number of steps, and not before:
      two for each queued note, and one for each forwarded one. Until then some note can move. */
  lemma {:induction false} EveryScheduleEnds(w: World, steps: seq<Step>)
    requires Legal(w, steps) && NotesOnly(steps)
    ensures |steps| <= Load(w, w.nodes.Keys)
    ensures Quiet(Run(w, steps)) <==> |steps| == Load(w, w.nodes.Keys)
    ensures Quiet(Run(w, steps)) <==>
            !exists c :: Enabled(Run(w, steps), Forward(c)) || Enabled(Run(w, steps), Deliver(c))
    decreases |steps|
  {
    if steps == [] {
      QuietIsUnloaded(w, w.nodes.Keys);
      assert Quiet(w) <==> forall c :: c in w.nodes.Keys ==> Weight(w, c) == 0;
      if c :| c in w.nodes && Weight(w, c) != 0 {
        assert Enabled(w, Forward(c)) || Enabled(w, Deliver(c));
      }
    } else {
      assert steps[0] in steps;
      NoteStepSheds(w, steps[0]);
      EveryScheduleEnds(Next(w, steps[0]), steps[1..]);
    }
  }

  lemma BacklogMentions(w: World, c: Cid, p: Path)
    requires c in w.nodes && c in w.server.queues
    ensures Mentions(Backlog(w, c), p) <==> Pending(w.server, c, w.nodes[c], p)
  {
    var stream, queue := w.nodes[c].stream, w.server.queues[c];
    if i :| 0 <= i < |stream| && stream[i].path == p { assert Backlog(w, c)[i].path == p; }
    if i :| 0 <= i < |queue| && queue[i].path == p { assert Backlog(w, c)[|stream| + i].path == p; }
    if i :| 0 <= i < |Backlog(w, c)| && Backlog(w, c)[i].path == p {
      assert if i < |stream| then stream[i].path == p else queue[i - |stream|].path == p;
    }
  }

  // --------------------------------------------------------------------------------- renaming

  ghost predicate NobodyCaches(w: World, q: Path) {
    forall d :: d in w.nodes ==> q !in w.nodes[d].client.cache
  }

  /** Rename preserves coherence: for a registered file with no note pending at the renamer, to a
      name nobody caches, every entry that was sound stays so. The renamer's unmodified entry is
      the server's file under the new name and registered there; every other live registrant has
      been told about the old name. */
  lemma RenamePreservesCoherence(w: World, c: Cid, p: Path, q: Path, call: Call)
    requires Struct(w) && Enabled(w, Rename(c, p, q, call)) && c in w.server.queues
    requires p != q && Announced(w.server, p, call) && Registered(w.server, p, c)
    requires p in w.nodes[c].client.cache && At(Content, w, c, p)
    requires !Pending(w.server, c, w.nodes[c], p) && NobodyCaches(w, q)
    ensures var w' := Next(w, Rename(c, p, q, call));
            var cl, cl' := w.nodes[c].client, w'.nodes[c].client;
            && Struct(w')
            && (forall k, d, r :: At(k, w, d, r) ==> At(k, w', d, r))
            && p !in cl'.cache && q in cl'.cache && cl'.cache[q] == cl.cache[p]
            && Registered(w'.server, q, c) && p !in w'.server.reg
            && (!cl.cache[p] ==> SameAsServer(w'.server, cl', q))
            && (forall d :: d in w.server.queues && d != c && Registered(w.server, p, d) ==>
                              Pending(w'.server, d, w'.nodes[d], p))
  {
    var st := Rename(c, p, q, call);
    var w' := Next(w, st);
    StepKeepsStruct(w, st);
    forall k, d, r | At(k, w, d, r) ensures At(k, w', d, r) {
      EntryKeptExactlyWhen(k, w, st, d, r);
      assert SafeAt(k, w, st, d, r);
    }
    forall d | d in w.server.queues && d != c && Registered(w.server, p, d)
      ensures Pending(w'.server, d, w'.nodes[d], p)
    {
      AppendMentions(w.server.queues[d], Note(Renamed(q), p), p);
    }
  }
}
