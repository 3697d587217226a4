/**
 The server as a value: its files, the registry of which clients hold which path, and the
 notification queue of every subscribed client. Each handler is a function on it.
 */
module ServerModel {
  import opened Wire
  import opened Keys
  import opened Notifications

  datatype Server = Server(
    files: map<Path, Bytes>,
    reg: map<Path, set<Cid>>,         // file_map
    queues: map<Cid, seq<Note>>,      // subscribers, with the contents of each queue
    jammed: bool)                    // a handler holds file_map_mutex for ever

  predicate Registered(s: Server, p: Path, c: Cid) {
    p in s.reg && c in s.reg[p]
  }

  function FanOut(queues: map<Cid, seq<Note>>, targets: set<Cid>, n: Note): map<Cid, seq<Note>> {
    map c | c in queues :: if c in targets then queues[c] + [n] else queues[c]
  }

  // subscribe: a new, empty queue
  function Subscribe(s: Server, c: Cid): Server {
    s.(queues := s.queues[c := []])
  }

  // open registers its caller before it looks at the file. On a jammed server it gets no further
  // than the mutex, and so does every callback below.
  function Register(s: Server, c: Cid, p: Path): Server {
    if s.jammed then s
    else s.(reg := s.reg[p := (if p in s.reg then s.reg[p] else {}) + {c}])
  }

  // file_change_callback_close
  function CloseCallback(s: Server, p: Path, c: Cid, n: Note): Server {
    if s.jammed then s
    else if p in s.reg then s.(queues := FanOut(s.queues, s.reg[p] - {c}, n))
    else s.(reg := s.reg[p := {c}])
  }

  // file_change_callback_rename. On an unregistered path the handler locks a mutex it already
  // holds, and never returns.
  function RenameCallback(s: Server, p: Path, q: Path, c: Cid, n: Note): Server {
    if s.jammed then s
    else if p !in s.reg then s.(jammed := true)
    else s.(queues := FanOut(s.queues, s.reg[p] - {c}, n), reg := s.reg[q := s.reg[p]] - {p})
  }

  // file_change_callback_unlink
  function UnlinkCallback(s: Server, p: Path, c: Cid, n: Note): Server {
    if s.jammed || p !in s.reg then s
    else s.(queues := FanOut(s.queues, s.reg[p] - {c}, n), reg := s.reg - {p})
  }

  // cleanup_client
  function Cleanup(s: Server, c: Cid): Server {
    if s.jammed then s
    else s.(reg := map p | p in s.reg && s.reg[p] - {c} != {} :: s.reg[p] - {c}, queues := s.queues - {c})
  }

  // close: the messages that arrive replace the file, and their arrival runs the callback,
  // whether or not the upload was complete. No message at all changes nothing.
  function CloseRpc(s: Server, c: Cid, p: Path, messages: seq<Bytes>): Server {
    if messages == [] then s
    else CloseCallback(s.(files := s.files[p := Concat(messages)]), p, c, Note(Update, p))
  }

  function UnlinkRpc(s: Server, c: Cid, p: Path): Server {
    if p in s.files then UnlinkCallback(s.(files := s.files - {p}), p, c, Note(Deleted, p)) else s
  }

  // The rename of p is answered.
  predicate RenameReturns(s: Server, p: Path) {
    p in s.files ==> !s.jammed && p in s.reg
  }

  function RenameRpc(s: Server, c: Cid, p: Path, q: Path): Server {
    if p !in s.files then s
    else RenameCallback(s.(files := (s.files - {p})[q := s.files[p]]), p, q, c, Note(Renamed(q), p))
  }

  // ------------------------------------------------------------------------------ properties

  /** open registers its caller for the path and changes nothing else. */
  lemma RegisterEffect(s: Server, c: Cid, p: Path, q: Path, d: Cid)
    requires !s.jammed
    ensures var s' := Register(s, c, p);
            && (Registered(s', q, d) <==> Registered(s, q, d) || (q == p && d == c))
            && (q in s'.reg <==> q in s.reg || q == p)
            && s'.files == s.files && s'.queues == s.queues && !s'.jammed
  {
  }

  /** A close of which messages arrive replaces the file by their contents. Nobody loses a
      registration, and only the closer can gain one, if the path had none at all; then nobody is
      told. */
  lemma CloseEffect(s: Server, c: Cid, p: Path, messages: seq<Bytes>, q: Path, d: Cid)
    requires !s.jammed && messages != []
    ensures var s' := CloseRpc(s, c, p, messages);
            && p in s'.files && s'.files[p] == Concat(messages)
            && (q != p ==> (q in s'.files <==> q in s.files) && (q in s.files ==> s'.files[q] == s.files[q]))
            && (Registered(s', q, d) <==> Registered(s, q, d) || (q == p && d == c && p !in s.reg))
            && (q in s'.reg <==> q in s.reg || q == p)
            && (p !in s.reg ==> s'.queues == s.queues) && !s'.jammed
  {
  }

  /** An unlink of an existing file removes the file and all its registrations, and no others; of an
      absent one it changes nothing. */
  lemma UnlinkEffect(s: Server, c: Cid, p: Path, q: Path)
    requires !s.jammed
    ensures var s' := UnlinkRpc(s, c, p);
            && (p !in s.files ==> s' == s)
            && (p in s.files ==>
                  && p !in s'.files && p !in s'.reg && !s'.jammed
                  && (p !in s.reg ==> s'.queues == s.queues)
                  && (q != p ==>
                        && (q in s'.files <==> q in s.files) && (q in s.files ==> s'.files[q] == s.files[q])
                        && (q in s'.reg <==> q in s.reg) && (q in s.reg ==> s'.reg[q] == s.reg[q])))
  {
  }

  /** A rename of an existing, registered file puts its bytes and its registrants at the new name, in
      place of what was there, and leaves neither at the old one. */
  lemma RenameEffect(s: Server, c: Cid, p: Path, q: Path, r: Path)
    requires RenameReturns(s, p) && p != q
    ensures var s' := RenameRpc(s, c, p, q);
            && (p !in s.files ==> s' == s)
            && (p in s.files ==>
                  && p !in s'.files && p !in s'.reg && !s'.jammed
                  && q in s'.files && s'.files[q] == s.files[p]
                  && q in s'.reg && s'.reg[q] == s.reg[p]
                  && (r != p && r != q ==>
                        && (r in s'.files <==> r in s.files) && (r in s.files ==> s'.files[r] == s.files[r])
                        && (r in s'.reg <==> r in s.reg) && (r in s.reg ==> s'.reg[r] == s.reg[r])))
  {
  }

  /** A jammed server tells nobody and changes no registration, but still writes, removes and moves
      files. The rename of an existing file nobody is registered for is what jams it. */
  lemma JammedEffect(s: Server, c: Cid, p: Path, q: Path, messages: seq<Bytes>)
    ensures s.jammed ==>
              && Register(s, c, p) == s && Cleanup(s, c) == s
              && (messages != [] ==> CloseRpc(s, c, p, messages) == s.(files := s.files[p := Concat(messages)]))
              && UnlinkRpc(s, c, p) == s.(files := s.files - {p})
    ensures var s' := RenameRpc(s, c, p, q);
            && (s'.jammed <==> s.jammed || (p in s.files && p !in s.reg))
            && (!RenameReturns(s, p) ==>
                  && s'.reg == s.reg && s'.queues == s.queues
                  && q in s'.files && s'.files[q] == s.files[p] && (p != q ==> p !in s'.files))
  {
    if p !in s.files { assert s.files - {p} == s.files; }
  }

  /** Close, unlink and rename of a registered path append exactly one note, at the end, to the
      queue of every subscribed registrant except the initiator, and touch no other queue. */
  lemma FanOutExactlyOnce(s: Server, p: Path, q: Path, c: Cid, messages: seq<Bytes>, d: Cid)
    requires !s.jammed && p in s.reg && p in s.files && messages != [] && d in s.queues
    ensures var told := d in s.reg[p] && d != c;
            && CloseRpc(s, c, p, messages).queues.Keys == s.queues.Keys
            && CloseRpc(s, c, p, messages).queues[d] == s.queues[d] + (if told then [Note(Update, p)] else [])
            && UnlinkRpc(s, c, p).queues.Keys == s.queues.Keys
            && UnlinkRpc(s, c, p).queues[d] == s.queues[d] + (if told then [Note(Deleted, p)] else [])
            && RenameRpc(s, c, p, q).queues.Keys == s.queues.Keys
            && RenameRpc(s, c, p, q).queues[d] == s.queues[d] + (if told then [Note(Renamed(q), p)] else [])
  {
  }

  // No path is registered to nobody.
  ghost predicate NoEmptyEntry(s: Server) {
    forall p :: p in s.reg ==> s.reg[p] != {}
  }

  /** Whoever closes a file with changes is registered for it afterwards exactly when it already
      was, or nobody was. */
  lemma CloserRegisteredExactlyWhen(s: Server, c: Cid, p: Path, messages: seq<Bytes>)
    requires !s.jammed && messages != []
    ensures Registered(CloseRpc(s, c, p, messages), p, c) <==> (Registered(s, p, c) || p !in s.reg)
  {
  }

  /** Cleaning up after a client removes that client everywhere and nothing else. */
  lemma CleanupRemovesOneClient(s: Server, c: Cid)
    requires !s.jammed && NoEmptyEntry(s)
    ensures NoEmptyEntry(Cleanup(s, c))
    ensures Cleanup(s, c).files == s.files
    ensures forall p, d :: Registered(Cleanup(s, c), p, d) <==> Registered(s, p, d) && d != c
    ensures forall d :: d in Cleanup(s, c).queues <==> d in s.queues && d != c
    ensures forall d :: d in Cleanup(s, c).queues ==> Cleanup(s, c).queues[d] == s.queues[d]
  {
    forall p, d ensures Registered(Cleanup(s, c), p, d) <==> Registered(s, p, d) && d != c {
      if Registered(s, p, d) && d != c { assert d in s.reg[p] - {c}; }
    }
  }
}
