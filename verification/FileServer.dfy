/**
 The server's handlers as they run: loops over messages, chunks and registrants, updating the
 server's maps and queues in place. Each is proved to do what its function in ServerModel says.
 */
module FileServer {
  import opened Wire
  import opened Keys
  import opened Notifications
  import opened ServerModel

  // directory + (directory.back() == '/' ? "" : "/") + filename
  function RequestPath(directory: string, filename: string): Path {
    directory + Sep(directory) + filename
  }

  /** The path the server builds from a request is the path the client keeps attributes under, and
      that its local key stands for. */
  lemma RequestsNameServerPaths(root: string, dir: string, name: string)
    ensures RequestPath(Resolve(root, dir), name) == ServerPath(root, dir, name)
  {
  }

  // The read loop of open: chunk after chunk, until the file or the stream ends.
  method StreamFile(file: Bytes, writable: nat) returns (sent: seq<Bytes>, ok: bool)
    ensures sent == Chunks(file)[..Min(writable, |Chunks(file)|)]
    ensures ok <==> writable >= |Chunks(file)|
  {
    ghost var all := Chunks(file);
    sent := [];
    var pos := 0;
    while true
      invariant pos == Min(|sent| * CHUNK, |file|)
      invariant |sent| <= |all| && |sent| <= writable && sent == all[..|sent|]
      decreases |file| - pos
    {
      var len := Min(CHUNK, |file| - pos);
      ChunkAt(file, |sent|);
      if len <= 0 { break; }
      if |sent| == writable { return sent, false; }
      var buffer := file[pos..pos + len];
      OneMore(all, sent, buffer);
      sent := sent + [buffer];
      pos := pos + len;
    }
    ok := true;
    assert |sent| == |all|;
  }

  class FileSystem {
    var files: map<Path, Bytes>                       // the files below root_dir
    var file_map: map<Path, set<Cid>>
    var subscribers: map<Cid, NotificationQueue>
    var jammed: bool                                  // file_map_mutex is held for ever

    // No two clients share a queue.
    ghost predicate Valid()
      reads this
    {
      forall c, d :: c in subscribers && d in subscribers && c != d ==> subscribers[c] != subscribers[d]
    }

    ghost function Queues(): map<Cid, seq<Note>>
      reads this, subscribers.Values
    {
      map c | c in subscribers :: subscribers[c].queue
    }

    ghost function View(): Server
      reads this, subscribers.Values
    {
      Server(files, file_map, Queues(), jammed)
    }

    constructor (files: map<Path, Bytes>)
      ensures Valid() && View() == Server(files, map[], map[], false)
    {
      this.files, file_map, subscribers, jammed := files, map[], map[], false;
    }

    // The first part of subscribe: a queue of the client's own, open for notes.
    method Subscribe(client_id: Cid)
      requires Valid()
      modifies this`subscribers
      ensures Valid() && View() == ServerModel.Subscribe(old(View()), client_id)
      ensures client_id in subscribers && fresh(subscribers[client_id]) && !subscribers[client_id].shutdown
    {
      var queue := new NotificationQueue();
      queue.shutdown := false;
      subscribers := subscribers[client_id := queue];
      assert Queues() == old(Queues())[client_id := []];
    }

    // The loop over the registrants, common to the three callbacks.
    method NotifyAll(client_set: set<Cid>, client_id: Cid, notif: Note)
      requires Valid()
      modifies subscribers.Values
      ensures Valid() && subscribers == old(subscribers)
      ensures View() == old(View()).(queues := FanOut(old(Queues()), client_set - {client_id}, notif))
    {
      var todo := client_set;
      while todo != {}
        invariant todo <= client_set
        invariant forall c :: c in subscribers ==>
                                subscribers[c].queue ==
                                if c in client_set - todo - {client_id} then old(subscribers[c].queue) + [notif]
                                else old(subscribers[c].queue)
      {
        var client :| client in todo;
        todo := todo - {client};
        if client != client_id && client in subscribers {
          subscribers[client].Push(notif);
        }
      }
      assert Queues() == FanOut(old(Queues()), client_set - {client_id}, notif);
    }

    // Each of the callbacks takes file_map_mutex first, and is stuck if that is held for ever.
    method FileChangeCallbackClose(path: Path, client_id: Cid, notif: Note) returns (stuck: bool)
      requires Valid()
      modifies this`file_map, subscribers.Values
      ensures Valid() && subscribers == old(subscribers) && jammed == old(jammed)
      ensures View() == CloseCallback(old(View()), path, client_id, notif) && stuck == jammed
    {
      if jammed { return true; }
      if path in file_map {
        NotifyAll(file_map[path], client_id, notif);
      } else {
        file_map := file_map[path := {client_id}];
      }
      stuck := false;
    }

    // Entered with an unregistered old path, this locks the mutex it holds.
    method FileChangeCallbackRename(old_path: Path, new_path: Path, client_id: Cid, notif: Note)
      returns (stuck: bool)
      requires Valid()
      modifies this`file_map, this`jammed, subscribers.Values
      ensures Valid() && subscribers == old(subscribers)
      ensures View() == RenameCallback(old(View()), old_path, new_path, client_id, notif) && stuck == jammed
    {
      if jammed { return true; }
      if old_path !in file_map {
        jammed := true;
        return true;
      }
      var client_set := file_map[old_path];
      NotifyAll(client_set, client_id, notif);
      file_map := file_map[new_path := client_set];
      file_map := file_map - {old_path};
      stuck := false;
    }

    method FileChangeCallbackUnlink(path: Path, client_id: Cid, notif: Note) returns (stuck: bool)
      requires Valid()
      modifies this`file_map, subscribers.Values
      ensures Valid() && subscribers == old(subscribers) && jammed == old(jammed)
      ensures View() == UnlinkCallback(old(View()), path, client_id, notif) && stuck == jammed
    {
      if jammed { return true; }
      if path in file_map {
        NotifyAll(file_map[path], client_id, notif);
        file_map := file_map - {path};
      }
      stuck := false;
    }

    /** open: register, then stream the file. The client accepts writable chunks before the stream
        breaks. ok is the status: not found, interrupted, or complete. A handler that is stuck has
        done nothing and never answers. */
    method Open(directory: string, filename: string, client_id: Cid, writable: nat)
      returns (sent: seq<Bytes>, ok: bool, stuck: bool)
      requires Valid()
      modifies this`file_map
      ensures Valid() && View() == Register(old(View()), client_id, RequestPath(directory, filename))
      ensures stuck == jammed
      ensures var p := RequestPath(directory, filename);
              && (stuck || p !in files ==> sent == [] && !ok)
              && (!stuck && p in files ==>
                    && sent == Chunks(files[p])[..Min(writable, |Chunks(files[p])|)]
                    && (ok <==> writable >= |Chunks(files[p])|))
    {
      if jammed { return [], false, true; }
      var path := directory + Sep(directory) + filename;
      file_map := file_map[path := (if path in file_map then file_map[path] else {}) + {client_id}];
      assert Queues() == old(Queues());
      stuck := false;
      if path !in files { return [], false, false; }
      sent, ok := StreamFile(files[path], writable);
    }

    // The receive loop of close; ok tells that a file was opened.
    method ReceiveMessages(directory: string, filename: string, messages: seq<Bytes>) returns (path: Path, ok: bool)
      modifies this`files
      ensures ok <==> messages != [] && !EndsWithSlash(RequestPath(directory, filename))
      ensures ok ==> path == RequestPath(directory, filename)
      ensures files == if ok then old(files)[path := Concat(messages)] else old(files)
    {
      path := "";
      ok := false;
      var i := 0;
      while i < |messages|
        invariant 0 <= i <= |messages| && (ok <==> i > 0)
        invariant path == if ok then RequestPath(directory, filename) else ""
        invariant ok ==> !EndsWithSlash(path)
        invariant files == if ok then old(files)[path := Concat(messages[..i])] else old(files)
      {
        if filename == "" || path == "" {
          path := directory + Sep(directory) + filename;
          if EndsWithSlash(path) { return; }
          files := files[path := []];       // opening the stream truncates the file
          ok := true;
        }
        files := files[path := files[path] + messages[i]];
        ConcatSnoc(messages[..i], messages[i]);
        assert messages[..i + 1] == messages[..i] + [messages[i]];
        i := i + 1;
      }
      assert messages[..i] == messages;
    }

    /** close: write the messages that arrive, then run the callback. It cannot tell a complete
        upload from one that was cut. Refused are an upload without any message, and one to a path
        that ends in a slash, as it does when the file name is empty: that cannot be opened. The file
        is written even if the callback is then stuck. */
    method Close(directory: string, filename: string, client_id: Cid, messages: seq<Bytes>)
      returns (ok: bool, stuck: bool)
      requires Valid()
      modifies this`files, this`file_map, subscribers.Values
      ensures Valid() && subscribers == old(subscribers) && jammed == old(jammed)
      ensures var taken := messages != [] && !EndsWithSlash(RequestPath(directory, filename));
              && stuck == (jammed && taken) && ok == (!jammed && taken)
              && View() == if taken then CloseRpc(old(View()), client_id, RequestPath(directory, filename), messages)
                           else old(View())
    {
      var path, taken := ReceiveMessages(directory, filename, messages);
      assert Queues() == old(Queues());
      if !taken { return false, false; }
      stuck := FileChangeCallbackClose(path, client_id, Note(Update, path));
      ok := !stuck;
    }

    method Unlink(directory: string, client_id: Cid) returns (ok: bool, stuck: bool)
      requires Valid()
      modifies this`files, this`file_map, subscribers.Values
      ensures Valid() && subscribers == old(subscribers) && jammed == old(jammed)
      ensures View() == UnlinkRpc(old(View()), client_id, directory)
      ensures stuck == (jammed && directory in old(files)) && ok == (!jammed && directory in old(files))
    {
      if directory !in files { return false, false; }
      files := files - {directory};
      assert Queues() == old(Queues());
      stuck := FileChangeCallbackUnlink(directory, client_id, Note(Deleted, directory));
      ok := !stuck;
    }

    /** rename. Either it answers, or it is stuck with the file moved and the registry as it was; it
        jams the server if the file exists and nobody is registered for it. */
    method Rename(directory: string, filename: string, new_directory: string, new_filename: string, client_id: Cid)
      returns (ok: bool, stuck: bool)
      requires Valid()
      modifies this`files, this`file_map, this`jammed, subscribers.Values
      ensures Valid() && subscribers == old(subscribers)
      ensures var p, q := RequestPath(directory, filename), RequestPath(new_directory, new_filename);
              && View() == RenameRpc(old(View()), client_id, p, q)
              && stuck == !RenameReturns(old(View()), p)
              && ok == (!stuck && p in old(files))
    {
      var old_path := directory + Sep(directory) + filename;
      var new_path := new_directory + Sep(new_directory) + new_filename;
      if old_path !in files { return false, false; }
      files := (files - {old_path})[new_path := files[old_path]];
      assert Queues() == old(Queues());
      stuck := FileChangeCallbackRename(old_path, new_path, client_id, Note(Renamed(new_path), old_path));
      ok := !stuck;
    }

    // The registry is walked and entries left empty are erased on the way.
    method CleanupRegistry(client_id: Cid)
      modifies this`file_map
      ensures file_map == Cleanup(Server(files, old(file_map), map[], false), client_id).reg
    {
      var todo := file_map.Keys;
      while todo != {}
        invariant todo <= old(file_map).Keys
        invariant forall p :: p in file_map <==>
                                p in old(file_map) && (p in todo || old(file_map)[p] - {client_id} != {})
        invariant forall p :: p in file_map ==>
                                file_map[p] == if p in todo then old(file_map)[p] else old(file_map)[p] - {client_id}
      {
        var path :| path in todo;
        file_map := file_map[path := file_map[path] - {client_id}];
        if file_map[path] == {} {
          file_map := file_map - {path};
        }
        todo := todo - {path};
      }
    }

    // The queue is shut down and taken out.
    method CleanupSubscription(client_id: Cid)
      requires Valid()
      modifies this`subscribers, subscribers.Values
      ensures Valid() && Queues() == old(Queues()) - {client_id}
      ensures client_id in old(subscribers) ==> old(subscribers)[client_id].shutdown
    {
      if client_id in subscribers {
        subscribers[client_id].Cancel();
        subscribers := subscribers - {client_id};
      }
      assert Queues() == old(Queues()) - {client_id};
    }

    // cleanup_client
    method CleanupClient(client_id: Cid) returns (stuck: bool)
      requires Valid()
      modifies this`file_map, this`subscribers, subscribers.Values
      ensures Valid() && View() == Cleanup(old(View()), client_id) && stuck == jammed
      ensures !stuck && client_id in old(subscribers) ==> old(subscribers)[client_id].shutdown
    {
      if jammed { return true; }
      CleanupRegistry(client_id);
      CleanupSubscription(client_id);
      stuck := false;
    }

    /** The end of subscribe, once the monitor has cancelled the queue: what is left is written to
        the stream, up to the write that fails, and then the client is forgotten. */
    method DrainAndForget(client_id: Cid, writable: nat) returns (written: seq<Note>, stuck: bool)
      requires Valid() && client_id in subscribers && subscribers[client_id].shutdown
      modifies this`file_map, this`subscribers, subscribers.Values
      ensures Valid() && stuck == jammed
      ensures var all := old(Queues())[client_id];
              && written == all[..Min(writable, |all|)]
              && View() == if stuck then old(View()).(queues := old(Queues())[client_id := all[Min(writable + 1, |all|)..]])
                           else Cleanup(old(View()), client_id)
    {
      var queue := subscribers[client_id];
      written := Drain(queue, writable);
      ghost var rest := queue.queue;
      assert Queues() == old(Queues())[client_id := rest];
      ghost var drained := View();
      stuck := CleanupClient(client_id);
      assert drained == old(View()).(queues := old(Queues())[client_id := rest]);
      assert old(Queues())[client_id := rest] - {client_id} == old(Queues()) - {client_id};
    }
  }

  // The loop of subscribe over a queue that is shut down.
  method Drain(queue: NotificationQueue, writable: nat) returns (written: seq<Note>)
    requires queue.shutdown
    modifies queue`queue
    ensures written == old(queue.queue)[..Min(writable, |old(queue.queue)|)]
    // the note that could not be written is gone too
    ensures queue.queue == old(queue.queue)[Min(writable + 1, |old(queue.queue)|)..]
  {
    ghost var all := queue.queue;
    written := [];
    var more, note := queue.Pop();
    while more
      invariant |written| <= writable
      invariant all == written + (if more then [note] + queue.queue else []) && (!more ==> queue.queue == [])
      decreases |queue.queue|, more
    {
      if |written| == writable { break; }
      written := written + [note];
      more, note := queue.Pop();
    }
    assert written == all[..|written|];
    assert queue.queue == if more then all[|written| + 1..] else all[|written|..];
  }
}
