/**
 The client's operations as they run: key building, retry and chunk loops, and maps updated in
 place. view is the same client with every file named by its server path; each operation is
 proved to change it as its function in ClientModel says.
 */
module FileClient {
  import opened Wire
  import opened Keys
  import opened Notifications
  import opened RenameKeys
  import opened ClientModel
  import opened Mirror

  // One upload attempt: how many writes the stream takes, and the final status.
  datatype Ack = Ack(writable: nat, ok: bool)

  datatype RenameStatus = Renamed | NotFound | Failed

  // The chunk loop of close_file, which sends at least one message.
  method SendFile(bytes: Bytes, writable: nat) returns (sent: seq<Bytes>)
    ensures sent == UploadMessages(bytes)[..Min(writable, |UploadMessages(bytes)|)]
  {
    ghost var all := UploadMessages(bytes);
    sent := [];
    var pos := 0;
    var sentAtLeastOnce := false;
    while true
      invariant pos == Min(|sent| * CHUNK, |bytes|) && (sentAtLeastOnce <==> |sent| > 0)
      invariant |sent| <= |all| && |sent| <= writable && sent == all[..|sent|]
      decreases |bytes| - pos, !sentAtLeastOnce
    {
      var len := Min(CHUNK, |bytes| - pos);
      MessageAt(bytes, |sent|);
      if len <= 0 && sentAtLeastOnce { break; }
      var buffer := bytes[pos..pos + len];
      if |sent| == writable { break; }
      OneMore(all, sent, buffer);
      sent := sent + [buffer];
      pos := pos + len;
      sentAtLeastOnce := true;
      MessageAt(bytes, |sent|);
      if len <= 0 { break; }
    }
  }

  // The messages of every upload attempt made, up to the first that is acknowledged.
  ghost predicate UploadTrace(bytes: Bytes, acks: seq<Ack>, uploads: seq<seq<Bytes>>) {
    && 1 <= |uploads| <= |acks|
    && (forall i :: 0 <= i < |uploads| - 1 ==> !acks[i].ok)
    && (|uploads| < |acks| ==> acks[|uploads| - 1].ok)
    && (forall i :: 0 <= i < |uploads| ==>
                      uploads[i] == UploadMessages(bytes)[..Min(acks[i].writable, |UploadMessages(bytes)|)])
  }

  // The retry loop of close_file.
  method UploadWithRetries(bytes: Bytes, acks: seq<Ack>) returns (status: bool, uploads: seq<seq<Bytes>>)
    requires |acks| == TRIES
    ensures status <==> exists i :: 0 <= i < |acks| && acks[i].ok
    ensures UploadTrace(bytes, acks, uploads)
  {
    uploads := [];
    var tries := 0;
    status := false;
    while tries < 3 && !status
      invariant 0 <= tries <= 3 && |uploads| == tries
      invariant status ==> tries > 0 && acks[tries - 1].ok
      invariant forall i :: 0 <= i < (if status then tries - 1 else tries) ==> !acks[i].ok
      invariant forall i :: 0 <= i < tries ==>
                              uploads[i] == UploadMessages(bytes)[..Min(acks[i].writable, |UploadMessages(bytes)|)]
      decreases 3 - tries
    {
      var sent := SendFile(bytes, acks[tries].writable);
      uploads := uploads + [sent];
      status := acks[tries].ok;
      tries := tries + 1;
    }
  }

  // The receive loop of a download attempt: what ends up in the local file.
  method ReceiveFile(chunks: seq<Bytes>) returns (outfile: Bytes)
    ensures outfile == Concat(chunks)
  {
    outfile := [];
    var i := 0;
    while i < |chunks|
      invariant 0 <= i <= |chunks|
      invariant outfile == Concat(chunks[..i])
    {
      ConcatSnoc(chunks[..i], chunks[i]);
      assert chunks[..i + 1] == chunks[..i] + [chunks[i]];
      if |chunks[i]| > 0 {
        outfile := outfile + chunks[i];
      }
      i := i + 1;
    }
    assert chunks[..i] == chunks;
  }

  // seekg and read: the seek fails on a stream that has failed or is closed, and before the start
  // of the file.
  method ReadStream(stream: Handle, onDisk: bool, bytes: Bytes, size: nat, offset: int)
    returns (stream': Handle, r: ReadResult)
    ensures (stream', r) == SeekAndRead(stream, onDisk, bytes, size, offset)
  {
    stream', r := stream.(readFailed := true), NotRead;
    if !stream.readFailed && !stream.closed && offset >= 0 && onDisk {
      var buffer := Slice(bytes, offset, size);
      stream', r := stream.(readFailed := |buffer| < size), Data(buffer);
    }
  }

  class FileSystemClient {
    const server_root_path: string
    const cache_directory: string
    var cache: map<string, bool>              // locally_modified
    var opened_files: map<string, Handle>
    var file_mutexes: set<string>
    var cached_attr: map<Path, nat>           // sizes, by server path
    var disk: map<string, Bytes>              // the files below cache_directory
    ghost var view: Client

    ghost function N(): Names {
      Names(cache_directory, server_root_path)
    }

    ghost predicate Valid()
      reads this
    {
      && server_root_path != ""
      && Mirrors(N(), cache, view.cache)
      && Mirrors(N(), opened_files, view.handles)
      && MirrorsSet(N(), file_mutexes, view.mutexes)
      && Mirrors(N(), disk, view.disk)
      && cached_attr == view.attr
    }

    // The file an operation is about.
    function Target(filename: string, directory: string): Path {
      ServerPath(server_root_path, directory, filename)
    }

    constructor (root: string, cacheDir: string)
      requires root != ""
      ensures Valid() && view == EMPTY && server_root_path == root && cache_directory == cacheDir
    {
      server_root_path, cache_directory := root, cacheDir;
      cache, opened_files, file_mutexes, cached_attr, disk := map[], map[], {}, map[], map[];
      view := EMPTY;
    }

    // The key open_file builds, and the one the other operations build.
    method KeyForOpen(filename: string, path: string) returns (resolved: string, key: string)
      requires server_root_path != ""
      ensures resolved + Sep(resolved) + filename == Target(filename, path)
      ensures Rooted(server_root_path, Target(filename, path))
      ensures key == Key(N(), Target(filename, path))
    {
      resolved := Resolve(server_root_path, path);
      var cache_dir := cache_directory + Lead(resolved) + resolved;
      key := cache_dir + Sep(cache_dir) + filename;
      OpenAndEditKeysAgree(cache_directory, server_root_path, path, filename);
      ServerPathIsRooted(server_root_path, path, filename);
    }

    method KeyForEdit(filename: string, path: string) returns (resolved: string, key: string)
      requires server_root_path != ""
      ensures resolved + Sep(resolved) + filename == Target(filename, path)
      ensures Rooted(server_root_path, Target(filename, path))
      ensures key == Key(N(), Target(filename, path))
    {
      resolved := Resolve(server_root_path, path);
      key := cache_directory + Lead(resolved) + resolved + Sep(resolved) + filename;
      OpenAndEditKeysAgree(cache_directory, server_root_path, path, filename);
      ServerPathIsRooted(server_root_path, path, filename);
    }

    // Local updates, each with the matching update of the view.
    method SetDisk(key: string, ghost p: Path, bytes: Bytes)
      requires Valid() && Rooted(server_root_path, p) && key == Key(N(), p)
      modifies this`disk, this`view
      ensures Valid() && view == old(view).(disk := old(view).disk[p := bytes])
    {
      MirrorPut(N(), disk, view.disk, p, bytes);
      disk := disk[key := bytes];
      view := view.(disk := view.disk[p := bytes]);
    }

    method RemoveDisk(key: string, ghost p: Path)
      requires Valid() && Refers(N(), key, p)
      modifies this`disk, this`view
      ensures Valid() && view == old(view).(disk := old(view).disk - {p})
    {
      MirrorErase(N(), disk, view.disk, key, p);
      disk := disk - {key};
      view := view.(disk := view.disk - {p});
    }

    method SetCache(key: string, ghost p: Path, modified: bool)
      requires Valid() && Rooted(server_root_path, p) && key == Key(N(), p)
      modifies this`cache, this`view
      ensures Valid() && view == old(view).(cache := old(view).cache[p := modified])
    {
      MirrorPut(N(), cache, view.cache, p, modified);
      cache := cache[key := modified];
      view := view.(cache := view.cache[p := modified]);
    }

    method SetHandle(key: string, ghost p: Path, h: Handle)
      requires Valid() && Rooted(server_root_path, p) && key == Key(N(), p)
      modifies this`opened_files, this`view
      ensures Valid() && view == old(view).(handles := old(view).handles[p := h])
    {
      MirrorPut(N(), opened_files, view.handles, p, h);
      opened_files := opened_files[key := h];
      view := view.(handles := view.handles[p := h]);
    }

    // opened_files and file_mutexes gain an entry together.
    method EnterOpened(key: string, ghost p: Path)
      requires Valid() && Rooted(server_root_path, p) && key == Key(N(), p)
      modifies this`opened_files, this`file_mutexes, this`view
      ensures Valid() && view == OpenStreams(old(view), p)
    {
      SetHandle(key, p, FRESH);
      AddMutex(key, p);
    }

    method AddMutex(key: string, ghost p: Path)
      requires Valid() && Rooted(server_root_path, p) && key == Key(N(), p)
      modifies this`file_mutexes, this`view
      ensures Valid() && view == old(view).(mutexes := old(view).mutexes + {p})
    {
      MirrorAdd(N(), file_mutexes, view.mutexes, p);
      file_mutexes := file_mutexes + {key};
      view := view.(mutexes := view.mutexes + {p});
    }

    method EraseOpened(key: string, ghost p: Path)
      requires Valid() && Refers(N(), key, p)
      modifies this`opened_files, this`file_mutexes, this`view
      ensures Valid() && view == Forget(old(view), p)
    {
      MirrorErase(N(), opened_files, view.handles, key, p);
      MirrorRemove(N(), file_mutexes, view.mutexes, key, p);
      opened_files := opened_files - {key};
      file_mutexes := file_mutexes - {key};
      view := Forget(view, p);
    }

    method EraseCached(key: string, ghost p: Path)
      requires Valid() && Refers(N(), key, p)
      modifies this`cache, this`view
      ensures Valid() && view == old(view).(cache := old(view).cache - {p})
    {
      MirrorErase(N(), cache, view.cache, key, p);
      cache := cache - {key};
      view := view.(cache := view.cache - {p});
    }

    method EraseAttr(server_key: Path)
      requires Valid()
      modifies this`cached_attr, this`view
      ensures Valid() && view == old(view).(attr := old(view).attr - {server_key})
    {
      cached_attr := cached_attr - {server_key};
      view := view.(attr := view.attr - {server_key});
    }

    method SetSize(server_key: Path, size: nat)
      requires Valid()
      modifies this`cached_attr, this`view
      ensures Valid() && view == old(view).(attr := old(view).attr[server_key := size])
    {
      cached_attr := cached_attr[server_key := size];
      view := view.(attr := view.attr[server_key := size]);
    }

    // The checks in front of reading and writing.
    method CheckUsable(key: string, ghost p: Path) returns (usable: bool)
      requires Valid() && Rooted(server_root_path, p) && key == Key(N(), p)
      ensures usable <==> Usable(view, p)
      ensures usable ==> key in opened_files && opened_files[key] == view.handles[p]
      ensures key in disk <==> p in view.disk
      ensures key in disk ==> disk[key] == view.disk[p]
    {
      MirroredMember(N(), file_mutexes, view.mutexes, p);
      usable := key in cache && key in opened_files && key in file_mutexes;
    }

    method SyncSize(server_key: string, key: string)
      requires Valid() && Rooted(server_root_path, server_key) && key == Key(N(), server_key)
      modifies this`cached_attr, this`view
      ensures Valid() && view == SyncAttr(old(view), server_key)
    {
      if server_key in cached_attr && key in disk {
        cached_attr := cached_attr[server_key := |disk[key]|];
        view := view.(attr := view.attr[server_key := |disk[key]|]);
      }
    }

    // One round of the download loop: receive chunks until the stream ends, then its status.
    method DownloadOnce(server_key: string, key: string, reply: Reply)
      requires Valid() && Rooted(server_root_path, server_key) && key == Key(N(), server_key)
      modifies this`disk, this`cache, this`cached_attr, this`view
      ensures Valid() && view == Attempt(old(view), server_key, reply)
    {
      var outfile := ReceiveFile(reply.chunks);
      SetDisk(key, server_key, outfile);
      if reply.ok { SetCache(key, server_key, false); }
      SyncSize(server_key, key);
    }

    // The retry loop of open_file.
    method DownloadWithRetries(server_key: string, key: string, net: seq<Reply>) returns (status: bool)
      requires Valid() && Rooted(server_root_path, server_key) && key == Key(N(), server_key) && |net| == TRIES
      modifies this`disk, this`cache, this`cached_attr, this`view
      ensures Valid() && view == Download(old(view), server_key, net) && status == Succeeds(net)
    {
      var tries := 0;
      status := false;
      while tries < 3 && !status
        invariant 0 <= tries <= 3 && Valid()
        invariant Download(old(view), server_key, net) ==
                  if status then view else Download(view, server_key, net[tries..])
        invariant Succeeds(net) <==> status || Succeeds(net[tries..])
        decreases 3 - tries, !status
      {
        var reply := net[tries];
        DownloadOnce(server_key, key, reply);
        assert net[tries..][1..] == net[tries + 1..];
        SucceedsFirst(net[tries..]);
        status := reply.ok;
        tries := tries + 1;
      }
    }

    /** open_file. net holds what the download attempts would yield. */
    method OpenFile(filename: string, path: string, net: seq<Reply>) returns (ok: bool)
      requires Valid() && |net| == TRIES
      modifies this
      ensures Valid()
      ensures (view, ok) == ClientModel.OpenFile(old(view), Target(filename, path), net)
    {
      var resolved_path, file_location := KeyForOpen(filename, path);
      var server_key := resolved_path + Sep(resolved_path) + filename;
      if file_location !in cache {
        var status := DownloadWithRetries(server_key, file_location, net);
        if !status {
          RemoveDisk(file_location, server_key);
          return false;
        }
        EnterOpened(file_location, server_key);
        return true;
      }
      if file_location in opened_files { return true; }
      if file_location !in disk { return false; }      // the streams do not open
      EnterOpened(file_location, server_key);
      ok := true;
    }

    /** read_file, on a stream whose seek discards what it had buffered. */
    method ReadFile(filename: string, directory: string, size: nat, offset: int) returns (r: ReadResult)
      requires Valid()
      modifies this`opened_files, this`view
      ensures Valid()
      ensures (view, r) == ClientModel.ReadFile(old(view), Target(filename, directory), size, offset)
    {
      var resolved_path, file_location := KeyForEdit(filename, directory);
      var usable := CheckUsable(file_location, Target(filename, directory));
      if !usable { return NotRead; }
      var local := if file_location in disk then disk[file_location] else [];
      var stream;
      stream, r := ReadStream(opened_files[file_location], file_location in disk, local, size, offset);
      SetHandle(file_location, Target(filename, directory), stream);
    }

    method WriteFile(filename: string, data: Bytes, directory: string, position: int) returns (ok: bool)
      requires Valid()
      modifies this`opened_files, this`disk, this`cache, this`cached_attr, this`view
      ensures Valid()
      ensures (view, ok) == ClientModel.WriteFile(old(view), Target(filename, directory), data, position)
    {
      var resolved_path, file_location := KeyForEdit(filename, directory);
      var server_key := resolved_path + Sep(resolved_path) + filename;
      var usable := CheckUsable(file_location, server_key);
      if !usable { return false; }
      var stream := opened_files[file_location];
      // seekp; its failure bit is cleared before giving up
      if stream.writeFailed || stream.closed || position < 0 || file_location !in disk {
        SetHandle(file_location, server_key, stream.(writeFailed := false));
        return false;
      }
      SetDisk(file_location, server_key, Overlay(disk[file_location], position, data));
      SetCache(file_location, server_key, true);
      SyncSize(server_key, file_location);
      ok := true;
    }

    method CreateFile(filename: string, path: string) returns (ok: bool)
      requires Valid()
      modifies this
      ensures Valid()
      ensures (view, ok) == ClientModel.CreateFile(old(view), Target(filename, path))
    {
      var resolved_path, file_location := KeyForEdit(filename, path);
      var server_key := resolved_path + Sep(resolved_path) + filename;
      if file_location in cache || file_location in opened_files { return false; }
      SetDisk(file_location, server_key, []);
      SetCache(file_location, server_key, true);
      EnterOpened(file_location, server_key);
      SetSize(server_key, 0);
      ok := true;
    }

    // The part of close_file that flushes a modified file.
    method Flush(server_key: Path, key: string, acks: seq<Ack>) returns (ok: bool, uploads: seq<seq<Bytes>>)
      requires Valid() && Rooted(server_root_path, server_key) && key == Key(N(), server_key) && |acks| == TRIES
      requires server_key in view.handles && server_key in view.cache && view.cache[server_key]
      modifies this`opened_files, this`cache, this`cached_attr, this`view
      ensures Valid()
      ensures var h := old(view).handles[server_key];
              && (ok <==> !h.writeFailed && server_key in old(view).disk && exists i :: 0 <= i < |acks| && acks[i].ok)
              && (if h.writeFailed then view == old(view)
                  else
                    var closed := old(view).(handles := old(view).handles[server_key :=
                                               Handle(h.readFailed || h.closed, h.closed, true)]);
                    view == if ok then SyncAttr(closed.(cache := closed.cache[server_key := false]), server_key)
                            else closed)
              && (if h.writeFailed || server_key !in old(view).disk then uploads == []
                  else UploadTrace(old(view).disk[server_key], acks, uploads))
    {
      var stream := opened_files[key];
      if stream.writeFailed { return false, []; }
      // both streams are closed; closing them again marks them failed
      SetHandle(key, server_key, Handle(stream.readFailed || stream.closed, stream.closed, true));
      if key !in disk { return false, []; }
      ok, uploads := UploadWithRetries(disk[key], acks);
      if !ok { return; }
      SetCache(key, server_key, false);
      SyncSize(server_key, key);
    }

    /** close_file. acks holds what the upload attempts would come to; uploads lists the messages
        each attempt made sends. */
    method CloseFile(filename: string, directory: string, acks: seq<Ack>)
      returns (ok: bool, uploads: seq<seq<Bytes>>)
      requires Valid() && |acks| == TRIES
      modifies this
      ensures Valid()
      ensures (view, ok) ==
              ClientModel.CloseFile(old(view), Target(filename, directory), exists i :: 0 <= i < |acks| && acks[i].ok)
      ensures if Uploads(old(view), Target(filename, directory))
              then UploadTrace(old(view).disk[Target(filename, directory)], acks, uploads)
              else uploads == []
    {
      var resolved_path, file_location := KeyForEdit(filename, directory);
      var server_key := resolved_path + Sep(resolved_path) + filename;
      MirroredMember(N(), file_mutexes, view.mutexes, server_key);
      if file_location !in opened_files || file_location !in file_mutexes { return false, []; }
      if file_location !in cache {
        EraseOpened(file_location, server_key);
        return false, [];
      }
      uploads := [];
      if cache[file_location] {
        var flushed;
        flushed, uploads := Flush(server_key, file_location, acks);
        if !flushed { return false, uploads; }
      }
      EraseOpened(file_location, server_key);
      ok := true;
    }

    /** delete_file, given the full path; answer is the status of the server's. One trailing slash is
        left out of the local key, but not out of the path whose attributes go. */
    method DeleteFile(directory: string, answer: bool) returns (ok: bool)
      requires Valid()
      modifies this
      ensures Valid()
      ensures var p := Resolve(server_root_path, directory);
              (view, ok) == DeleteAt(old(view), Unslashed(p), p, answer)
      ensures forall dir, name :: directory == FullPath(dir, name) && Normalised(dir) && GoodName(name) ==>
                                    (view, ok) == ClientModel.DeleteFile(old(view), Target(name, dir), answer)
    {
      var resolved_path := Resolve(server_root_path, directory);
      var cache_path := cache_directory + Lead(resolved_path) + resolved_path;
      if EndsWithSlash(cache_path) { cache_path := cache_path[..|cache_path| - 1]; }
      ResolvedIsRooted(server_root_path, directory);
      UnslashedKey(N(), resolved_path);
      DeletedPathsAgree(server_root_path, directory);
      EraseOpened(cache_path, Unslashed(resolved_path));
      EraseCached(cache_path, Unslashed(resolved_path));
      EraseAttr(resolved_path);
      if !answer { return false; }
      RemoveDisk(cache_path, Unslashed(resolved_path));
      ok := true;
    }

    method GetAttributes(filename: string, path: string, answer: AttrReply) returns (r: AttrReply)
      requires Valid()
      modifies this`cached_attr, this`view
      ensures Valid()
      ensures (view, r) == ClientModel.GetAttributes(old(view), Target(filename, path), answer)
    {
      var resolved_path, _ := KeyForEdit(filename, path);
      var server_key := resolved_path + Sep(resolved_path) + filename;
      if server_key in cached_attr { return Size(cached_attr[server_key]); }
      if answer.NoAttr? { return NoAttr; }
      cached_attr := cached_attr[server_key := answer.size];
      view := view.(attr := view.attr[server_key := answer.size]);
      r := answer;
    }

    // One turn of the subscriber's loop.
    method Notified(path_on_server: Path)
      requires Valid() && Rooted(server_root_path, path_on_server)
      modifies this`cache, this`cached_attr, this`view
      ensures Valid() && view == Invalidate(old(view), path_on_server)
    {
      var path_on_client := cache_directory + Lead(path_on_server) + path_on_server;
      if path_on_client in opened_files { return; }
      if path_on_client !in cache { return; }
      EraseCached(path_on_client, path_on_server);
      EraseAttr(path_on_server);
    }

    /** RunSubscriber over the notes the stream delivers before it ends. */
    method RunSubscriber(notes: seq<Note>)
      requires Valid() && forall i :: 0 <= i < |notes| ==> Rooted(server_root_path, notes[i].path)
      modifies this`cache, this`cached_attr, this`view
      ensures Valid() && view == InvalidateAll(old(view), notes)
    {
      var i := 0;
      while i < |notes|
        invariant 0 <= i <= |notes| && Valid()
        invariant InvalidateAll(old(view), notes) == InvalidateAll(view, notes[i..])
      {
        assert notes[i..][1..] == notes[i + 1..];
        Notified(notes[i].path);
        i := i + 1;
      }
    }

    // Rewriting each of the four maps.
    method RenameOnDisk(old_key: string, new_key: string, ghost p: Path, ghost q: Path)
      requires Valid() && Unrelated(p, q)
      requires Rooted(server_root_path, p) && Rooted(server_root_path, q)
      requires old_key == Key(N(), p) && new_key == Key(N(), q)
      modifies this`disk, this`view
      ensures Valid() && view == old(view).(disk := Simultaneous(old(view).disk, p, q))
    {
      UnrelatedKeys(N(), p, q);
      MirrorRename(N(), disk, view.disk, p, q);
      UnrelatedIsSafe(disk, old_key, new_key);
      disk := UpdateMapKeys(disk, old_key, new_key);
      view := view.(disk := Simultaneous(view.disk, p, q));
    }

    method RenameInCache(old_key: string, new_key: string, ghost p: Path, ghost q: Path)
      requires Valid() && Unrelated(p, q)
      requires Rooted(server_root_path, p) && Rooted(server_root_path, q)
      requires old_key == Key(N(), p) && new_key == Key(N(), q)
      modifies this`cache, this`view
      ensures Valid() && view == old(view).(cache := Simultaneous(old(view).cache, p, q))
    {
      UnrelatedKeys(N(), p, q);
      MirrorRename(N(), cache, view.cache, p, q);
      UnrelatedIsSafe(cache, old_key, new_key);
      cache := UpdateMapKeys(cache, old_key, new_key);
      view := view.(cache := Simultaneous(view.cache, p, q));
    }

    method RenameInOpened(old_key: string, new_key: string, ghost p: Path, ghost q: Path)
      requires Valid() && Unrelated(p, q)
      requires Rooted(server_root_path, p) && Rooted(server_root_path, q)
      requires old_key == Key(N(), p) && new_key == Key(N(), q)
      modifies this`opened_files, this`view
      ensures Valid() && view == old(view).(handles := Simultaneous(old(view).handles, p, q))
    {
      UnrelatedKeys(N(), p, q);
      MirrorRename(N(), opened_files, view.handles, p, q);
      UnrelatedIsSafe(opened_files, old_key, new_key);
      opened_files := UpdateMapKeys(opened_files, old_key, new_key);
      view := view.(handles := Simultaneous(view.handles, p, q));
    }

    method RenameInAttr(p: Path, q: Path)
      requires Valid() && Unrelated(p, q)
      modifies this`cached_attr, this`view
      ensures Valid() && view == old(view).(attr := Simultaneous(old(view).attr, p, q))
    {
      UnrelatedIsSafe(cached_attr, p, q);
      cached_attr := UpdateMapKeys(cached_attr, p, q);
      view := view.(attr := Simultaneous(view.attr, p, q));
    }

    /** rename_file, of a file or a directory. Neither path may contain the other: the operating
        system refuses such renames before they get here. */
    method RenameFile(from_name: string, to_name: string, old_path: string, new_path: string, status: RenameStatus)
      returns (ok: bool)
      requires Valid() && Unrelated(Target(from_name, old_path), Target(to_name, new_path))
      modifies this
      ensures Valid()
      ensures var (after, through) := RenameTree(old(view), Target(from_name, old_path), Target(to_name, new_path));
              view == after && (ok <==> through && !status.Failed?)
    {
      var resolved_path, old_local_path := KeyForEdit(from_name, old_path);
      var resolved_path_new, new_local_path := KeyForEdit(to_name, new_path);
      var old_server_path := resolved_path + Sep(resolved_path) + from_name;
      var new_server_path := resolved_path_new + Sep(resolved_path_new) + to_name;
      MirrorBelow(N(), disk, view.disk, new_server_path);
      // a target directory with something in it forbids the move
      if exists k :: k in disk && StrictlyBelow(new_local_path, k) { return false; }
      RemoveDisk(new_local_path, new_server_path);
      // the file system moves the item with everything below it
      RenameOnDisk(old_local_path, new_local_path, old_server_path, new_server_path);
      RenameInCache(old_local_path, new_local_path, old_server_path, new_server_path);
      RenameInOpened(old_local_path, new_local_path, old_server_path, new_server_path);
      RenameInAttr(old_server_path, new_server_path);
      ok := !status.Failed?;
    }
  }

  lemma UnrelatedIsSafe<V>(m: map<string, V>, old_p: string, new_p: string)
    requires Unrelated(old_p, new_p)
    ensures Terminates(m, old_p, new_p) && NoRevisit(m, old_p, new_p)
  {
    UnrelatedPathsAreSubstituted(m, old_p, new_p);
    SimultaneousExactlyWhen(m, old_p, new_p);
  }

  // A full path made of a directory and a name has no trailing slash.
  lemma DeletedPathsAgree(root: string, directory: string)
    requires root != ""
    ensures forall dir, name :: directory == FullPath(dir, name) && Normalised(dir) && GoodName(name) ==>
                                  Unslashed(Resolve(root, directory)) == Resolve(root, directory) == ServerPath(root, dir, name)
  {
    forall dir, name | directory == FullPath(dir, name) && Normalised(dir) && GoodName(name)
      ensures Unslashed(Resolve(root, directory)) == Resolve(root, directory) == ServerPath(root, dir, name)
    {
      DeletedPathAgrees(root, dir, name);
      var p := ServerPath(root, dir, name);
      assert name[|name| - 1] in name && p[|p| - 1] == name[|name| - 1];
    }
  }

  lemma ResolvedIsRooted(root: string, user: string)
    requires root != ""
    ensures Rooted(root, Resolve(root, user))
  {
    assert Resolve(root, user)[0] == root[0];
  }

  lemma MirroredMember(n: Names, s: set<string>, v: set<Path>, p: Path)
    requires MirrorsSet(n, s, v) && Rooted(n.root, p)
    ensures Key(n, p) in s <==> p in v
  {
    var m, w := map k | k in s :: true, map q | q in v :: true;
    assert p in w <==> Key(n, p) in m;
  }

  lemma SucceedsFirst(rs: seq<Reply>)
    requires rs != []
    ensures Succeeds(rs) <==> rs[0].ok || Succeeds(rs[1..])
  {
    if i :| 0 < i < |rs| && rs[i].ok { assert rs[1..][i - 1].ok; }
    if i :| 0 <= i < |rs[1..]| && rs[1..][i].ok { assert rs[i + 1].ok; }
  }
}
