/**
 Whole-file transfers over a network that cuts them: at most three attempts each way.
 */
module Transfers {
  import opened Wire
  import opened Keys
  import opened Notifications
  import opened ServerModel
  import opened ClientModel
  import opened System
  import opened Coherence

  predicate SomeDelivery(up: seq<UpNet>) {
    exists i :: 0 <= i < |up| && (up[i].finished || up[i].delivered > 0)
  }

  // The bytes the server keeps from an attempt that delivered k messages.
  function ChunkPrefix(bytes: Bytes, k: nat): Bytes {
    bytes[..Min(k * 4096, |bytes|)]
  }

  // i is the last attempt that delivered anything.
  predicate LastDelivery(up: seq<UpNet>, i: nat) {
    i < |up| && up[i].delivered > 0 && forall j :: i < j < |up| ==> up[j].delivered == 0
  }

  lemma DeliveredPrefix(s: Server, c: Cid, p: Path, bytes: Bytes, k: nat)
    requires k > 0
    ensures var messages := UploadMessages(bytes);
            var sent := messages[..Min(k, |messages|)];
            sent != [] && CloseRpc(s, c, p, sent).files == s.files[p := ChunkPrefix(bytes, k)]
  {
    var messages := UploadMessages(bytes);
    JoiningChunksGivesTheFile(bytes);
    CutUploadIsPrefix(bytes, Min(k, |messages|));
    CutUploadIsPrefix(bytes, |messages|);
    assert messages[..|messages|] == messages;
    if k > |messages| {
      assert Min(k * CHUNK, |bytes|) == |bytes| by {
        assert Concat(messages) == bytes;
        assert |bytes| <= |messages| * CHUNK;
      }
      assert bytes[..|bytes|] == bytes;
    }
  }

  lemma PutTwice<V>(m: map<Path, V>, p: Path, x: V, y: V)
    ensures m[p := x][p := y] == m[p := y]
  {
  }

  lemma DeliveriesShift(up: seq<UpNet>)
    requires up != []
    ensures forall i: nat :: LastDelivery(up[1..], i) ==> LastDelivery(up, i + 1)
    ensures !SomeDelivery(up[1..]) && up[0].delivered > 0 ==> LastDelivery(up, 0)
    ensures SomeDelivery(up) <==> up[0].finished || up[0].delivered > 0 || SomeDelivery(up[1..])
    ensures (exists i :: 0 <= i < |up| && up[i].finished) <==>
            up[0].finished || exists i :: 0 <= i < |up[1..]| && up[1..][i].finished
  {
    var rest := up[1..];
    assert forall i :: 0 < i < |up| ==> up[i] == rest[i - 1];
    assert forall i :: 0 <= i < |rest| ==> rest[i] == up[i + 1];
  }

  /** Upload under retries. An upload that never finishes leaves the server's file as it was if
      nothing arrived, and otherwise a prefix of the client's bytes, ending on a chunk boundary,
      from the last attempt that delivered a message. One that finishes leaves all the bytes,
      in max(1, ceil(n / 4096)) messages. No other file changes. */
  lemma {:induction false} UploadUnderRetries(s: Server, c: Cid, p: Path, bytes: Bytes, up: seq<UpNet>)
    ensures var (s', ok) := UploadRpcs(s, c, p, bytes, up);
            && (ok <==> exists i :: 0 <= i < |up| && up[i].finished)
            && (ok ==> s'.files == s.files[p := bytes])
            && (!ok && !SomeDelivery(up) ==> s' == s)
            && (!ok && SomeDelivery(up) ==>
                  exists i: nat :: LastDelivery(up, i) && s'.files == s.files[p := ChunkPrefix(bytes, up[i].delivered)])
            && |UploadMessages(bytes)| == Max(1, (|bytes| + 4095) / 4096)
    decreases |up|
  {
    JoiningChunksGivesTheFile(bytes);
    if up != [] && !up[0].finished {
      var rest, k := up[1..], up[0].delivered;
      var messages := UploadMessages(bytes);
      var s1 := CloseRpc(s, c, p, messages[..Min(k, |messages|)]);
      if k > 0 { DeliveredPrefix(s, c, p, bytes, k); }
      UploadUnderRetries(s1, c, p, bytes, rest);
      DeliveriesShift(up);
      var (s', ok) := UploadRpcs(s, c, p, bytes, up);
      if ok {
        PutTwice(s.files, p, ChunkPrefix(bytes, k), bytes);
      } else if SomeDelivery(rest) {
        var i: nat :| LastDelivery(rest, i) && s'.files == s1.files[p := ChunkPrefix(bytes, rest[i].delivered)];
        PutTwice(s.files, p, ChunkPrefix(bytes, k), ChunkPrefix(bytes, rest[i].delivered));
        assert LastDelivery(up, i + 1) && up[i + 1] == rest[i];
      }
    }
  }

  /** Download under retries. Opening a file that is not cached succeeds exactly when the server
      has it and some attempt arrives and finishes; then the local file is the server's, in
      ceil(n / 4096) messages, and is cached, unmodified and open. After three failures there is
      neither a cache entry nor a local file. */
  lemma DownloadUnderRetries(files: map<Path, Bytes>, cl: Client, p: Path, down: seq<DownNet>)
    requires |down| == 3 && p !in cl.cache
    ensures var (cl', ok) := OpenFile(cl, p, Replies(files, p, down));
            && (ok <==> p in files && exists i :: 0 <= i < 3 && down[i].reached && down[i].finished)
            && (ok ==> && cl'.disk == cl.disk[p := files[p]] && cl'.cache == cl.cache[p := false]
                       && cl'.handles == cl.handles[p := FRESH] && p in cl'.mutexes
                       && |Chunks(files[p])| == (|files[p]| + 4095) / 4096)
            && (!ok ==> cl'.disk == cl.disk - {p} && cl'.cache == cl.cache && cl'.handles == cl.handles)
  {
    var rs := Replies(files, p, down);
    DownloadMeaning(cl, p, rs);
    if Succeeds(rs) {
      var i :| 0 <= i < |rs| && rs[i].ok;
      assert down[i].reached && down[i].finished;
      DownloadedBytes(files, cl, p, down);
      ChunkCount(files[p]);
    } else if p in files {
      forall i | 0 <= i < TRIES ensures !(down[i].reached && down[i].finished) { assert !rs[i].ok; }
    }
  }

  /** Who is registered by an open: its client, for its file, exactly if the file was not cached and
      some attempt arrived, whether or not it finished. The server's files and notes stay. */
  lemma OpenRegisters(w: World, c: Cid, p: Path, down: seq<DownNet>, q: Path, d: Cid)
    requires Enabled(w, Open(c, p, down))
    ensures var s, s' := w.server, Next(w, Open(c, p, down)).server;
            && (Registered(s', q, d) <==>
                  || Registered(s, q, d)
                  || (q == p && d == c && p !in w.nodes[c].client.cache && exists i :: 0 <= i < 3 && down[i].reached))
            && s'.files == s.files && s'.queues == s.queues && s'.jammed == s.jammed
  {
  }
}
