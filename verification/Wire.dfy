/**
 Bytes on the wire and on disk: the fixed-size chunks both ends send, the messages
 of one upload, and the effect of one positioned write on a file.
 */
module Wire {

  newtype Byte = x: int | 0 <= x < 256

  type Bytes = seq<Byte>

  // chunk_size, the same constant at both ends
  const CHUNK: nat := 4096

  function Min(a: nat, b: nat): nat {
    if a <= b then a else b
  }

  function Max(a: nat, b: nat): nat {
    if a <= b then b else a
  }

  // The successive reads of at most CHUNK bytes from a file, up to its end.
  function Chunks(s: Bytes): seq<Bytes>
    decreases |s|
  {
    if s == [] then []
    else
      var n := Min(CHUNK, |s|);
      [s[..n]] + Chunks(s[n..])
  }

  // One read from position pos.
  lemma ChunksFrom(s: Bytes, pos: nat)
    requires pos < |s|
    ensures var n := Min(CHUNK, |s| - pos);
            Chunks(s[pos..]) == [s[pos..pos + n]] + Chunks(s[pos + n..])
  {
    var n := Min(CHUNK, |s| - pos);
    assert s[pos..][..n] == s[pos..pos + n] && s[pos..][n..] == s[pos + n..];
  }

  function Concat(cs: seq<Bytes>): Bytes {
    if cs == [] then [] else cs[0] + Concat(cs[1..])
  }

  // An upload sends at least one message, even for an empty file.
  function UploadMessages(s: Bytes): seq<Bytes> {
    if s == [] then [[]] else Chunks(s)
  }

  lemma {:induction false} ConcatSnoc(cs: seq<Bytes>, x: Bytes)
    ensures Concat(cs + [x]) == Concat(cs) + x
  {
    if cs == [] {
      assert cs + [x] == [x];
      assert Concat([x]) == x + Concat([x][1..]);
    } else {
      ConcatSnoc(cs[1..], x);
      assert (cs + [x])[1..] == cs[1..] + [x];
    }
  }

  // Any number of chunks from the front is the corresponding prefix of the file.
  lemma {:induction false} ChunksArePrefixes(s: Bytes, k: nat)
    requires k <= |Chunks(s)|
    ensures k * CHUNK >= |s| ==> k == |Chunks(s)|
    ensures Concat(Chunks(s)[..k]) == s[..Min(k * CHUNK, |s|)]
    decreases |s|
  {
    if k == 0 {
    } else {
      var n := Min(CHUNK, |s|);
      var rest := s[n..];
      ChunksArePrefixes(rest, k - 1);
      assert Chunks(s)[..k][1..] == Chunks(rest)[..k - 1];
      assert Min(k * CHUNK, |s|) == n + Min((k - 1) * CHUNK, |rest|);
      assert s[..n] + rest[..Min((k - 1) * CHUNK, |rest|)] == s[..Min(k * CHUNK, |s|)];
    }
  }

  lemma {:induction false} ChunkCount(s: Bytes)
    ensures |Chunks(s)| == (|s| + CHUNK - 1) / CHUNK
    decreases |s|
  {
    if s == [] {
    } else {
      ChunkCount(s[Min(CHUNK, |s|)..]);
    }
  }

  // Chunk i, and how many there are.
  lemma {:induction false} ChunkAt(s: Bytes, i: nat)
    ensures i < |Chunks(s)| <==> i * CHUNK < |s|
    ensures i < |Chunks(s)| ==> Chunks(s)[i] == s[i * CHUNK..Min((i + 1) * CHUNK, |s|)]
    decreases |s|
  {
    if s != [] && i > 0 {
      var n := Min(CHUNK, |s|);
      var rest := s[n..];
      ChunkAt(rest, i - 1);
      if i * CHUNK < |s| {
        assert n == CHUNK;
        assert rest[(i - 1) * CHUNK..Min(i * CHUNK, |rest|)] == s[i * CHUNK..Min((i + 1) * CHUNK, |s|)];
      }
    }
  }

  lemma MessageAt(s: Bytes, i: nat)
    ensures i < |UploadMessages(s)| <==> i == 0 || i * CHUNK < |s|
    ensures i < |UploadMessages(s)| ==> UploadMessages(s)[i] == s[i * CHUNK..Min((i + 1) * CHUNK, |s|)]
  {
    ChunkAt(s, i);
    ChunkAt(s, 0);
  }

  lemma OneMore(all: seq<Bytes>, sent: seq<Bytes>, x: Bytes)
    requires |sent| < |all| && sent == all[..|sent|] && x == all[|sent|]
    ensures sent + [x] == all[..|sent| + 1]
  {
  }

  // Splitting a file into chunks and joining them again loses nothing.
  lemma JoiningChunksGivesTheFile(s: Bytes)
    ensures Concat(Chunks(s)) == s
    ensures Concat(UploadMessages(s)) == s
    ensures |Chunks(s)| == (|s| + 4095) / 4096 && |UploadMessages(s)| == Max(1, (|s| + 4095) / 4096)
  {
    ChunkCount(s);
    ChunksArePrefixes(s, |Chunks(s)|);
    assert Chunks(s)[..|Chunks(s)|] == Chunks(s);
    assert |s| <= |Chunks(s)| * CHUNK;
    assert s[..|s|] == s;
    ConcatSnoc([], []);
  }

  // A cut upload leaves a prefix that ends on a chunk boundary or at the end of the file.
  lemma CutUploadIsPrefix(s: Bytes, k: nat)
    requires k <= |UploadMessages(s)|
    ensures Concat(UploadMessages(s)[..k]) == s[..Min(k * 4096, |s|)]
  {
    if s == [] {
      assert k <= 1;
      if k == 1 {
        assert UploadMessages(s)[..1] == [s];
        ConcatSnoc([], s);
        assert [] + [s] == [s];
      }
    } else {
      ChunksArePrefixes(s, k);
    }
  }

  function Zeros(n: nat): (z: Bytes)
    ensures |z| == n && forall i :: 0 <= i < n ==> z[i] == 0
  {
    seq(n, _ => 0)
  }

  // seekp(pos) followed by write(data) on a stream opened without truncation.
  // Writing nothing past the end does not grow the file.
  function Overlay(b: Bytes, pos: nat, data: Bytes): Bytes {
    if data == [] then b
    else
      var base := if pos <= |b| then b else b + Zeros(pos - |b|);
      base[..pos] + data + base[Min(pos + |data|, |base|)..]
  }

  // The write lands exactly at its position, keeps every other byte, fills a gap with
  // zeros, and grows the file only as far as the write reaches.
  lemma OverlayMeaning(b: Bytes, pos: nat, data: Bytes)
    ensures |Overlay(b, pos, data)| == if data == [] then |b| else Max(|b|, pos + |data|)
    ensures forall i :: 0 <= i < |Overlay(b, pos, data)| ==>
                          Overlay(b, pos, data)[i] ==
                          if pos <= i < pos + |data| then data[i - pos]
                          else if i < |b| then b[i]
                          else 0
  {
  }

  // What a read of size bytes at off returns: clipped at the end of the file.
  function Slice(b: Bytes, off: nat, size: nat): Bytes {
    if off >= |b| then [] else b[off..Min(off + size, |b|)]
  }

  // How many of n bytes there are from off on.
  function Remaining(n: nat, off: nat): nat {
    if off <= n then n - off else 0
  }

  // As many bytes as asked for, or as there are from the offset on, and those bytes.
  lemma SliceMeaning(b: Bytes, off: nat, size: nat)
    ensures |Slice(b, off, size)| == Min(size, Remaining(|b|, off))
    ensures forall i :: 0 <= i < |Slice(b, off, size)| ==> Slice(b, off, size)[i] == b[off + i]
    ensures |Slice(b, off, size)| < size <==> size > 0 && off + size > |b|
  {
  }
}
