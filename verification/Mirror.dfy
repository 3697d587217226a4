/**
 The client's own maps are keyed by the paths of local copies; ClientModel names files by their
 server paths. Here one map mirrors the other, and every update, a rename of a whole subtree
 included, keeps it so.
 */
module Mirror {
  import opened Keys
  import opened RenameKeys
  import opened ClientModel

  // Where the local copies are, and what the server's paths start from.
  datatype Names = Names(cacheDir: string, root: string)

  function Stem(n: Names): string {
    n.cacheDir + Lead(n.root)
  }

  predicate IsLocalKey(n: Names, k: string) {
    |Stem(n)| <= |k| && k[..|Stem(n)|] == Stem(n) && Rooted(n.root, k[|Stem(n)|..])
  }

  function Key(n: Names, p: Path): string {
    LocalKey(n.cacheDir, p)
  }

  ghost predicate Mirrors<V>(n: Names, m: map<string, V>, v: map<Path, V>) {
    && (forall p :: p in v ==> Rooted(n.root, p))
    && (forall k :: k in m ==> IsLocalKey(n, k))
    && (forall p :: Rooted(n.root, p) ==>
                      (p in v <==> Key(n, p) in m) && (p in v ==> v[p] == m[Key(n, p)]))
  }

  ghost predicate MirrorsSet(n: Names, s: set<string>, v: set<Path>) {
    Mirrors(n, map k | k in s :: true, map p | p in v :: true)
  }

  lemma KeyIsStem(n: Names, p: Path)
    requires Rooted(n.root, p)
    ensures Key(n, p) == Stem(n) + p && IsLocalKey(n, Key(n, p))
  {
    assert (Stem(n) + p)[|Stem(n)|..] == p;
  }

  lemma StemIsKey(n: Names, k: string)
    requires IsLocalKey(n, k)
    ensures k == Key(n, k[|Stem(n)|..])
  {
    KeyIsStem(n, k[|Stem(n)|..]);
  }

  lemma MirrorPut<V>(n: Names, m: map<string, V>, v: map<Path, V>, p: Path, x: V)
    requires Mirrors(n, m, v) && Rooted(n.root, p)
    ensures Mirrors(n, m[Key(n, p) := x], v[p := x])
  {
    KeyIsStem(n, p);
    forall q | Rooted(n.root, q) && Key(n, q) == Key(n, p) ensures q == p {
      LocalKeyInjective(n.cacheDir, n.root, p, q);
    }
  }

  // The key stands for the path, or for no path at all.
  predicate Refers(n: Names, key: string, p: Path) {
    (Rooted(n.root, p) && key == Key(n, p)) || (p == "" && !IsLocalKey(n, key))
  }

  lemma MirrorErase<V>(n: Names, m: map<string, V>, v: map<Path, V>, key: string, p: Path)
    requires Mirrors(n, m, v) && Refers(n, key, p)
    ensures Mirrors(n, m - {key}, v - {p})
  {
    if p == "" {
      assert m - {key} == m && v - {p} == v;
    } else {
      forall q | Rooted(n.root, q) && Key(n, q) == key ensures q == p {
        LocalKeyInjective(n.cacheDir, n.root, p, q);
      }
    }
  }

  // The key delete_file builds from a resolved path, one trailing slash left out.
  lemma UnslashedKey(n: Names, p: Path)
    requires Rooted(n.root, p)
    ensures Refers(n, Unslashed(n.cacheDir + Lead(p) + p), Unslashed(p))
  {
    var key := n.cacheDir + Lead(p) + p;
    assert key[|key| - 1] == p[|p| - 1];
    if EndsWithSlash(p) {
      var q := Unslashed(p);
      assert key[..|key| - 1] == n.cacheDir + Lead(p) + q;
      if q == "" {
        assert p == "/" && Unslashed(key) == n.cacheDir == Stem(n);
      } else {
        assert q[0] == p[0];
      }
    }
  }

  lemma MirrorAdd(n: Names, s: set<string>, v: set<Path>, p: Path)
    requires MirrorsSet(n, s, v) && Rooted(n.root, p)
    ensures MirrorsSet(n, s + {Key(n, p)}, v + {p})
  {
    var m, w := map k | k in s :: true, map q | q in v :: true;
    MirrorPut(n, m, w, p, true);
    assert (map k | k in s + {Key(n, p)} :: true) == m[Key(n, p) := true];
    assert (map q | q in v + {p} :: true) == w[p := true];
  }

  lemma MirrorRemove(n: Names, s: set<string>, v: set<Path>, key: string, p: Path)
    requires MirrorsSet(n, s, v) && Refers(n, key, p)
    ensures MirrorsSet(n, s - {key}, v - {p})
  {
    var m, w := map k | k in s :: true, map q | q in v :: true;
    MirrorErase(n, m, w, key, p);
    assert (map k | k in s - {key} :: true) == m - {key};
    assert (map q | q in v - {p} :: true) == w - {p};
  }

  // ------------------------------------------------------------------------ renaming a subtree

  lemma SimultaneousDomain<V>(m: map<string, V>, old_p: string, new_p: string, x: string)
    ensures x in Simultaneous(m, old_p, new_p) <==>
            ComesFrom(old_p, new_p, Matching(m, old_p), x) || (x in m && !Matches(old_p, x))
    ensures x in Simultaneous(m, old_p, new_p) ==>
              Simultaneous(m, old_p, new_p)[x] ==
              if ComesFrom(old_p, new_p, Matching(m, old_p), x) then m[old_p + x[|new_p|..]] else m[x]
  {
    ImagesComeFrom(old_p, new_p, Matching(m, old_p));
    if ComesFrom(old_p, new_p, Matching(m, old_p), x) {
      ComesFromIsImage(old_p, new_p, Matching(m, old_p), x);
    }
  }

  lemma MirroredOrigin<V>(n: Names, m: map<string, V>, v: map<Path, V>, p: Path, q: Path, r: Path)
    requires Mirrors(n, m, v) && Rooted(n.root, p) && Rooted(n.root, q) && Rooted(n.root, r)
    ensures ComesFrom(Key(n, p), Key(n, q), Matching(m, Key(n, p)), Key(n, r)) <==>
            ComesFrom(p, q, Matching(v, p), r)
    ensures ComesFrom(p, q, Matching(v, p), r) ==>
              Key(n, p) + Key(n, r)[|Key(n, q)|..] == Key(n, p + r[|q|..])
  {
    KeyIsStem(n, p);
    KeyIsStem(n, q);
    KeyIsStem(n, r);
    if |q| <= |r| {
      assert Key(n, r)[..|Key(n, q)|] == Stem(n) + r[..|q|];
      assert (Stem(n) + r[..|q|])[|Stem(n)|..] == r[..|q|] && (Stem(n) + q)[|Stem(n)|..] == q;
      var from := p + r[|q|..];
      assert from[0] == p[0];
      KeyIsStem(n, from);
      assert Key(n, r)[|Key(n, q)|..] == r[|q|..];
      assert Key(n, p) + r[|q|..] == Stem(n) + from;
      LocalKeysFollowPaths(n.cacheDir, n.root, from, p, q);
    }
  }

  /** Rewriting local keys and rewriting server paths commute: after a rename of p to q the
      client's map still mirrors the map by server paths. */
  lemma MirrorRename<V>(n: Names, m: map<string, V>, v: map<Path, V>, p: Path, q: Path)
    requires Mirrors(n, m, v) && Rooted(n.root, p) && Rooted(n.root, q)
    ensures Mirrors(n, Simultaneous(m, Key(n, p), Key(n, q)), Simultaneous(v, p, q))
  {
    var m', v' := Simultaneous(m, Key(n, p), Key(n, q)), Simultaneous(v, p, q);
    forall r | r in v' ensures Rooted(n.root, r) {
      SimultaneousDomain(v, p, q, r);
      if ComesFrom(p, q, Matching(v, p), r) { assert r[0] == q[0]; }
    }
    forall k | k in m' ensures IsLocalKey(n, k) {
      SimultaneousDomain(m, Key(n, p), Key(n, q), k);
      if ComesFrom(Key(n, p), Key(n, q), Matching(m, Key(n, p)), k) {
        KeyIsStem(n, q);
        assert k[..|Stem(n)|] == Key(n, q)[..|Stem(n)|] == Stem(n);
        assert k[|Stem(n)|] == q[0];
      }
    }
    forall r | Rooted(n.root, r)
      ensures (r in v' <==> Key(n, r) in m') && (r in v' ==> v'[r] == m'[Key(n, r)])
    {
      SimultaneousDomain(v, p, q, r);
      SimultaneousDomain(m, Key(n, p), Key(n, q), Key(n, r));
      MirroredOrigin(n, m, v, p, q, r);
      LocalKeysFollowPaths(n.cacheDir, n.root, r, p, q);
      if ComesFrom(p, q, Matching(v, p), r) { assert (p + r[|q|..])[0] == p[0]; }
    }
  }

  lemma UnrelatedKeys(n: Names, p: Path, q: Path)
    requires Rooted(n.root, p) && Rooted(n.root, q)
    ensures Unrelated(Key(n, p), Key(n, q)) <==> Unrelated(p, q)
  {
    LocalKeysFollowPaths(n.cacheDir, n.root, p, q, q);
    LocalKeysFollowPaths(n.cacheDir, n.root, q, p, p);
  }

  // Something lies below p.
  predicate HasBelow<V>(m: map<string, V>, p: Path) {
    exists k :: k in m && StrictlyBelow(p, k)
  }

  lemma MirrorBelow<V>(n: Names, m: map<string, V>, v: map<Path, V>, p: Path)
    requires Mirrors(n, m, v) && Rooted(n.root, p)
    ensures HasBelow(m, Key(n, p)) <==> HasBelow(v, p)
  {
    KeyIsStem(n, p);
    if r :| r in v && StrictlyBelow(p, r) {
      LocalKeysFollowPaths(n.cacheDir, n.root, r, p, p);
      KeyIsStem(n, r);
      assert StrictlyBelow(Key(n, p), Key(n, r));
    }
    if k :| k in m && StrictlyBelow(Key(n, p), k) {
      StemIsKey(n, k);
      LocalKeysFollowPaths(n.cacheDir, n.root, k[|Stem(n)|..], p, p);
      assert StrictlyBelow(p, k[|Stem(n)|..]);
    }
  }

  // The local part of rename_file on a file or a directory, and whether it goes through: not if
  // the target is a directory with something in it.
  ghost function RenameTree(c: Client, p: Path, q: Path): (Client, bool) {
    if HasBelow(c.disk, q) then (c, false)
    else
      (c.(disk := Simultaneous(c.disk - {q}, p, q), cache := Simultaneous(c.cache, p, q),
          handles := Simultaneous(c.handles, p, q), attr := Simultaneous(c.attr, p, q)), true)
  }

  // One of the files p and below lands on k.
  predicate LandedOn<V>(m: map<Path, V>, p: Path, q: Path, k: Path) {
    exists j :: j in m && Matches(p, j) && Image(p, q, j) == k
  }

  // p, and everything below it, is now q and below, with its values; everything else is where it
  // was, unless one of those has landed on it; and there is nothing more.
  ghost predicate Moved<V>(m: map<Path, V>, m': map<Path, V>, p: Path, q: Path) {
    && (p in m ==> q in m' && m'[q] == m[p] && p !in m')
    && (forall rest :: p + "/" + rest in m ==>
                         && q + "/" + rest in m' && m'[q + "/" + rest] == m[p + "/" + rest]
                         && p + "/" + rest !in m')
    && (forall k :: k in m && !Matches(p, k) && !LandedOn(m, p, q, k) ==> k in m' && m'[k] == m[k])
    && (forall k :: k in m' ==> LandedOn(m, p, q, k) || (k in m && !Matches(p, k)))
  }

  lemma SimultaneousMoves<V>(m: map<Path, V>, p: Path, q: Path)
    requires Unrelated(p, q)
    ensures Moved(m, Simultaneous(m, p, q), p, q)
  {
    var m' := Simultaneous(m, p, q);
    SimultaneousMeaning(m, p, q);
    UnrelatedPathsAreSubstituted(m, p, q);
    MatchesMeaning(p, q, p);
    forall rest | p + "/" + rest in m
      ensures q + "/" + rest in m' && m'[q + "/" + rest] == m[p + "/" + rest] && p + "/" + rest !in m'
    {
      assert Matches(p, p + "/" + rest) && Image(p, q, p + "/" + rest) == q + "/" + rest;
    }
    forall k ensures ComesFrom(p, q, Matching(m, p), k) <==> LandedOn(m, p, q, k) {
      LandedMeansFrom(m, p, q, k);
    }
  }

  lemma LandedMeansFrom<V>(m: map<Path, V>, p: Path, q: Path, k: Path)
    ensures ComesFrom(p, q, Matching(m, p), k) <==> LandedOn(m, p, q, k)
  {
    var moved := Matching(m, p);
    ImagesComeFrom(p, q, moved);
    if ComesFrom(p, q, moved, k) {
      ComesFromIsImage(p, q, moved, k);
      assert Matches(p, p + k[|q|..]);
    }
  }

  /** What rename_file does to a whole directory, or a file, for paths neither of which is the other or
      above it. It is refused, with nothing changed, exactly if something on disk lies below the
      target. Otherwise the target's own local copy makes way, and in each of the four maps everything
      at and below the old path moves to the new one, and nothing else does; the mutexes stay. */
  lemma RenameTreeEffect(c: Client, p: Path, q: Path)
    requires Unrelated(p, q)
    ensures var (c', ok) := RenameTree(c, p, q);
            && (ok <==> !exists rest :: q + "/" + rest in c.disk)
            && (!ok ==> c' == c)
            && (ok ==>
                  && Moved(c.disk - {q}, c'.disk, p, q) && Moved(c.cache, c'.cache, p, q)
                  && Moved(c.handles, c'.handles, p, q) && Moved(c.attr, c'.attr, p, q)
                  && c'.mutexes == c.mutexes)
  {
    if k :| k in c.disk && StrictlyBelow(q, k) {
      MatchesMeaning(q, p, k);
      var rest :| k == q + "/" + rest;
    }
    if rest :| q + "/" + rest in c.disk {
      MatchesMeaning(q, p, q);
      assert StrictlyBelow(q, q + "/" + rest);
    }
    SimultaneousMoves(c.disk - {q}, p, q);
    SimultaneousMoves(c.cache, p, q);
    SimultaneousMoves(c.handles, p, q);
    SimultaneousMoves(c.attr, p, q);
  }

  lemma OneKeySimultaneous<V>(m: map<Path, V>, p: Path, q: Path)
    requires !HasBelow(m, p) && p != q
    ensures Simultaneous(m, p, q) == Move(m, p, q)
  {
    assert Matches(p, p) && Matching(m, p) == if p in m then {p} else {};
    forall x ensures ComesFrom(p, q, Matching(m, p), x) <==> (x == q && p in m) {
      if ComesFrom(p, q, Matching(m, p), x) {
        assert |p + x[|q|..]| == |p|;
        assert x == x[..|q|] + x[|q|..];
      }
      assert p + q[|q|..] == p;
    }
    forall x ensures x in Simultaneous(m, p, q) <==> x in Move(m, p, q)
      ensures x in Move(m, p, q) ==> Simultaneous(m, p, q)[x] == Move(m, p, q)[x]
    {
      SimultaneousDomain(m, p, q, x);
      assert p + q[|q|..] == p;
      assert x in m && Matches(p, x) ==> x == p;
    }
  }

  /** For a single file the rename of a subtree is the rename of that one entry. */
  lemma FileRenameMovesOneEntry(c: Client, p: Path, q: Path)
    requires p != q && !HasBelow(c.disk, q)
    requires !HasBelow(c.disk, p) && !HasBelow(c.cache, p) && !HasBelow(c.handles, p) && !HasBelow(c.attr, p)
    ensures RenameTree(c, p, q) == (RenameFile(c, p, q), true)
  {
    assert !HasBelow(c.disk - {q}, p);
    OneKeySimultaneous(c.disk - {q}, p, q);
    OneKeySimultaneous(c.cache, p, q);
    OneKeySimultaneous(c.handles, p, q);
    OneKeySimultaneous(c.attr, p, q);
    var d := c.disk - {q};
    if p in d { assert d[q := d[p]] - {p} == (d - {p})[q := d[p]]; }
  }
}
