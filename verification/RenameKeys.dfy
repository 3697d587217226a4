/**
 The loop in rename_file that rewrites the keys of an ordered map while iterating over it:
 insert the new key, erase the old one, go on from the erased position. Inserted keys that
 sort after the cursor are met again.
 */
module RenameKeys {
  import opened Keys
  import opened KeyOrder

  // The key is the old path, or lies below it.
  predicate Matches(old_p: string, key: string) {
    |old_p| <= |key| && key[..|old_p|] == old_p && (|key| == |old_p| || key[|old_p|] == '/')
  }

  predicate StrictlyBelow(old_p: string, key: string) {
    Matches(old_p, key) && key != old_p
  }

  function Image(old_p: string, new_p: string, key: string): string
    requires Matches(old_p, key)
  {
    new_p + key[|old_p|..]
  }

  /** A key matches exactly if it is the path itself or continues it after a slash; its image is the
      new path continued in the same way. A name that merely shares the string prefix does not match. */
  lemma MatchesMeaning(old_p: string, new_p: string, key: string)
    ensures Matches(old_p, key) <==> key == old_p || exists rest :: key == old_p + "/" + rest
    ensures Image(old_p, new_p, old_p) == new_p
    ensures forall rest ::
              Matches(old_p, old_p + "/" + rest) && Image(old_p, new_p, old_p + "/" + rest) == new_p + "/" + rest
  {
    if Matches(old_p, key) && key != old_p {
      assert key == old_p + "/" + key[|old_p| + 1..];
    }
    assert new_p + old_p[|old_p|..] == new_p;
    forall rest
      ensures Matches(old_p, old_p + "/" + rest) && Image(old_p, new_p, old_p + "/" + rest) == new_p + "/" + rest
    {
      var k := old_p + "/" + rest;
      assert k[..|old_p|] == old_p && k[|old_p|..] == "/" + rest;
      assert new_p + ("/" + rest) == new_p + "/" + rest;
    }
  }

  // Neither path is the other, nor a component-wise ancestor of it.
  predicate Unrelated(old_p: string, new_p: string) {
    !Matches(old_p, new_p) && !Matches(new_p, old_p)
  }

  // ---------------------------------------------------------------- simultaneous substitution

  // x is what some key of moved became.
  predicate ComesFrom(old_p: string, new_p: string, moved: set<string>, x: string) {
    |new_p| <= |x| && x[..|new_p|] == new_p && old_p + x[|new_p|..] in moved
  }

  // Every key of moved is replaced by its image at once, all other keys keep their place
  // unless an image lands on them.
  ghost function Rewrite<V>(m: map<string, V>, old_p: string, new_p: string, moved: set<string>): map<string, V>
    requires moved <= m.Keys && forall k :: k in moved ==> Matches(old_p, k)
  {
    var images := set k | k in moved :: Image(old_p, new_p, k);
    ImagesComeFrom(old_p, new_p, moved);
    map x | x in m.Keys + images && (ComesFrom(old_p, new_p, moved, x) || x !in moved) ::
      if ComesFrom(old_p, new_p, moved, x) then m[old_p + x[|new_p|..]] else m[x]
  }

  lemma ImagesComeFrom(old_p: string, new_p: string, moved: set<string>)
    requires forall k :: k in moved ==> Matches(old_p, k)
    ensures forall k :: k in moved ==>
                          ComesFrom(old_p, new_p, moved, Image(old_p, new_p, k)) &&
                          old_p + Image(old_p, new_p, k)[|new_p|..] == k
  {
    forall k | k in moved
      ensures old_p + Image(old_p, new_p, k)[|new_p|..] == k
      ensures Image(old_p, new_p, k)[..|new_p|] == new_p
    {
      assert Image(old_p, new_p, k)[|new_p|..] == k[|old_p|..];
    }
  }

  lemma ComesFromIsImage(old_p: string, new_p: string, moved: set<string>, x: string)
    requires forall k :: k in moved ==> Matches(old_p, k)
    requires ComesFrom(old_p, new_p, moved, x)
    ensures Image(old_p, new_p, old_p + x[|new_p|..]) == x
  {
    assert (old_p + x[|new_p|..])[|old_p|..] == x[|new_p|..];
  }

  ghost function Matching<V>(m: map<string, V>, old_p: string): set<string> {
    set k | k in m && Matches(old_p, k)
  }

  ghost function Simultaneous<V>(m: map<string, V>, old_p: string, new_p: string): map<string, V> {
    Rewrite(m, old_p, new_p, Matching(m, old_p))
  }

  /** What simultaneous substitution means, key by key: each matching key is at its new name
      with its value, a key that does not match keeps its value unless a new name lands on it,
      and there is nothing else. */
  lemma SimultaneousMeaning<V>(m: map<string, V>, old_p: string, new_p: string)
    ensures var r := Simultaneous(m, old_p, new_p);
            && (forall k :: k in m && Matches(old_p, k) ==>
                              Image(old_p, new_p, k) in r && r[Image(old_p, new_p, k)] == m[k])
            && (forall k :: k in m && !Matches(old_p, k) ==>
                              k in r && (r[k] == m[k] || ComesFrom(old_p, new_p, Matching(m, old_p), k)))
            && (forall x :: x in r ==>
                              ComesFrom(old_p, new_p, Matching(m, old_p), x) || (x in m && !Matches(old_p, x)))
  {
    ImagesComeFrom(old_p, new_p, Matching(m, old_p));
  }

  // ---------------------------------------------------------------- the loop, step by step

  datatype Cursor = At(key: string) | End

  datatype Loop<V> = Loop(m: map<string, V>, it: Cursor)

  ghost function Above(keys: set<string>, k: string): set<string> {
    set x | x in keys && Less(k, x)
  }

  // The position begin(), and the position after k.
  ghost function First(keys: set<string>): Cursor {
    if keys == {} then End else At(Least(keys))
  }

  ghost function Next(keys: set<string>, k: string): Cursor {
    First(Above(keys, k))
  }

  ghost function Start<V>(m: map<string, V>): Loop<V> {
    Loop(m, First(m.Keys))
  }

  ghost predicate Positioned<V>(l: Loop<V>) {
    l.it.At? ==> l.it.key in l.m
  }

  // One round of the loop. Assigning to the new key comes first, erasing the old key second.
  ghost function Step<V>(l: Loop<V>, old_p: string, new_p: string): (l': Loop<V>)
    requires Positioned(l) && l.it.At?
    ensures Positioned(l')
  {
    var k := l.it.key;
    var m' := if Matches(old_p, k) then l.m[Image(old_p, new_p, k) := l.m[k]] - {k} else l.m;
    Loop(m', Next(m'.Keys, k))
  }

  ghost function Run<V>(l: Loop<V>, old_p: string, new_p: string, n: nat): (l': Loop<V>)
    requires Positioned(l)
    ensures Positioned(l')
    decreases n
  {
    if n == 0 || l.it.End? then l else Run(Step(l, old_p, new_p), old_p, new_p, n - 1)
  }

  ghost predicate EndsWithin<V>(m: map<string, V>, old_p: string, new_p: string, n: nat) {
    Run(Start(m), old_p, new_p, n).it.End?
  }

  ghost predicate Terminates<V>(m: map<string, V>, old_p: string, new_p: string) {
    exists n: nat :: EndsWithin(m, old_p, new_p, n)
  }

  // The loop ends, with result r.
  ghost predicate EndsIn<V>(m: map<string, V>, old_p: string, new_p: string, r: map<string, V>) {
    exists n: nat :: EndsWithin(m, old_p, new_p, n) && Run(Start(m), old_p, new_p, n).m == r
  }

  lemma {:induction false} RunSnoc<V>(l: Loop<V>, old_p: string, new_p: string, n: nat)
    requires Positioned(l)
    ensures var l' := Run(l, old_p, new_p, n);
            Run(l, old_p, new_p, n + 1) == if l'.it.End? then l' else Step(l', old_p, new_p)
    decreases n
  {
    if n != 0 && l.it.At? {
      RunSnoc(Step(l, old_p, new_p), old_p, new_p, n - 1);
    }
  }

  lemma {:induction false} RunSettles<V>(l: Loop<V>, old_p: string, new_p: string, n: nat, n': nat)
    requires Positioned(l) && n <= n'
    requires Run(l, old_p, new_p, n).it.End?
    ensures Run(l, old_p, new_p, n') == Run(l, old_p, new_p, n)
    decreases n
  {
    if n != 0 && l.it.At? {
      RunSettles(Step(l, old_p, new_p), old_p, new_p, n - 1, n' - 1);
    }
  }

  // ---------------------------------------------------------------- the ordered cursor

  predicate Passed(it: Cursor, k: string) {
    it.End? || Less(k, it.key)
  }

  // After a round at x the cursor has passed x and what it had passed before, and no key
  // that is still in the map.
  lemma NextPasses(keys: set<string>, x: string)
    ensures Passed(Next(keys, x), x)
    ensures forall k :: Less(k, x) ==> Passed(Next(keys, x), k)
    ensures forall k :: k in keys && Less(x, k) ==> !Passed(Next(keys, x), k)
  {
    var s := Above(keys, x);
    assert forall k :: k in keys && Less(x, k) ==> k in s;
    if s != {} {
      var y := Least(s);
      forall k | Less(k, x) ensures Less(k, y) { LessTransitive(k, x, y); }
      forall k | k in keys && Less(x, k) ensures !Less(k, y) {
        if k != y { LessAsymmetric(y, k); } else { LessIrreflexive(k); }
      }
    }
  }

  lemma FirstPassesNothing(keys: set<string>)
    ensures forall k :: k in keys ==> !Passed(First(keys), k)
  {
    forall k | k in keys ensures !Passed(First(keys), k) {
      var y := Least(keys);
      if k != y { LessAsymmetric(y, k); } else { LessIrreflexive(k); }
    }
  }

  // ---------------------------------------------------------------- when it works

  /** No image of a matching key is met again: an image that matches the old path sorts before
      the key it came from. A caller can check this before the call. */
  ghost predicate NoRevisit<V>(m: map<string, V>, old_p: string, new_p: string) {
    forall k :: k in m && Matches(old_p, k) && Matches(old_p, Image(old_p, new_p, k)) ==>
                  Less(Image(old_p, new_p, k), k)
  }

  ghost function MovedSoFar<V>(m: map<string, V>, old_p: string, it: Cursor): set<string> {
    set k | k in m && Matches(old_p, k) && Passed(it, k)
  }

  ghost predicate HalfRewritten<V>(m: map<string, V>, old_p: string, new_p: string, l: Loop<V>) {
    Positioned(l) && l.m == Rewrite(m, old_p, new_p, MovedSoFar(m, old_p, l.it))
  }

  // A key the loop moves is an original key that no image has landed on.
  lemma CurrentKeyIsOriginal<V>(m: map<string, V>, old_p: string, new_p: string, l: Loop<V>)
    requires NoRevisit(m, old_p, new_p) && HalfRewritten(m, old_p, new_p, l)
    requires l.it.At? && Matches(old_p, l.it.key)
    ensures var moved := MovedSoFar(m, old_p, l.it);
            && l.it.key in m && l.it.key !in moved
            && !ComesFrom(old_p, new_p, moved + {l.it.key}, l.it.key)
  {
    var k, moved := l.it.key, MovedSoFar(m, old_p, l.it);
    LessIrreflexive(k);
    ImagesComeFrom(old_p, new_p, moved);
    if ComesFrom(old_p, new_p, moved, k) {
      ComesFromIsImage(old_p, new_p, moved, k);
      LessAsymmetric(old_p + k[|new_p|..], k);
    }
    if ComesFrom(old_p, new_p, moved + {k}, k) {
      ComesFromIsImage(old_p, new_p, moved + {k}, k);
    }
  }

  lemma RewriteOneMore<V>(m: map<string, V>, old_p: string, new_p: string, moved: set<string>, k: string)
    requires moved <= m.Keys && forall x :: x in moved ==> Matches(old_p, x)
    requires k in m && k !in moved && Matches(old_p, k)
    requires !ComesFrom(old_p, new_p, moved + {k}, k)
    ensures var r := Rewrite(m, old_p, new_p, moved);
            k in r && r[Image(old_p, new_p, k) := r[k]] - {k} == Rewrite(m, old_p, new_p, moved + {k})
  {
    ImagesComeFrom(old_p, new_p, moved);
    ImagesComeFrom(old_p, new_p, moved + {k});
    var r := Rewrite(m, old_p, new_p, moved);
    assert k in r && r[k] == m[k];
    var i := Image(old_p, new_p, k);
    forall x | x != i
      ensures ComesFrom(old_p, new_p, moved + {k}, x) <==> ComesFrom(old_p, new_p, moved, x)
    {
      if ComesFrom(old_p, new_p, moved + {k}, x) {
        ComesFromIsImage(old_p, new_p, moved + {k}, x);
      }
    }
    var lhs, rhs := r[i := r[k]] - {k}, Rewrite(m, old_p, new_p, moved + {k});
    assert forall x :: x in lhs <==> x in rhs;
    assert forall x :: x in lhs ==> lhs[x] == rhs[x];
  }

  // One round moves the key it is at, if that matches, and passes no other matching key.
  lemma RoundPassesOneKey<V>(m: map<string, V>, old_p: string, new_p: string, l: Loop<V>, x: string)
    requires HalfRewritten(m, old_p, new_p, l) && l.it.At? && x in m && Matches(old_p, x)
    requires Matches(old_p, l.it.key) ==> !ComesFrom(old_p, new_p, MovedSoFar(m, old_p, l.it) + {l.it.key}, l.it.key)
    ensures Passed(Step(l, old_p, new_p).it, x) <==> Passed(l.it, x) || x == l.it.key
  {
    var k, l' := l.it.key, Step(l, old_p, new_p);
    var moved := MovedSoFar(m, old_p, l.it);
    NextPasses(l'.m.Keys, k);
    LessTotal(x, k);
    if Less(k, x) {
      LessAsymmetric(k, x);
      ImagesComeFrom(old_p, new_p, moved);
      assert x !in moved && x in l.m && x in l'.m;
    }
  }

  lemma RoundRewrites<V>(m: map<string, V>, old_p: string, new_p: string, l: Loop<V>)
    requires NoRevisit(m, old_p, new_p) && HalfRewritten(m, old_p, new_p, l) && l.it.At?
    ensures var moved := MovedSoFar(m, old_p, l.it);
            var done := if Matches(old_p, l.it.key) then moved + {l.it.key} else moved;
            done <= m.Keys && Step(l, old_p, new_p).m == Rewrite(m, old_p, new_p, done)
  {
    if Matches(old_p, l.it.key) {
      CurrentKeyIsOriginal(m, old_p, new_p, l);
      RewriteOneMore(m, old_p, new_p, MovedSoFar(m, old_p, l.it), l.it.key);
    }
  }

  lemma HalfRewrittenStep<V>(m: map<string, V>, old_p: string, new_p: string, l: Loop<V>)
    requires NoRevisit(m, old_p, new_p) && HalfRewritten(m, old_p, new_p, l) && l.it.At?
    ensures HalfRewritten(m, old_p, new_p, Step(l, old_p, new_p))
  {
    var k, l' := l.it.key, Step(l, old_p, new_p);
    var moved, moved' := MovedSoFar(m, old_p, l.it), MovedSoFar(m, old_p, l'.it);
    var done := if Matches(old_p, k) then moved + {k} else moved;
    RoundRewrites(m, old_p, new_p, l);
    if Matches(old_p, k) { CurrentKeyIsOriginal(m, old_p, new_p, l); }
    forall x | x in m && Matches(old_p, x) ensures x in moved' <==> x in done {
      RoundPassesOneKey(m, old_p, new_p, l, x);
    }
    assert moved' == done;
  }

  // The keys, present or still to be inserted, that the cursor has not passed.
  ghost function Ahead<V>(m: map<string, V>, old_p: string, new_p: string, it: Cursor): set<string> {
    set x | x in m.Keys + (set k | k in m && Matches(old_p, k) :: Image(old_p, new_p, k)) && !Passed(it, x)
  }

  lemma AheadShrinks<V>(m: map<string, V>, old_p: string, new_p: string, l: Loop<V>)
    requires HalfRewritten(m, old_p, new_p, l) && l.it.At?
    ensures Ahead(m, old_p, new_p, Step(l, old_p, new_p).it) < Ahead(m, old_p, new_p, l.it)
  {
    var k, l' := l.it.key, Step(l, old_p, new_p);
    NextPasses(l'.m.Keys, k);
    LessIrreflexive(k);
    assert k in Ahead(m, old_p, new_p, l.it);
    assert k !in Ahead(m, old_p, new_p, l'.it);
  }

  lemma {:induction false} Finishes<V>(m: map<string, V>, old_p: string, new_p: string, l: Loop<V>)
    returns (n: nat)
    requires NoRevisit(m, old_p, new_p) && HalfRewritten(m, old_p, new_p, l)
    ensures Run(l, old_p, new_p, n).it.End?
    ensures Run(l, old_p, new_p, n).m == Simultaneous(m, old_p, new_p)
    decreases Ahead(m, old_p, new_p, l.it)
  {
    if l.it.End? {
      n := 0;
      assert MovedSoFar(m, old_p, l.it) == Matching(m, old_p);
    } else {
      HalfRewrittenStep(m, old_p, new_p, l);
      AheadShrinks(m, old_p, new_p, l);
      n := Finishes(m, old_p, new_p, Step(l, old_p, new_p));
      n := n + 1;
    }
  }

  lemma NoRevisitSuffices<V>(m: map<string, V>, old_p: string, new_p: string)
    requires NoRevisit(m, old_p, new_p)
    ensures EndsIn(m, old_p, new_p, Simultaneous(m, old_p, new_p))
  {
    FirstPassesNothing(m.Keys);
    assert MovedSoFar(m, old_p, First(m.Keys)) == {};
    assert Rewrite(m, old_p, new_p, {}) == m;
    var n := Finishes(m, old_p, new_p, Start(m));
    assert EndsWithin(m, old_p, new_p, n);
  }

  // ---------------------------------------------------------------- when it does not

  // A key that the loop reaches twice over: first itself, later its image.
  ghost predicate MetAgain<V>(l: Loop<V>, old_p: string, new_p: string, k: string)
    requires Matches(old_p, k)
  {
    var i := Image(old_p, new_p, k);
    && Positioned(l)
    && (!Passed(l.it, k) ==> k in l.m)
    && (Passed(l.it, k) && !Passed(l.it, i) ==> i in l.m)
    && (Passed(l.it, i) ==> i !in l.m)
  }

  lemma MetAgainStep<V>(l: Loop<V>, old_p: string, new_p: string, k: string)
    requires Matches(old_p, k) && Matches(old_p, Image(old_p, new_p, k))
    requires !Less(Image(old_p, new_p, k), k)
    requires MetAgain(l, old_p, new_p, k) && l.it.At?
    ensures MetAgain(Step(l, old_p, new_p), old_p, new_p, k)
  {
    var x, i, l' := l.it.key, Image(old_p, new_p, k), Step(l, old_p, new_p);
    NextPasses(l'.m.Keys, x);
    LessTotal(x, k);
    LessTotal(x, i);
    LessTotal(k, i);
    LessIrreflexive(x);
    if Less(x, k) { LessAsymmetric(x, k); }
    if Less(k, x) { LessAsymmetric(k, x); }
    if Less(x, i) { LessAsymmetric(x, i); }
    if Less(i, x) { LessAsymmetric(i, x); }
    if Matches(old_p, x) && Image(old_p, new_p, x) == i {
      ImagesComeFrom(old_p, new_p, {x, k});
    }
    if Less(x, k) {
      if k != i { LessTransitive(x, k, i); }
    }
    if Less(i, x) && k != i { LessTransitive(k, i, x); }
  }

  lemma {:induction false} NeverAtItsImage<V>(l: Loop<V>, old_p: string, new_p: string, k: string, n: nat)
    requires Matches(old_p, k) && Matches(old_p, Image(old_p, new_p, k))
    requires !Less(Image(old_p, new_p, k), k)
    requires MetAgain(l, old_p, new_p, k)
    requires Run(l, old_p, new_p, n).it.End?
    ensures Image(old_p, new_p, k) !in Run(l, old_p, new_p, n).m
    decreases n
  {
    if n != 0 && l.it.At? {
      MetAgainStep(l, old_p, new_p, k);
      NeverAtItsImage(Step(l, old_p, new_p), old_p, new_p, k, n - 1);
    }
  }

  /** The loop performs the simultaneous substitution exactly when no image is met again. */
  lemma SimultaneousExactlyWhen<V>(m: map<string, V>, old_p: string, new_p: string)
    ensures EndsIn(m, old_p, new_p, Simultaneous(m, old_p, new_p)) <==> NoRevisit(m, old_p, new_p)
  {
    if NoRevisit(m, old_p, new_p) {
      NoRevisitSuffices(m, old_p, new_p);
    } else if EndsIn(m, old_p, new_p, Simultaneous(m, old_p, new_p)) {
      var n: nat :| EndsWithin(m, old_p, new_p, n) &&
                    Run(Start(m), old_p, new_p, n).m == Simultaneous(m, old_p, new_p);
      var k :| k in m && Matches(old_p, k) && Matches(old_p, Image(old_p, new_p, k)) &&
               !Less(Image(old_p, new_p, k), k);
      FirstPassesNothing(m.Keys);
      PassedLater(First(m.Keys), k, Image(old_p, new_p, k));
      NeverAtItsImage(Start(m), old_p, new_p, k, n);
      SimultaneousMeaning(m, old_p, new_p);
      assert false;
    }
  }

  lemma PassedLater(it: Cursor, k: string, i: string)
    requires !Passed(it, k) && !Less(i, k)
    ensures !Passed(it, i)
  {
    LessTotal(i, k);
    if Less(i, it.key) && i != k { LessTransitive(k, i, it.key); }
  }

  lemma OnlyRelatedPathsMatchAgain(old_p: string, new_p: string, k: string)
    requires Matches(old_p, k) && Matches(old_p, Image(old_p, new_p, k))
    ensures !Unrelated(old_p, new_p)
  {
    var i := Image(old_p, new_p, k);
    if |new_p| >= |old_p| {
      assert new_p[..|old_p|] == i[..|old_p|];
      if |new_p| > |old_p| { assert new_p[|old_p|] == i[|old_p|]; }
    } else {
      assert old_p[..|new_p|] == i[..|new_p|];
      assert old_p[|new_p|] == i[|new_p|] == k[|old_p|];
    }
  }

  /** For unrelated paths no image matches the old path, so the loop is the substitution. */
  lemma UnrelatedPathsAreSubstituted<V>(m: map<string, V>, old_p: string, new_p: string)
    requires Unrelated(old_p, new_p)
    ensures EndsIn(m, old_p, new_p, Simultaneous(m, old_p, new_p))
    ensures forall k :: k in m && Matches(old_p, k) ==> k !in Simultaneous(m, old_p, new_p)
  {
    forall k | Matches(old_p, k) ensures !Matches(old_p, Image(old_p, new_p, k)) {
      if Matches(old_p, Image(old_p, new_p, k)) { OnlyRelatedPathsMatchAgain(old_p, new_p, k); }
    }
    NoRevisitSuffices(m, old_p, new_p);
    var moved := Matching(m, old_p);
    forall k | k in m && Matches(old_p, k) ensures !ComesFrom(old_p, new_p, moved, k) {
      if ComesFrom(old_p, new_p, moved, k) { ComesFromIsImage(old_p, new_p, moved, k); }
    }
  }

  // ---------------------------------------------------------------- when it does not even end

  ghost predicate Chased<V>(l: Loop<V>, old_p: string, new_p: string, y: string) {
    && Positioned(l) && y in l.m && Matches(old_p, y) && Less(y, Image(old_p, new_p, y))
    && l.it.At? && !Less(y, l.it.key)
  }

  // Moving a key deeper keeps it ahead of the cursor for ever.
  lemma ImageOfChased(old_p: string, new_p: string, y: string)
    requires StrictlyBelow(old_p, new_p) && Matches(old_p, y)
    ensures var i := Image(old_p, new_p, y);
            Matches(old_p, i) && (Less(y, i) ==> Less(i, Image(old_p, new_p, i)))
  {
    var i, t, s := Image(old_p, new_p, y), new_p[|old_p|..], y[|old_p|..];
    assert new_p == old_p + t && y == old_p + s;
    assert i == old_p + (t + s);
    assert Image(old_p, new_p, i) == old_p + (t + (t + s)) by {
      assert i[|old_p|..] == t + s;
      assert new_p + (t + s) == old_p + (t + (t + s));
    }
    LessUnderPrefix(old_p, s, t + s);
    LessUnderPrefix(old_p, t + s, t + (t + s));
    LessUnderPrefix(t, s, t + s);
  }

  lemma ChasedStep<V>(l: Loop<V>, old_p: string, new_p: string, y: string) returns (y': string)
    requires StrictlyBelow(old_p, new_p) && Chased(l, old_p, new_p, y)
    ensures Chased(Step(l, old_p, new_p), old_p, new_p, y')
  {
    var l' := Step(l, old_p, new_p);
    NextPasses(l'.m.Keys, l.it.key);
    LessTotal(y, l.it.key);
    y' := if y == l.it.key then Image(old_p, new_p, y) else y;
    ImageOfChased(old_p, new_p, y);
    if y == l.it.key { LessIrreflexive(y); }
    assert y' in l'.m;
  }

  lemma {:induction false} NeverEnds<V>(l: Loop<V>, old_p: string, new_p: string, y: string, n: nat)
    requires StrictlyBelow(old_p, new_p) && Chased(l, old_p, new_p, y)
    ensures Run(l, old_p, new_p, n).it.At?
    decreases n
  {
    if n != 0 {
      var y' := ChasedStep(l, old_p, new_p, y);
      NeverEnds(Step(l, old_p, new_p), old_p, new_p, y', n - 1);
    }
  }

  // The lengths of all keys, each counted with its terminator.
  ghost function Weight(keys: set<string>): nat {
    if keys == {} then 0
    else var k :| k in keys; |k| + 1 + Weight(keys - {k})
  }

  lemma {:induction false} WeightWithout(keys: set<string>, k: string)
    requires k in keys
    ensures Weight(keys) == |k| + 1 + Weight(keys - {k})
  {
    var x :| x in keys && Weight(keys) == |x| + 1 + Weight(keys - {x});
    if x != k {
      WeightWithout(keys - {x}, k);
      WeightWithout(keys - {k}, x);
      assert keys - {x} - {k} == keys - {k} - {x};
    }
  }

  lemma MovingUpSheds(keys: set<string>, k: string, i: string)
    requires k in keys && (|i| < |k| || i == k)
    ensures Weight(keys + {i} - {k}) < Weight(keys)
  {
    WeightWithout(keys, k);
    if i == k || i in keys {
      assert keys + {i} - {k} == keys - {k};
    } else {
      var keys' := keys + {i} - {k};
      WeightWithout(keys', i);
      assert keys' - {i} == keys - {k};
    }
  }

  // Renaming to an ancestor, or to the path itself, always ends.
  lemma {:induction false} EndsGoingUp<V>(l: Loop<V>, old_p: string, new_p: string) returns (n: nat)
    requires Positioned(l) && (|new_p| < |old_p| || new_p == old_p)
    ensures Run(l, old_p, new_p, n).it.End?
    decreases Weight(l.m.Keys), if l.it.At? then Above(l.m.Keys, l.it.key) + {l.it.key} else {}
  {
    if l.it.End? {
      n := 0;
    } else {
      var k, l' := l.it.key, Step(l, old_p, new_p);
      LessIrreflexive(k);
      if Matches(old_p, k) {
        var i := Image(old_p, new_p, k);
        assert new_p == old_p ==> i == k;
        MovingUpSheds(l.m.Keys, k, i);
        assert l'.m.Keys == l.m.Keys + {i} - {k};
      } else if l'.it.At? {
        var k' := l'.it.key;
        LessIrreflexive(k');
        assert k' in Above(l.m.Keys, k);
        forall x | Less(k', x) ensures Less(k, x) { LessTransitive(k, k', x); }
        assert Above(l'.m.Keys, k') + {k'} <= Above(l.m.Keys, k);
      }
      n := EndsGoingUp(l', old_p, new_p);
      n := n + 1;
    }
  }

  /** The loop ends on every map and every pair of paths, except when the new path lies below
      the old one and some matching key sorts before its own image; then it never ends. */
  lemma TerminatesExactlyWhen<V>(m: map<string, V>, old_p: string, new_p: string)
    ensures Terminates(m, old_p, new_p) <==>
            (StrictlyBelow(old_p, new_p) ==>
               forall k :: k in m && Matches(old_p, k) ==> !Less(k, Image(old_p, new_p, k)))
  {
    if StrictlyBelow(old_p, new_p) {
      if k :| k in m && Matches(old_p, k) && Less(k, Image(old_p, new_p, k)) {
        FirstPassesNothing(m.Keys);
        forall n: nat ensures !EndsWithin(m, old_p, new_p, n) {
          NeverEnds(Start(m), old_p, new_p, k, n);
        }
      } else {
        forall k | k in m && Matches(old_p, k) ensures Less(Image(old_p, new_p, k), k) {
          LessTotal(k, Image(old_p, new_p, k));
          assert |Image(old_p, new_p, k)| > |k|;
        }
        NoRevisitSuffices(m, old_p, new_p);
      }
    } else if Matches(new_p, old_p) {
      var n := EndsGoingUp(Start(m), old_p, new_p);
      assert EndsWithin(m, old_p, new_p, n);
    } else {
      UnrelatedPathsAreSubstituted(m, old_p, new_p);
    }
  }

  /** Moving a directory into itself: the loop hangs if the directory itself is a key. */
  lemma HangsOnItsOwnKey<V>(m: map<string, V>, old_p: string, new_p: string)
    requires StrictlyBelow(old_p, new_p) && old_p in m
    ensures !Terminates(m, old_p, new_p)
  {
    var t := new_p[|old_p|..];
    assert old_p + "" == old_p && new_p == old_p + t;
    assert Image(old_p, new_p, old_p) == new_p;
    LessUnderPrefix(old_p, "", t);
    TerminatesExactlyWhen(m, old_p, new_p);
  }

  // A directory moved below itself can still end, as when its only key sorts after the image.
  lemma CanEndBelowItself()
    ensures StrictlyBelow("/a", "/a/b") && Matches("/a", "/a/x")
    ensures Terminates(map["/a/x" := 0], "/a", "/a/b")
  {
    var m := map["/a/x" := 0];
    assert "/a/x"[..2] == "/a" && "/a/b"[..2] == "/a";
    var i := Image("/a", "/a/b", "/a/x");
    assert i == "/a/b" + "/x" == "/a/" + "b/x";
    assert "/a/x" == "/a/" + "x";
    LessUnderPrefix("/a/", "b/x", "x");
    LessAsymmetric(i, "/a/x");
    TerminatesExactlyWhen(m, "/a", "/a/b");
  }

  // ---------------------------------------------------------------- the loop itself

  /** update_map_keys. It can be called exactly where it ends; its result is the one the
      rounds above lead to. */
  method UpdateMapKeys<V>(m0: map<string, V>, old_p: string, new_p: string) returns (m: map<string, V>)
    requires Terminates(m0, old_p, new_p)
    ensures EndsIn(m0, old_p, new_p, m)
    ensures NoRevisit(m0, old_p, new_p) ==> m == Simultaneous(m0, old_p, new_p)
  {
    m := m0;
    ghost var last: nat :| EndsWithin(m0, old_p, new_p, last);
    ghost var n: nat := 0;
    var it := End;
    if m != map[] {
      ghost var least := Least(m.Keys);
      var k :| k in m.Keys && forall x :: x in m.Keys ==> x == k || Less(k, x);
      LeastUnique(k, least, m.Keys);
      it := At(k);
    }
    while it.At?
      invariant Run(Start(m0), old_p, new_p, n) == Loop(m, it)
      invariant n <= last
      decreases last - n
    {
      RunSnoc(Start(m0), old_p, new_p, n);
      if n == last { assert false; }
      var key := it.key;
      if Matches(old_p, key) {
        var new_key := new_p + key[|old_p|..];
        m := m[new_key := m[key]];
        m := m - {key};
      }
      var rest := set x | x in m.Keys && Less(key, x);
      it := End;
      if rest != {} {
        ghost var least := Least(rest);
        var k :| k in rest && forall x :: x in rest ==> x == k || Less(k, x);
        LeastUnique(k, least, rest);
        it := At(k);
      }
      n := n + 1;
    }
    assert EndsWithin(m0, old_p, new_p, n);
    if NoRevisit(m0, old_p, new_p) {
      NoRevisitSuffices(m0, old_p, new_p);
      var n': nat :| EndsWithin(m0, old_p, new_p, n') &&
                     Run(Start(m0), old_p, new_p, n').m == Simultaneous(m0, old_p, new_p);
      RunSettles(Start(m0), old_p, new_p, if n <= n' then n else n', if n <= n' then n' else n);
    }
  }

  // ---------------------------------------------------------------- local keys and server paths

  /** Rewriting a local key is rewriting the server path it stands for. */
  lemma LocalKeysFollowPaths(cacheDir: string, root: string, p: Path, old_p: Path, new_p: Path)
    requires Rooted(root, p) && Rooted(root, old_p) && Rooted(root, new_p)
    ensures Matches(LocalKey(cacheDir, old_p), LocalKey(cacheDir, p)) <==> Matches(old_p, p)
    ensures Matches(old_p, p) ==>
              Image(LocalKey(cacheDir, old_p), LocalKey(cacheDir, new_p), LocalKey(cacheDir, p)) ==
              LocalKey(cacheDir, Image(old_p, new_p, p))
  {
    var d := cacheDir + Lead(p);
    var kp, ko := LocalKey(cacheDir, p), LocalKey(cacheDir, old_p);
    assert kp == d + p && ko == d + old_p;
    if |old_p| <= |p| {
      assert kp[..|ko|] == d + p[..|old_p|];
      assert (d + p[..|old_p|])[|d|..] == p[..|old_p|];
      assert (d + old_p)[|d|..] == old_p;
      assert kp[|ko|..] == p[|old_p|..];
    }
  }
}
