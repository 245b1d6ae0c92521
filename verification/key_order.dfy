/**
 The bookkeeping of tracked property names, as pure functions over sequences.

 `Absorb` is what pushing each candidate onto a list, unless the list already
 holds it, leaves behind; `FirstOccurrences` is an independent description of
 what gets appended: the candidates that are not tracked yet, each taken at
 its first occurrence. The same dedup-and-append shape also describes the
 order of an object's own keys when accessors are defined on it one name at
 a time (redefining an existing key keeps its position).
 */
module KeyOrder {

  type Key = string

  /** No name occurs twice. */
  predicate NoDup(s: seq<Key>) {
    forall i, j :: 0 <= i < j < |s| ==> s[i] != s[j]
  }

  /** The list `tracked` after each name of `cands`, in order, was pushed onto
      it unless it was already there. */
  function Absorb(tracked: seq<Key>, cands: seq<Key>): seq<Key>
    decreases |cands|
  {
    if cands == [] then tracked
    else
      var prev := Absorb(tracked, cands[..|cands| - 1]);
      var k := cands[|cands| - 1];
      if k in prev then prev else prev + [k]
  }

  /** The list only grows, what was tracked staying in place, and it ends up
      holding exactly the old names and the candidates. */
  lemma {:induction false} AbsorbElems(tracked: seq<Key>, cands: seq<Key>)
    ensures |tracked| <= |Absorb(tracked, cands)| && Absorb(tracked, cands)[..|tracked|] == tracked
    ensures forall k :: k in Absorb(tracked, cands) <==> k in tracked || k in cands
    decreases |cands|
  {
    if cands != [] {
      var n := |cands| - 1;
      AbsorbElems(tracked, cands[..n]);
      assert cands == cands[..n] + [cands[n]];
    }
  }

  /** The candidates that are not in `tracked`, each kept at its first
      occurrence in `cands` and dropped at every later one. */
  function FirstOccurrences(tracked: seq<Key>, cands: seq<Key>): seq<Key>
    decreases |cands|
  {
    if cands == [] then []
    else
      var n := |cands| - 1;
      FirstOccurrences(tracked, cands[..n])
        + (if cands[n] in tracked || cands[n] in cands[..n] then [] else [cands[n]])
  }

  /** What `FirstOccurrences` keeps: precisely the untracked candidates, once each. */
  lemma {:induction false} FirstOccurrencesElems(tracked: seq<Key>, cands: seq<Key>)
    ensures forall k :: k in FirstOccurrences(tracked, cands) <==> k in cands && k !in tracked
    ensures NoDup(FirstOccurrences(tracked, cands))
    decreases |cands|
  {
    if cands != [] {
      var n := |cands| - 1;
      FirstOccurrencesElems(tracked, cands[..n]);
      assert cands == cands[..n] + [cands[n]];
    }
  }

  /** Pushing unseen candidates appends exactly their first occurrences. */
  lemma {:induction false} AbsorbAppendsFirstOccurrences(tracked: seq<Key>, cands: seq<Key>)
    ensures Absorb(tracked, cands) == tracked + FirstOccurrences(tracked, cands)
    decreases |cands|
  {
    if cands != [] {
      var n := |cands| - 1;
      AbsorbAppendsFirstOccurrences(tracked, cands[..n]);
      FirstOccurrencesElems(tracked, cands[..n]);
    }
  }

  /** What a run appended to `tracked`, when the run ended at `Absorb`. */
  lemma AppendedIsFirstOccurrences(tracked: seq<Key>, cands: seq<Key>, added: seq<Key>)
    requires tracked + added == Absorb(tracked, cands)
    ensures added == FirstOccurrences(tracked, cands)
  {
    AbsorbAppendsFirstOccurrences(tracked, cands);
    assert added == (tracked + added)[|tracked|..];
  }

  /** A duplicate-free list stays duplicate-free. */
  lemma {:induction false} AbsorbNoDup(tracked: seq<Key>, cands: seq<Key>)
    requires NoDup(tracked)
    ensures NoDup(Absorb(tracked, cands))
  {
    AbsorbAppendsFirstOccurrences(tracked, cands);
    FirstOccurrencesElems(tracked, cands);
    var r := Absorb(tracked, cands);
    var f := FirstOccurrences(tracked, cands);
    forall i, j | 0 <= i < j < |r| ensures r[i] != r[j] {
      if j >= |tracked| {
        assert r[j] == f[j - |tracked|];
        if i < |tracked| {
          assert r[i] in tracked;
        } else {
          assert r[i] == f[i - |tracked|];
        }
      }
    }
  }

  /** Candidates that are all tracked already change nothing. */
  lemma {:induction false} AbsorbCovered(tracked: seq<Key>, cands: seq<Key>)
    requires forall k :: k in cands ==> k in tracked
    ensures Absorb(tracked, cands) == tracked
    decreases |cands|
  {
    if cands != [] {
      AbsorbCovered(tracked, cands[..|cands| - 1]);
    }
  }

  /** Processing two batches in turn is processing their concatenation. */
  lemma {:induction false} AbsorbConcat(tracked: seq<Key>, c1: seq<Key>, c2: seq<Key>)
    ensures Absorb(Absorb(tracked, c1), c2) == Absorb(tracked, c1 + c2)
    decreases |c2|
  {
    if c2 != [] {
      var n := |c2| - 1;
      AbsorbConcat(tracked, c1, c2[..n]);
      assert (c1 + c2)[..|c1 + c2| - 1] == c1 + c2[..n];
    } else {
      assert c1 + c2 == c1;
    }
  }

  /** Repeating the same batch is a no-op. */
  lemma AbsorbIdempotent(tracked: seq<Key>, cands: seq<Key>)
    ensures Absorb(Absorb(tracked, cands), cands) == Absorb(tracked, cands)
  {
    AbsorbElems(tracked, cands);
    AbsorbCovered(Absorb(tracked, cands), cands);
  }

  /** A single candidate is appended unless the list already holds it. */
  lemma AbsorbOne(tracked: seq<Key>, k: Key)
    ensures Absorb(tracked, [k]) == if k in tracked then tracked else tracked + [k]
  {
    assert [k][..0] == [];
  }

  /** One more candidate: it is appended unless the list already holds it. */
  lemma AbsorbStep(tracked: seq<Key>, cands: seq<Key>, k: Key)
    ensures Absorb(tracked, cands + [k])
         == if k in Absorb(tracked, cands) then Absorb(tracked, cands) else Absorb(tracked, cands) + [k]
  {
    assert (cands + [k])[..|cands|] == cands;
  }

  /** Adopting an object's own names into a list that starts as `extra`, then
      pushing `extra` and what was adopted onto the object's order, leaves the
      object's order extended by `extra` alone: every adopted name was in it
      already. */
  lemma AdoptedOrder(order: seq<Key>, extra: seq<Key>)
    ensures
      var added := FirstOccurrences(extra, order);
      Absorb(Absorb(order, added), extra + added) == Absorb(order, extra)
  {
    var added := FirstOccurrences(extra, order);
    FirstOccurrencesElems(extra, order);
    AbsorbCovered(order, added);
    AbsorbConcat(order, extra, added);
    AbsorbElems(order, extra);
    AbsorbCovered(Absorb(order, extra), added);
  }
}
