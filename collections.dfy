/** Sequence and dictionary operations shared by the note-taking code:
    concatenation of a list of lists and the `dict.update` loop over
    keyword pairs. */
module Collections {

  /** The in-order concatenation of the inner sequences (`itertools.chain`). */
  function Concat<T>(nested: seq<seq<T>>): seq<T>
  {
    if |nested| == 0 then [] else Concat(nested[..|nested| - 1]) + nested[|nested| - 1]
  }

  /** The sum of the inner lengths. */
  function SumLengths<T>(nested: seq<seq<T>>): nat
  {
    if |nested| == 0 then 0 else SumLengths(nested[..|nested| - 1]) + |nested[|nested| - 1]|
  }

  lemma {:induction false} ConcatLength<T>(nested: seq<seq<T>>)
    ensures |Concat(nested)| == SumLengths(nested)
  {
    if |nested| > 0 {
      ConcatLength(nested[..|nested| - 1]);
    }
  }

  /** Concatenation distributes over splitting the outer sequence. */
  lemma {:induction false} ConcatAppend<T>(a: seq<seq<T>>, b: seq<seq<T>>)
    ensures Concat(a + b) == Concat(a) + Concat(b)
    decreases |b|
  {
    if |b| == 0 {
      assert a + b == a;
    } else {
      assert (a + b)[..|a + b| - 1] == a + b[..|b| - 1];
      ConcatAppend(a, b[..|b| - 1]);
    }
  }

  /** Every element of the concatenation sits at the matching place of one
      inner sequence: the element at position `SumLengths(nested[..i]) + j`
      is `nested[i][j]`. */
  lemma {:induction false} ConcatAt<T>(nested: seq<seq<T>>, i: nat, j: nat)
    requires i < |nested| && j < |nested[i]|
    ensures SumLengths(nested[..i]) + j < |Concat(nested)|
    ensures Concat(nested)[SumLengths(nested[..i]) + j] == nested[i][j]
  {
    assert nested == nested[..i] + [nested[i]] + nested[i + 1..];
    ConcatAppend(nested[..i] + [nested[i]], nested[i + 1..]);
    ConcatAppend(nested[..i], [nested[i]]);
    assert Concat([nested[i]]) == nested[i] by {
      assert [nested[i]][..0] == [];
    }
    ConcatLength(nested[..i]);
  }

  /** The keys of a sequence of keyword pairs. */
  function KeysOf<K, V>(pairs: seq<(K, V)>): set<K>
  {
    set i | 0 <= i < |pairs| :: pairs[i].0
  }

  /** No key occurs twice, as in a Python dict's items. */
  predicate DistinctKeys<K(==), V>(pairs: seq<(K, V)>)
  {
    forall i, j :: 0 <= i < j < |pairs| ==> pairs[i].0 != pairs[j].0
  }

  /** `m` after `for key, value in pairs: m.update({key: value})`. */
  function Overlay<K, V>(m: map<K, V>, pairs: seq<(K, V)>): map<K, V>
  {
    if |pairs| == 0 then m
    else Overlay(m, pairs[..|pairs| - 1])[pairs[|pairs| - 1].0 := pairs[|pairs| - 1].1]
  }

  /** What the update loop promises: every pair's key maps to the pair's
      value, every other key keeps its old value, and no other key appears. */
  lemma {:induction false} OverlayLookup<K, V>(m: map<K, V>, pairs: seq<(K, V)>)
    requires DistinctKeys(pairs)
    ensures Overlay(m, pairs).Keys == m.Keys + KeysOf(pairs)
    ensures forall i :: 0 <= i < |pairs| ==> Overlay(m, pairs)[pairs[i].0] == pairs[i].1
    ensures forall k :: k in m && k !in KeysOf(pairs) ==> Overlay(m, pairs)[k] == m[k]
  {
    if |pairs| > 0 {
      var init := pairs[..|pairs| - 1];
      OverlayLookup(m, init);
      assert KeysOf(pairs) == KeysOf(init) + {pairs[|pairs| - 1].0} by {
        assert pairs == init + [pairs[|pairs| - 1]];
      }
      forall i | 0 <= i < |pairs| - 1
        ensures Overlay(m, pairs)[pairs[i].0] == pairs[i].1
      {
        assert pairs[i] == init[i];
      }
    }
  }
}
