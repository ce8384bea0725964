/**
 * The "seen set" loops of the source keep, in input order, the first occurrence
 * of every non-empty normalised key. This module is their shared specification.
 */
module Dedup {
  import opened Text

  predicate Distinct<T(==)>(s: seq<T>) {
    forall i, j :: 0 <= i < j < |s| ==> s[i] != s[j]
  }

  /** The index of the first occurrence of `k` in `keys`. */
  function FirstIndex<T(==)>(keys: seq<T>, k: T): (r: nat)
    requires k in keys
    ensures r < |keys| && keys[r] == k && k !in keys[..r]
  {
    if keys[0] == k then 0
    else
      var r := 1 + FirstIndex(keys[1..], k);
      assert keys[..r] == [keys[0]] + keys[1..][..r - 1];
      r
  }

  /** No occurrence comes before the first one. */
  lemma {:induction false} FirstIndexLeast<T>(keys: seq<T>, k: T, j: nat)
    requires j < |keys| && keys[j] == k
    ensures FirstIndex(keys, k) <= j
    decreases j
  {
    if keys[0] != k {
      assert keys[1..][j - 1] == k;
      FirstIndexLeast(keys[1..], k, j - 1);
    }
  }

  lemma FirstIndexBefore<T>(keys: seq<T>, k: T, n: nat)
    requires n <= |keys| && k in keys[..n]
    ensures FirstIndex(keys, k) < n
  {
    var j :| 0 <= j < n && keys[..n][j] == k;
    FirstIndexLeast(keys, k, j);
  }

  /**
   * The non-empty keys of `keys`, each at its first occurrence. The definition
   * follows the source's loop: a key is appended when it is non-empty and not
   * yet seen.
   */
  function FirstOccurrences(keys: seq<String>): (r: seq<String>)
    ensures forall i :: 0 <= i < |r| ==> r[i] != [] && r[i] in keys
    ensures forall k :: k in keys && k != [] ==> k in r
    ensures Distinct(r)
    ensures |r| <= |keys|
  {
    if keys == [] then []
    else
      var init := keys[..|keys| - 1];
      var prev := FirstOccurrences(init);
      var k := keys[|keys| - 1];
      assert keys == init + [k];
      if k == [] || k in prev then prev else prev + [k]
  }

  /** Appending a key appends it to the output unless it is empty or already kept. */
  lemma FirstOccurrencesSnoc(keys: seq<String>, k: String)
    ensures FirstOccurrences(keys + [k]) ==
      if k == [] || k in FirstOccurrences(keys) then FirstOccurrences(keys) else FirstOccurrences(keys) + [k]
  {
    assert (keys + [k])[..|keys|] == keys;
  }

  /** The output keeps the keys in the order of their first occurrences. */
  lemma {:induction false} FirstOccurrencesOrder(keys: seq<String>, i: nat, j: nat)
    requires i < j < |FirstOccurrences(keys)|
    ensures FirstIndex(keys, FirstOccurrences(keys)[i]) < FirstIndex(keys, FirstOccurrences(keys)[j])
    decreases |keys|
  {
    var r := FirstOccurrences(keys);
    var init := keys[..|keys| - 1];
    var prev := FirstOccurrences(init);
    var k := keys[|keys| - 1];
    assert keys == init + [k];
    assert forall x :: x in init ==> FirstIndex(keys, x) == FirstIndex(init, x) by {
      forall x | x in init ensures FirstIndex(keys, x) == FirstIndex(init, x) {
        FirstIndexBefore(keys, x, |init|);
        var f := FirstIndex(keys, x);
        assert init[f] == x && init[..f] == keys[..f];
        FirstIndexUnique(init, x, f);
      }
    }
    if j < |prev| {
      assert r[i] == prev[i] && r[j] == prev[j];
      FirstOccurrencesOrder(init, i, j);
    } else {
      assert r == prev + [k] && r[j] == k && r[i] == prev[i];
      assert k !in init;
      assert init == keys[..|keys| - 1];
      FirstIndexUnique(keys, k, |keys| - 1);
      FirstIndexBefore(keys, prev[i], |init|);
    }
  }

  /** An occurrence with no earlier one is the first. */
  lemma {:induction false} FirstIndexUnique<T>(keys: seq<T>, k: T, f: nat)
    requires f < |keys| && keys[f] == k && k !in keys[..f]
    ensures FirstIndex(keys, k) == f
    decreases f
  {
    if f > 0 {
      assert keys[0] == keys[..f][0];
      assert keys[1..][f - 1] == k;
      assert keys[1..][..f - 1] == keys[1..f];
      assert forall m :: 0 <= m < f - 1 ==> keys[1..f][m] == keys[..f][m + 1];
      FirstIndexUnique(keys[1..], k, f - 1);
    }
  }

  /** Every element of a sequence, normalised by trimming and lowercasing. */
  function NormalizeAll(pieces: seq<String>): (r: seq<String>)
    ensures |r| == |pieces|
    ensures forall i :: 0 <= i < |pieces| ==> r[i] == TrimLower(pieces[i])
  {
    seq(|pieces|, i requires 0 <= i < |pieces| => TrimLower(pieces[i]))
  }

  lemma NormalizeAllSnoc(pieces: seq<String>, i: nat)
    requires i < |pieces|
    ensures NormalizeAll(pieces[..i + 1]) == NormalizeAll(pieces[..i]) + [TrimLower(pieces[i])]
  {
  }

  /** Each kept key is the normalisation of some input piece, and is its own normalisation. */
  lemma FirstOccurrencesNormalized(pieces: seq<String>, i: nat)
    requires i < |FirstOccurrences(NormalizeAll(pieces))|
    ensures TrimLower(FirstOccurrences(NormalizeAll(pieces))[i]) == FirstOccurrences(NormalizeAll(pieces))[i]
    ensures exists j :: 0 <= j < |pieces| && TrimLower(pieces[j]) == FirstOccurrences(NormalizeAll(pieces))[i]
  {
    var x := FirstOccurrences(NormalizeAll(pieces))[i];
    var keys := NormalizeAll(pieces);
    var j :| 0 <= j < |keys| && keys[j] == x;
    assert x == TrimLower(pieces[j]);
    TrimLowerIdempotent(pieces[j]);
  }

  /** Distinct non-empty keys are each their own first occurrence. */
  lemma {:induction false} FirstOccurrencesOfDistinct(keys: seq<String>)
    requires Distinct(keys) && forall i :: 0 <= i < |keys| ==> keys[i] != []
    ensures FirstOccurrences(keys) == keys
    decreases |keys|
  {
    if keys != [] {
      var n := |keys|;
      var init := keys[..n - 1];
      assert init + [keys[n - 1]] == keys;
      assert Distinct(init) by {
        forall i, j | 0 <= i < j < |init| ensures init[i] != init[j] {
          assert init[i] == keys[i] && init[j] == keys[j];
        }
      }
      FirstOccurrencesOfDistinct(init);
      assert keys[n - 1] !in init by {
        forall i | 0 <= i < |init| ensures init[i] != keys[n - 1] {
          assert init[i] == keys[i];
        }
      }
      FirstOccurrencesSnoc(init, keys[n - 1]);
    }
  }
}
