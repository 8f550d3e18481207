/** How `get_elevation_data` cuts its location list into requests: the
    slices `locations[i : i + batch_size]` for `i` in
    `range(0, total_points, batch_size)`, each sent as one `"|"`-joined
    string. */
module Batching {
  import opened Wrappers
  import opened Lattice

  /** Locations per request (`batch_size`). */
  const BatchSize: nat := 100

  /** Python's `s[lo:hi]` for non-negative bounds: clamped to the sequence
      and empty when `lo >= hi`. */
  function Slice<T>(s: seq<T>, lo: nat, hi: nat): (r: seq<T>)
    ensures lo < hi && lo < |s| ==> r == s[lo .. Min(hi, |s|)]
    ensures lo >= hi || lo >= |s| ==> r == []
  {
    if lo >= hi || lo >= |s| then [] else s[lo .. Min(hi, |s|)]
  }

  /** How many values `range(0, total, size)` yields. */
  function NumBatches(total: nat, size: nat): nat
    requires size > 0
  {
    (total + size - 1) / size
  }

  /** The k-th value of the range, `k * size`, is below `total` exactly
      when k is below the count. */
  lemma NumBatchesBound(total: nat, size: nat, k: nat)
    requires size > 0
    ensures k < NumBatches(total, size) <==> k * size < total
  {
    var q := NumBatches(total, size);
    assert total + size - 1 == q * size + (total + size - 1) % size;
    if k < q {
      MulMonotone(k + 1, q, size);
      assert (k + 1) * size == k * size + size;
    } else {
      MulMonotone(q, k, size);
    }
  }

  /** The count equals the progress denominator
      `(total_points - 1) // batch_size + 1` of the source, for every
      `total` including 0 (Dafny's `/` floors like Python's `//` for a
      positive divisor). */
  lemma BatchCount(total: nat, size: nat)
    requires size > 0
    ensures NumBatches(total, size) == (total - 1) / size + 1
  {
    var q, r := (total - 1) / size, (total - 1) % size;
    assert total - 1 == q * size + r;
    assert total + size - 1 == (q + 1) * size + r;
    DivModUnique(total + size - 1, size, q + 1, r);
  }

  /** The slices `s[i : i + size]` for `i` in `range(0, |s|, size)`. */
  function Batches<T>(s: seq<T>, size: nat): (bs: seq<seq<T>>)
    requires size > 0
    ensures |bs| == NumBatches(|s|, size)
  {
    seq(NumBatches(|s|, size), k requires 0 <= k < NumBatches(|s|, size) => Slice(s, k * size, k * size + size))
  }

  /** Batch k is the slice starting at `k * size`. */
  lemma BatchAt<T>(s: seq<T>, size: nat, k: nat)
    requires size > 0 && k < NumBatches(|s|, size)
    ensures Batches(s, size)[k] == Slice(s, k * size, k * size + size)
  {
  }

  /** Batch k starts at `k * size`, is the next run of at most `size`
      locations, and is never empty. */
  lemma BatchShape<T>(s: seq<T>, size: nat, k: nat)
    requires size > 0 && k < NumBatches(|s|, size)
    ensures k * size < |s|
    ensures Batches(s, size)[k] == s[k * size .. Min(k * size + size, |s|)]
    ensures 0 < |Batches(s, size)[k]| <= size
  {
    NumBatchesBound(|s|, size, k);
  }

  /** The first k batches, concatenated, are the first
      `min(k * size, |s|)` locations. */
  lemma {:induction false} BatchesPrefix<T>(s: seq<T>, size: nat, k: nat)
    requires size > 0 && k <= NumBatches(|s|, size)
    ensures Flatten(Batches(s, size)[..k]) == s[..Min(k * size, |s|)]
  {
    if k > 0 {
      var bs := Batches(s, size);
      FlattenSnoc(bs, k);
      BatchesPrefix(s, size, k - 1);
      BatchShape(s, size, k - 1);
      NextStart(k - 1, size);
      PrefixConcat(s, (k - 1) * size, Min(k * size, |s|));
    }
  }

  lemma NextStart(k: nat, size: nat)
    ensures 0 <= k * size && k * size + size == (k + 1) * size
  {
  }

  lemma PrefixConcat<T>(s: seq<T>, lo: int, hi: int)
    requires 0 <= lo <= hi <= |s|
    ensures s[..lo] + s[lo .. hi] == s[..hi]
  {
  }

  /** Concatenating the batches in order gives back the location list:
      nothing is lost, repeated or reordered. */
  lemma BatchesConcat<T>(s: seq<T>, size: nat)
    requires size > 0
    ensures Flatten(Batches(s, size)) == s
  {
    var n := NumBatches(|s|, size);
    BatchesPrefix(s, size, n);
    NumBatchesBound(|s|, size, n);
    assert Batches(s, size)[..n] == Batches(s, size);
  }

  // ---------------------------------------------------------------------
  // The `locations` parameter of one request

  /** `sep.join(parts)`. */
  function Join(parts: seq<string>, sep: char): string
    decreases |parts|
  {
    if |parts| == 0 then ""
    else if |parts| == 1 then parts[0]
    else parts[0] + [sep] + Join(parts[1..], sep)
  }

  /** `s.split(sep)`: the pieces between separators, always at least one. */
  function Split(s: string, sep: char): (parts: seq<string>)
    ensures |parts| >= 1
    decreases |s|
  {
    if s == [] then [[]]
    else
      var rest := Split(s[1..], sep);
      if s[0] == sep then [[]] + rest else [[s[0]] + rest[0]] + rest[1..]
  }

  lemma {:induction false} SplitPlain(a: string, sep: char)
    requires sep !in a
    ensures Split(a, sep) == [a]
  {
    if a != [] {
      SplitPlain(a[1..], sep);
      assert [a[0]] + a[1..] == a;
    }
  }

  lemma {:induction false} SplitAfter(a: string, rest: string, sep: char)
    requires sep !in a
    ensures Split(a + [sep] + rest, sep) == [a] + Split(rest, sep)
  {
    var s := a + [sep] + rest;
    if a == [] {
      assert s[1..] == rest;
    } else {
      assert s[1..] == a[1..] + [sep] + rest;
      SplitAfter(a[1..], rest, sep);
      assert [a[0]] + a[1..] == a;
    }
  }

  /** Joining pieces that hold no separator and splitting the result again
      gives the pieces back in order: the service sees exactly the batch's
      locations. */
  lemma {:induction false} SplitJoin(parts: seq<string>, sep: char)
    requires |parts| >= 1
    requires forall k :: 0 <= k < |parts| ==> sep !in parts[k]
    ensures Split(Join(parts, sep), sep) == parts
    decreases |parts|
  {
    if |parts| == 1 {
      SplitPlain(parts[0], sep);
    } else {
      SplitAfter(parts[0], Join(parts[1..], sep), sep);
      SplitJoin(parts[1..], sep);
      assert [parts[0]] + parts[1..] == parts;
    }
  }
}
