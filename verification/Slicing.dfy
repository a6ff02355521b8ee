/** Byte strings and the fixed-width slicing that both the sender (64 KB) and the hash worker (1 MB) apply to a file. */
module Slicing {
  type byte = b: int | 0 <= b < 256
  type Bytes = seq<byte>

  function Min(a: int, b: int): int {
    if a < b then a else b
  }

  function Concat(parts: seq<Bytes>): Bytes {
    if parts == [] then [] else parts[0] + Concat(parts[1..])
  }

  lemma {:induction false} ConcatSnoc(parts: seq<Bytes>, last: Bytes)
    ensures Concat(parts + [last]) == Concat(parts) + last
  {
    if parts == [] {
      assert parts + [last] == [last] && Concat([last][1..]) == [];
    } else {
      ConcatSnoc(parts[1..], last);
      assert (parts + [last])[1..] == parts[1..] + [last];
      assert parts[0] + (Concat(parts[1..]) + last) == parts[0] + Concat(parts[1..]) + last;
    }
  }

  /** `Math.ceil(size / width)`. */
  function SliceCount(size: nat, width: nat): (n: nat)
    requires width > 0
  {
    (size + width - 1) / width
  }

  /** `file.slice(index * width, (index + 1) * width)`; the browser clamps both ends to the file. */
  function Slice(file: Bytes, index: nat, width: nat): Bytes
    requires width > 0
  {
    file[Min(index * width, |file|)..Min((index + 1) * width, |file|)]
  }

  /** An index names a slice exactly when that slice starts inside the file. */
  lemma SliceCountBounds(size: nat, width: nat, index: nat)
    requires width > 0
    ensures index < SliceCount(size, width) <==> index * width < size
  {
    var n := SliceCount(size, width);
    assert n * width <= size + width - 1 < n * width + width;
    if index < n {
      assert index * width <= (n - 1) * width;
    } else {
      assert index * width >= n * width;
    }
  }

  lemma SliceLength(file: Bytes, index: nat, width: nat)
    requires width > 0 && index < SliceCount(|file|, width)
    ensures 0 < |Slice(file, index, width)| <= width
    ensures index + 1 < SliceCount(|file|, width) ==> |Slice(file, index, width)| == width
  {
    SliceCountBounds(|file|, width, index);
    SliceCountBounds(|file|, width, index + 1);
    assert (index + 1) * width == index * width + width;
  }

  lemma NextCut(size: nat, width: nat, n: nat)
    requires width > 0 && n < SliceCount(size, width)
    ensures n * width < size && n * width <= (n + 1) * width
  {
    SliceCountBounds(size, width, n);
    assert (n + 1) * width == n * width + width;
  }

  /** The first slices, however many, are the file up to where the next slice starts. */
  lemma {:induction false} SlicesPrefix(file: Bytes, width: nat, parts: seq<Bytes>)
    requires width > 0 && |parts| <= SliceCount(|file|, width)
    requires forall i :: 0 <= i < |parts| ==> parts[i] == Slice(file, i, width)
    ensures Concat(parts) == file[..Min(|parts| * width, |file|)]
    decreases |parts|
  {
    if |parts| > 0 {
      var n := |parts| - 1;
      SlicesPrefix(file, width, parts[..n]);
      assert parts == parts[..n] + [parts[n]];
      ConcatSnoc(parts[..n], parts[n]);
      NextCut(|file|, width, n);
      var from, to := n * width, Min((n + 1) * width, |file|);
      assert file[..from] + file[from..to] == file[..to];
    } else {
      assert |parts| * width == 0;
    }
  }

  /** Slicing is lossless: all slices in order are the file again. */
  lemma SlicesRejoin(file: Bytes, width: nat, parts: seq<Bytes>)
    requires width > 0 && |parts| == SliceCount(|file|, width)
    requires forall i :: 0 <= i < |parts| ==> parts[i] == Slice(file, i, width)
    ensures Concat(parts) == file
  {
    SlicesPrefix(file, width, parts);
    SliceCountBounds(|file|, width, |parts|);
  }
}
