/** `OutputTrack.chunk_split`: the frames of a decoded buffer are cut into
    `max(1, floor(len / size))` consecutive pieces the way `numpy.array_split` cuts
    into a given number of sections. */
module Chunking {

  import opened Common

  /** `len(data) / size` with `size == 0` raises `ZeroDivisionError`. */
  datatype SplitError = ZeroDivision

  function Min(a: int, b: int): int
  {
    if a < b then a else b
  }

  /** The section count `chunk_split` passes on: the quotient `len / size`, raised to 1
      when it is below 1 and truncated to an integer by `array_split`. A negative `size`
      makes the quotient negative, so it also asks for one section. */
  function SectionCount(length: nat, size: int): (n: nat)
    requires size != 0
    ensures n >= 1
    ensures size < 0 ==> n == 1
    ensures size > 0 ==> n * size <= length || (n == 1 && length < size)
    ensures size > 0 && length >= size ==> length < (n + 1) * size
  {
    if size > 0 && length >= size then length / size else 1
  }

  /** The length of section `i` of `n` in `array_split`: the quotient, plus one for
      the first `length % n` sections. */
  function SectionSize(length: nat, n: nat, i: nat): nat
    requires n >= 1
  {
    length / n + (if i < length % n then 1 else 0)
  }

  /** The offset at which section `i` starts: the running sum of the sizes before it,
      as `array_split` computes its division points with `cumsum`. */
  function Start(length: nat, n: nat, i: nat): nat
    requires n >= 1
  {
    if i == 0 then 0 else Start(length, n, i - 1) + SectionSize(length, n, i - 1)
  }

  /** The running sum in closed form. */
  lemma {:induction false} StartClosedForm(length: nat, n: nat, i: nat)
    requires n >= 1
    ensures Start(length, n, i) == i * (length / n) + Min(i, length % n)
  {
    if i > 0 {
      StartClosedForm(length, n, i - 1);
      assert i * (length / n) == (i - 1) * (length / n) + length / n;
    }
  }

  /** Every section ends inside the data, and the last ends exactly at its end. */
  lemma StartBounded(length: nat, n: nat, i: nat)
    requires n >= 1 && i <= n
    ensures Start(length, n, i) <= length
    ensures i == n ==> Start(length, n, i) == length
  {
    var q, e := length / n, length % n;
    StartClosedForm(length, n, i);
    MulMonotone(i, n, q);
    assert length == n * q + e;
  }

  lemma MulCancel(n: nat, a: int, b: int)
    requires n > 0 && n * a < n * b
    ensures a < b
  {
  }

  lemma MulMonotone(a: nat, b: nat, c: nat)
    requires a <= b
    ensures a * c <= b * c
  {
  }

  /** Section `i` of `numpy.array_split(data, n)`. */
  function Section<T>(data: seq<T>, n: nat, i: nat): (piece: seq<T>)
    requires i < n
    ensures |piece| == SectionSize(|data|, n, i)
  {
    StartBounded(|data|, n, i + 1);
    data[Start(|data|, n, i)..Start(|data|, n, i + 1)]
  }

  /** `numpy.array_split(data, n)` along the first axis. */
  function ArraySplit<T>(data: seq<T>, n: nat): (pieces: seq<seq<T>>)
    requires n >= 1
    ensures |pieces| == n
    ensures forall i :: 0 <= i < n ==> |pieces[i]| == SectionSize(|data|, n, i)
  {
    seq(n, (i: int) requires 0 <= i < n => Section(data, n, i))
  }

  /** `chunk_split(data, size)`. */
  function ChunkSplit<T>(data: seq<T>, size: int): (r: Result<seq<seq<T>>, SplitError>)
    ensures r.Failure? <==> size == 0
    ensures r.Success? ==> |r.value| == SectionCount(|data|, size)
    ensures r.Success? ==> Flatten(r.value) == data
  {
    if size == 0 then Failure(ZeroDivision)
    else
      var pieces := ArraySplit(data, SectionCount(|data|, size));
      ArraySplitConcat(data, SectionCount(|data|, size));
      Success(pieces)
  }

  /** The sections of `array_split` put back together give the input. */
  lemma ArraySplitConcat<T>(data: seq<T>, n: nat)
    requires n >= 1
    ensures Flatten(ArraySplit(data, n)) == data
  {
    var pieces := ArraySplit(data, n);
    FlattenPrefix(data, n, n);
    assert pieces[..n] == pieces;
    StartBounded(|data|, n, n);
  }

  /** The first `k` sections put back together give the input up to where section
      `k` starts. */
  lemma {:induction false} FlattenPrefix<T>(data: seq<T>, n: nat, k: nat)
    requires 1 <= n && k <= n
    ensures Start(|data|, n, k) <= |data|
    ensures Flatten(ArraySplit(data, n)[..k]) == data[..Start(|data|, n, k)]
  {
    var pieces := ArraySplit(data, n);
    if k == 0 {
      assert pieces[..0] == [];
    } else {
      FlattenPrefix(data, n, k - 1);
      StartBounded(|data|, n, k);
      FlattenStep(data, pieces, k, Start(|data|, n, k - 1), Start(|data|, n, k));
    }
  }

  /** Appending the slice `data[a..b]` to pieces that make up `data[..a]`. */
  lemma FlattenStep<T>(data: seq<T>, pieces: seq<seq<T>>, k: nat, a: nat, b: nat)
    requires 0 < k <= |pieces| && a <= b <= |data|
    requires Flatten(pieces[..k - 1]) == data[..a]
    requires pieces[k - 1] == data[a..b]
    ensures Flatten(pieces[..k]) == data[..b]
  {
    assert pieces[..k][..k - 1] == pieces[..k - 1];
    assert data[..a] + data[a..b] == data[..b];
  }

  /** The piece lengths differ by at most one and never grow along the list. */
  lemma ArraySplitBalanced<T>(data: seq<T>, n: nat)
    requires n >= 1
    ensures forall i, j :: 0 <= i < n && 0 <= j < n ==>
      |ArraySplit(data, n)[i]| <= |ArraySplit(data, n)[j]| + 1
    ensures forall i, j :: 0 <= i <= j < n ==>
      |ArraySplit(data, n)[i]| >= |ArraySplit(data, n)[j]|
  {
  }

  /** The pieces of `chunk_split` differ in length by at most one frame, and the
      longer ones come first. */
  lemma ChunkSplitBalanced<T>(data: seq<T>, size: int)
    requires size != 0
    ensures ChunkSplit(data, size).Success?
    ensures var pieces := ChunkSplit(data, size).value;
      && (forall i, j :: 0 <= i < |pieces| && 0 <= j < |pieces| ==> |pieces[i]| <= |pieces[j]| + 1)
      && (forall i, j :: 0 <= i <= j < |pieces| ==> |pieces[i]| >= |pieces[j]|)
  {
    ArraySplitBalanced(data, SectionCount(|data|, size));
  }

  /** A positive `size` gives `max(1, floor(len / size))` pieces, and when the data
      holds at least one full chunk every piece holds at least `size` frames. */
  lemma {:induction false} ChunkSplitMinimum<T>(data: seq<T>, size: int)
    requires size > 0
    ensures ChunkSplit(data, size).Success?
    ensures var pieces := ChunkSplit(data, size).value;
      && |pieces| == (if |data| / size > 1 then |data| / size else 1)
      && (size <= |data| ==> forall i :: 0 <= i < |pieces| ==> |pieces[i]| >= size)
  {
    var n := SectionCount(|data|, size);
    var pieces := ChunkSplit(data, size).value;
    assert pieces == ArraySplit(data, n);
    if size <= |data| {
      AtLeastSize(|data|, size);
      assert |data| / n >= size;
      forall i | 0 <= i < |pieces|
        ensures |pieces[i]| >= size
      {
        assert |pieces[i]| == SectionSize(|data|, n, i);
      }
    }
  }

  /** With `n = floor(length / size)` sections, each holds at least `size` frames. */
  lemma AtLeastSize(length: nat, size: int)
    requires 0 < size <= length
    ensures length / (length / size) >= size
  {
    var n := length / size;
    var q := length / n;
    assert n * size <= length;
    assert length == n * q + length % n;
    assert n * size < n * (q + 1);
    MulCancel(n, size, q + 1);
  }
}
