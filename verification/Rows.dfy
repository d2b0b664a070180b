/** In-place loops over the rows of a two-dimensional buffer, each specified by what it does to the rows. */
module Rows {
  import opened Execution

  ghost function RowOf<T>(a: array2<T>, i: nat): (row: seq<T>)
    reads a
    requires i < a.Length0
    ensures |row| == a.Length1 && forall j :: 0 <= j < a.Length1 ==> row[j] == a[i, j]
  {
    seq(a.Length1, j requires 0 <= j < a.Length1 reads a => a[i, j])
  }

  ghost function RowsOf<T>(a: array2<T>): (rows: seq<seq<T>>)
    reads a
    ensures |rows| == a.Length0 && forall i :: 0 <= i < a.Length0 ==> rows[i] == RowOf(a, i)
  {
    seq(a.Length0, i requires 0 <= i < a.Length0 reads a => RowOf(a, i))
  }

  lemma CellWritten<T>(before: seq<seq<T>>, a: array2<T>, i: nat, j: nat, v: T)
    requires i < a.Length0 && j < a.Length1
    requires |before| == a.Length0 && forall p :: 0 <= p < |before| ==> |before[p]| == a.Length1
    requires forall p, q :: 0 <= p < a.Length0 && 0 <= q < a.Length1 ==>
      a[p, q] == if p == i && q == j then v else before[p][q]
    ensures RowsOf(a) == before[i := before[i][j := v]]
  {
    forall p | 0 <= p < a.Length0 ensures RowOf(a, p) == before[i := before[i][j := v]][p] {}
  }

  /** The first frames of row `d` already carry `xs`; everything else is as before. */
  ghost predicate Written<T>(a: array2<T>, before: seq<seq<T>>, d: nat, xs: seq<T>, f: nat)
    reads a
    requires f <= |xs| && d < |before| && f <= |before[d]|
  {
    RowsOf(a) == before[d := Overwrite(before[d], xs[..f])]
  }

  /** Stores one frame. */
  method WriteFrame<T>(a: array2<T>, d: nat, f: nat, v: T, ghost before: seq<seq<T>>, ghost xs: seq<T>)
    requires d < a.Length0 && f < a.Length1 && |before| == a.Length0 && |before[d]| == a.Length1
    requires f < |xs| && xs[f] == v && Written(a, before, d, xs, f)
    modifies a
    ensures Written(a, before, d, xs, f + 1)
  {
    ghost var rows := RowsOf(a);
    a[d, f] := v;
    CellWritten(rows, a, d, f, v);
    assert Overwrite(before[d], xs[..f])[f := v] == Overwrite(before[d], xs[..f + 1]);
  }

  /** Frames not written yet still read as before. */
  lemma NotWrittenYet<T>(a: array2<T>, before: seq<seq<T>>, d: nat, xs: seq<T>, f: nat, row: nat)
    requires d < a.Length0 && f < a.Length1 && |before| == a.Length0 && |before[d]| == a.Length1
    requires f <= |xs| && Written(a, before, d, xs, f) && row < a.Length0
    ensures f < |before[row]| && a[row, f] == before[row][f]
  {
    assert RowsOf(a)[row] == RowOf(a, row);
    assert RowOf(a, row)[f] == a[row, f];
  }

  lemma NothingWritten<T>(a: array2<T>, d: nat, xs: seq<T>)
    requires d < a.Length0
    ensures Written(a, RowsOf(a), d, xs, 0)
  {
    assert Overwrite(RowsOf(a)[d], xs[..0]) == RowsOf(a)[d];
  }

  /** `memset` of the first frames of a row. */
  method FillRow<T>(a: array2<T>, d: nat, frames: nat, x: T)
    requires d < a.Length0 && frames <= a.Length1
    modifies a
    ensures RowsOf(a) == old(RowsOf(a))[d := Overwrite(old(RowsOf(a))[d], Repeat(x, frames))]
  {
    ghost var rows, xs := RowsOf(a), Repeat(x, frames);
    NothingWritten(a, d, xs);
    var f := 0;
    while f < frames
      invariant 0 <= f <= frames && Written(a, rows, d, xs, f)
    {
      WriteFrame(a, d, f, x, rows, xs);
      f := f + 1;
    }
    assert xs[..f] == xs;
  }

  /** `memcpy` of the first frames of one row over another. */
  method CopyRow<T>(a: array2<T>, s: nat, d: nat, frames: nat)
    requires s < a.Length0 && d < a.Length0 && frames <= a.Length1
    modifies a
    ensures RowsOf(a) == old(RowsOf(a))[d := Overwrite(old(RowsOf(a))[d], old(RowsOf(a))[s][..frames])]
  {
    ghost var rows := RowsOf(a);
    ghost var xs := rows[s][..frames];
    NothingWritten(a, d, xs);
    var f := 0;
    while f < frames
      invariant 0 <= f <= frames && Written(a, rows, d, xs, f)
    {
      NotWrittenYet(a, rows, d, xs, f, s);
      WriteFrame(a, d, f, a[s, f], rows, xs);
      f := f + 1;
    }
    assert xs[..f] == xs;
  }

  /** Combines one row into another, frame by frame. */
  method CombineRow<T>(a: array2<T>, s: nat, d: nat, frames: nat, f: (T, T) -> T)
    requires s < a.Length0 && d < a.Length0 && frames <= a.Length1
    modifies a
    ensures RowsOf(a)
      == old(RowsOf(a))[d := Overwrite(old(RowsOf(a))[d], Zip(f, old(RowsOf(a))[d], old(RowsOf(a))[s], frames))]
  {
    ghost var rows := RowsOf(a);
    ghost var xs := Zip(f, rows[d], rows[s], frames);
    NothingWritten(a, d, xs);
    var k := 0;
    while k < frames
      invariant 0 <= k <= frames && Written(a, rows, d, xs, k)
    {
      NotWrittenYet(a, rows, d, xs, k, s);
      NotWrittenYet(a, rows, d, xs, k, d);
      WriteFrame(a, d, k, f(a[d, k], a[s, k]), rows, xs);
      k := k + 1;
    }
    assert xs[..k] == xs;
  }

  // ----- delay lines

  /** A circular buffer read from its write position: oldest element first. */
  ghost function Rotate<T>(line: seq<T>, w: nat): (q: seq<T>)
    requires w <= |line|
    ensures |q| == |line|
  {
    line[w..] + line[..w]
  }

  lemma RotateStep<T>(line: seq<T>, w: nat, x: T)
    requires w < |line|
    ensures Rotate(line, w)[0] == line[w]
    ensures Rotate(line[w := x], if w + 1 < |line| then w + 1 else 0) == Rotate(line, w)[1..] + [x]
  {}

  /** Swaps one sample with the oldest of the line and advances the write position. */
  method ExchangeSample<T>(storage: array<T>, offset: nat, samples: nat, w: nat, x: T) returns (delayed: T, next: nat)
    requires offset + samples <= storage.Length && w < samples
    modifies storage
    ensures next < samples
    ensures delayed == Rotate(old(storage[offset..offset + samples]), w)[0]
    ensures Rotate(storage[offset..offset + samples], next)
      == Rotate(old(storage[offset..offset + samples]), w)[1..] + [x]
    ensures forall i :: 0 <= i < storage.Length && !(offset <= i < offset + samples) ==> storage[i] == old(storage[i])
  {
    ghost var line := storage[offset..offset + samples];
    RotateStep(line, w, x);
    delayed := storage[offset + w];
    storage[offset + w] := x;
    assert storage[offset..offset + samples] == line[w := x];
    next := if w + 1 < samples then w + 1 else 0;
  }

  ghost predicate LineHolds<T>(storage: array<T>, offset: nat, samples: nat, w: nat, q: seq<T>)
    reads storage
  {
    offset + samples <= storage.Length && w < samples && Rotate(storage[offset..offset + samples], w) == q
  }

  /** The delay loop: swaps each frame with the oldest sample of the line, in place. */
  method DelayRow<T>(a: array2<T>, d: nat, frames: nat, storage: array<T>, offset: nat, samples: nat,
    writePosition0: nat, ghost q: seq<T>)
    returns (writePosition: nat)
    requires d < a.Length0 && frames <= a.Length1
    requires LineHolds(storage, offset, samples, writePosition0, q)
    modifies a, storage
    ensures var stream := q + old(RowsOf(a))[d][..frames];
      && RowsOf(a) == old(RowsOf(a))[d := Overwrite(old(RowsOf(a))[d], stream[..frames])]
      && LineHolds(storage, offset, samples, writePosition, stream[frames..])
    ensures forall i :: 0 <= i < storage.Length && !(offset <= i < offset + samples) ==> storage[i] == old(storage[i])
  {
    ghost var rows := RowsOf(a);
    ghost var stream := q + rows[d][..frames];
    ghost var xs := stream[..frames];
    writePosition := writePosition0;
    NothingWritten(a, d, xs);
    assert stream[0..0 + samples] == q;
    var f := 0;
    while f < frames
      invariant 0 <= f <= frames
      invariant Written(a, rows, d, xs, f) == true
      invariant LineHolds(storage, offset, samples, writePosition, stream[f..f + samples]) == true
      invariant forall i :: 0 <= i < storage.Length && !(offset <= i < offset + samples) ==>
        storage[i] == old(storage[i])
    {
      NotWrittenYet(a, rows, d, xs, f, d);
      SlideStream(stream, f, samples, rows[d][f]);
      writePosition := DelayFrame(a, d, f, storage, offset, samples, writePosition, rows, xs, stream);
      f := f + 1;
    }
    assert xs[..f] == xs;
  }

  /** One frame: it takes the place of the oldest sample. */
  method DelayFrame<T>(a: array2<T>, d: nat, f: nat, storage: array<T>, offset: nat, samples: nat, writePosition0: nat,
                       ghost rows: seq<seq<T>>, ghost xs: seq<T>, ghost stream: seq<T>)
    returns (writePosition: nat)
    requires d < a.Length0 && f < a.Length1 && |rows| == a.Length0 && |rows[d]| == a.Length1
    requires f < |xs| && f + samples < |stream| && samples > 0 && xs[f] == stream[f] && stream[f + samples] == a[d, f]
    requires Written(a, rows, d, xs, f) == true
      && LineHolds(storage, offset, samples, writePosition0, stream[f..f + samples]) == true
    modifies a, storage
    ensures Written(a, rows, d, xs, f + 1) == true
    ensures LineHolds(storage, offset, samples, writePosition, stream[f + 1..f + 1 + samples]) == true
    ensures forall i :: 0 <= i < storage.Length && !(offset <= i < offset + samples) ==> storage[i] == old(storage[i])
  {
    SlideStream(stream, f, samples, a[d, f]);
    var delayed;
    delayed, writePosition := ExchangeSample(storage, offset, samples, writePosition0, a[d, f]);
    WriteFrame(a, d, f, delayed, rows, xs);
  }

  lemma SlideStream<T>(stream: seq<T>, f: nat, samples: nat, x: T)
    requires samples > 0 && f + samples < |stream| && stream[f + samples] == x
    ensures stream[f..f + samples][0] == stream[f]
    ensures stream[f..f + samples][1..] + [x] == stream[f + 1..f + 1 + samples]
  {}
}
