/**
 The bytes behind the protocol's rows: a request's raw tensor is sliced along its first
 dimension and copied into the batch tensor in place.
*/
module TensorBytes {
  import opened InferTypes
  import opened Multiples
  import opened RingGeometry
  import opened Words64

  datatype ElementType =
    | Float32 | Float64
    | Int8 | Int16 | Int32 | Int64
    | Uint8 | Uint16 | Uint32 | Uint64
    | Bool
    | Other(width: nat)

  /** Bytes of one element. */
  function Width(t: ElementType): (n: nat) {
    match t
    case Int8 => 1 case Uint8 => 1 case Bool => 1
    case Int16 => 2 case Uint16 => 2
    case Float32 => 4 case Int32 => 4 case Uint32 => 4
    case Float64 => 8 case Int64 => 8 case Uint64 => 8
    case Other(width) => width
  }

  /** The element types that copy_at_from_bytes accepts. Bool is not among them. */
  predicate Copyable(t: ElementType) {
    !t.Bool? && !t.Other?
  }

  /** Eight bits to a byte, by the type's name; the copy takes the ten numeric types, the output reader Bool too. */
  lemma ElementTypes(t: ElementType)
    ensures Copyable(t) <==> t in {Float32, Float64, Int8, Int16, Int32, Int64, Uint8, Uint16, Uint32, Uint64}
    ensures t in {Int8, Uint8, Bool} ==> Width(t) * 8 == 8
    ensures t in {Int16, Uint16} ==> Width(t) * 8 == 16
    ensures t in {Float32, Int32, Uint32} ==> Width(t) * 8 == 32
    ensures t in {Float64, Int64, Uint64} ==> Width(t) * 8 == 64
    ensures ValueAsByteSlice(t, [], 0, 0) == NoSuchType <==> !Copyable(t) && t != Bool
  {
  }

  function NumElements(dims: seq<nat>): (n: nat) {
    if dims == [] then 1 else dims[0] * NumElements(dims[1..])
  }

  /** A panic in the program is None. */
  function SliceDim0(shape: seq<int>, data: seq<Byte>, start: nat, end: nat): (r: Option<seq<Byte>>) {
    if shape == [] || start >= end || Wrap(shape[0]) == 0 then None
    else
      var perIndex: int := |data| / Wrap(shape[0]);
      SliceOrder(perIndex, start, end);
      if end * perIndex > |data| then None else Some(data[start * perIndex..end * perIndex])
  }

  lemma SliceOrder(n: int, start: nat, end: nat)
    requires start < end
    ensures n >= 0 ==> 0 <= start * n <= end * n
  {
    if n >= 0 {
      OffsetBound(end, start, n);
    }
  }

  /** Row i of a tensor of n-byte rows. */
  function RowAt(data: seq<Byte>, n: nat, i: nat): (row: seq<Byte>)
    requires (i + 1) * n <= |data|
    ensures |row| == n && forall k | 0 <= k < n :: 0 <= i * n + k < |data| && row[k] == data[i * n + k]
  {
    RowBounds(n, i);
    data[i * n..(i + 1) * n]
  }

  lemma RowBounds(n: nat, i: nat)
    ensures 0 <= i * n <= (i + 1) * n == i * n + n
  {
    Distribute(i + 1, i, n);
    AtLeastOneStep(i, n);
  }

  /** Rows of whole tensors are found inside the tensor. */
  lemma RowFits(n: nat, i: nat, count: nat)
    requires i < count
    ensures 0 <= i * n <= (i + 1) * n <= count * n
  {
    OffsetBound(count, i, n);
    RowBounds(n, i);
  }

  /** Any buffer: with n bytes to an index, rounded down, the slice is bytes [start * n, end * n); else it panics. */
  lemma SliceExactly(shape: seq<int>, data: seq<Byte>, n: nat, start: nat, end: nat)
    requires shape != [] && 0 < shape[0] < WORD && n * shape[0] <= |data| < (n + 1) * shape[0]
    ensures 0 <= start * n && (start < end ==> start * n <= end * n)
    ensures SliceDim0(shape, data, start, end)
         == if start < end && end * n <= |data| then Some(data[start * n..end * n]) else None
  {
    hide Wrap, SliceDim0;
    WrapFacts(shape[0]);
    Distribute(n + 1, n, shape[0]);
    QuotientIsUnique(shape[0], |data|, n, |data| - n * shape[0]);
    SliceIs(shape, data, n, start, end);
  }

  lemma SliceIs(shape: seq<int>, data: seq<Byte>, n: nat, start: nat, end: nat)
    requires shape != [] && Wrap(shape[0]) > 0 && |data| / Wrap(shape[0]) == n
    ensures 0 <= start * n && (start < end ==> start * n <= end * n)
    ensures SliceDim0(shape, data, start, end)
         == if start < end && end * n <= |data| then Some(data[start * n..end * n]) else None
  {
    hide Wrap;
    NotNegative(start, n);
    if start < end {
      SliceOrder(n, start, end);
    }
  }

  /** A request tensor of `rows` rows of n bytes is sliced exactly between rows. */
  lemma SliceIsRows(shape: seq<int>, data: seq<Byte>, rows: nat, n: nat, start: nat, end: nat)
    requires shape != [] && 0 < shape[0] == rows < WORD && |data| == rows * n && start < end <= rows
    ensures 0 <= start * n <= end * n <= |data|
    ensures SliceDim0(shape, data, start, end) == Some(data[start * n..end * n])
  {
    hide Width, Wrap, SliceDim0;
    WrapFacts(rows);
    QuotientIsUnique(rows, rows * n, n, 0);
    OffsetBound(end, start, n);
    if end < rows {
      OffsetBound(rows, end, n);
    }
    SliceWithin(shape, data, start, end, n);
  }

  lemma SliceWithin(shape: seq<int>, data: seq<Byte>, start: nat, end: nat, n: nat)
    requires shape != [] && Wrap(shape[0]) > 0 && start < end && |data| / Wrap(shape[0]) == n
    requires 0 <= start * n <= end * n <= |data|
    ensures SliceDim0(shape, data, start, end) == Some(data[start * n..end * n])
  {
    hide Wrap;
  }

  // ----- the batch tensor -----

  datatype CopyOutcome = Copied | UnsupportedType | OutOfBounds

  class BatchableTensor {
    const elementType: ElementType
    /** The dimensions of one row. */
    const rowShape: seq<nat>
    const batchSize: nat
    const bytes: array<Byte>

    ghost function RowBytes(): (n: nat) {
      NumElements(rowShape) * Width(elementType)
    }

    ghost predicate Valid() {
      bytes.Length == batchSize * RowBytes()
    }

    /** What slot i of the batch holds. */
    ghost function Slot(i: nat): (row: seq<Byte>)
      requires Valid() && i < batchSize
      reads bytes
    {
      RowFits(RowBytes(), i, batchSize);
      RowAt(bytes[..], RowBytes(), i)
    }

    /** Only the first dimension may be dynamic: it becomes the batch size. */
    constructor (t: ElementType, shape: seq<int>, size: nat)
      requires shape != [] && shape[0] == -1 && forall i | 0 < i < |shape| :: shape[i] >= 0
      ensures Valid() && fresh(bytes)
      ensures elementType == t && batchSize == size && rowShape == shape[1..]
    {
      var row: seq<nat> := shape[1..];
      elementType, rowShape, batchSize := t, row, size;
      NumElementsOfBatch(size, row);
      Associate(size, NumElements(row), Width(t));
      NotNegative(NumElements([size] + row), Width(t));
      bytes := new Byte[NumElements([size] + row) * Width(t)];
    }

    /** copy_at_from_bytes: whole elements, from the first byte of a slot on. */
    method CopyAtFromBytes(slot: nat, src: seq<Byte>) returns (outcome: CopyOutcome)
      modifies bytes
      ensures outcome == (
        if !Copyable(elementType) then UnsupportedType
        else if |src| % Width(elementType) != 0
                || slot * NumElements(rowShape) * Width(elementType) + |src| > bytes.Length
        then OutOfBounds
        else Copied)
      ensures outcome != Copied ==> bytes[..] == old(bytes[..])
      ensures outcome == Copied ==>
                var offset := slot * NumElements(rowShape) * Width(elementType);
                && 0 <= offset && offset + |src| <= bytes.Length
                && bytes[..] == old(bytes[..offset]) + src + old(bytes[offset + |src|..])
    {
      if !Copyable(elementType) {
        return UnsupportedType;
      }
      var tensorSize := NumElements(rowShape);
      var width := Width(elementType);
      var offset := slot * tensorSize;
      var elemCount := |src| / width;
      NotNegative(slot, tensorSize);
      NotNegative(offset, width);
      // the destination is a slice of elements, seen as bytes; both slices must have one length
      var first, last := offset * width, (offset + elemCount) * width;
      assert last == first + elemCount * width by {
        Distribute(offset + elemCount, offset, width);
      }
      assert |src| == elemCount * width + |src| % width;
      if last > bytes.Length || |src| != last - first {
        return OutOfBounds;
      }
      forall i | 0 <= i < |src| {
        bytes[first + i] := src[i];
      }
      return Copied;
    }
  }

  lemma NotNegative(x: nat, y: nat)
    ensures x * y >= 0
  {
  }

  lemma NumElementsOfBatch(size: nat, row: seq<nat>)
    ensures NumElements([size] + row) == size * NumElements(row)
  {
    assert ([size] + row)[1..] == row;
  }

  // ----- rows into slots -----

  lemma LeftOf(j: nat, slot: nat, n: nat)
    requires j < slot
    ensures (j + 1) * n <= slot * n
  {
    RowFits(n, j, slot);
  }

  lemma AddRows(a: nat, b: nat, n: nat)
    ensures (a + b) * n == a * n + b * n
  {
  }

  /** `after` is `before` with data[s..e] written at o. */
  ghost predicate Spliced(before: seq<Byte>, o: int, data: seq<Byte>, s: int, e: int, after: seq<Byte>) {
    && 0 <= s <= e <= |data| && 0 <= o && o + (e - s) <= |before|
    && after == before[..o] + data[s..e] + before[o + (e - s)..]
  }

  lemma SplicedAt(before: seq<Byte>, o: int, data: seq<Byte>, s: int, e: int, after: seq<Byte>, i: int)
    requires Spliced(before, o, data, s, e, after) && 0 <= i < |before|
    ensures |after| == |before|
    ensures after[i] == if o <= i < o + (e - s) then data[i - o + s] else before[i]
  {
    var written := data[s..e];
    if o <= i < o + (e - s) {
      assert after[i] == written[i - o];
    }
  }

  lemma SameStretch(a: seq<Byte>, x: int, y: int, b: seq<Byte>, u: int)
    requires 0 <= x <= y <= |a| && 0 <= u && u + (y - x) <= |b|
    requires forall i {:trigger a[i]} | x <= i < y :: a[i] == b[u + (i - x)]
    ensures a[x..y] == b[u..u + (y - x)]
  {
    var p, q := a[x..y], b[u..u + (y - x)];
    forall i | 0 <= i < |p| ensures p[i] == q[i] {
      assert p[i] == a[x + i] && q[i] == b[u + i];
    }
  }

  /** A stretch inside, left of, or right of the written one. */
  lemma SplicedStretch(before: seq<Byte>, o: int, data: seq<Byte>, s: int, e: int, after: seq<Byte>, x: int, y: int)
    requires Spliced(before, o, data, s, e, after) && 0 <= x <= y <= |before|
    ensures |after| == |before|
    ensures y <= o || o + (e - s) <= x ==> after[x..y] == before[x..y]
    ensures o <= x && y <= o + (e - s)
            ==> 0 <= x - o + s <= y - o + s <= |data| && after[x..y] == data[x - o + s..y - o + s]
  {
    SplicedLength(before, o, data, s, e, after);
    assert forall i {:trigger after[i]} | x <= i < y ::
        after[i] == if o <= i < o + (e - s) then data[i - o + s] else before[i] by {
      forall i {:trigger after[i]} | x <= i < y
        ensures after[i] == if o <= i < o + (e - s) then data[i - o + s] else before[i]
      {
        SplicedAt(before, o, data, s, e, after, i);
      }
    }
    hide Spliced;
    if y <= o || o + (e - s) <= x {
      SameStretch(after, x, y, before, x);
    }
    if o <= x && y <= o + (e - s) {
      SameStretch(after, x, y, data, x - o + s);
    }
  }

  /** Overwriting the bytes of some whole rows replaces those rows and leaves the others. */
  lemma RowsReplaced(before: seq<Byte>, data: seq<Byte>, n: nat, slots: nat, slot: nat, start: nat, end: nat,
                     after: seq<Byte>, j: nat)
    requires start < end && slot + (end - start) <= slots && j < slots
    requires |before| == slots * n && Spliced(before, slot * n, data, start * n, end * n, after)
    ensures |after| == |before| && (j + 1) * n <= slots * n
    ensures slot <= j < slot + (end - start) ==> (start + (j - slot) + 1) * n <= |data|
    ensures RowAt(after, n, j)
         == if slot <= j < slot + (end - start) then RowAt(data, n, start + (j - slot)) else RowAt(before, n, j)
  {
    hide Spliced, NumElements;
    SplicedLength(before, slot * n, data, start * n, end * n, after);
    RowPosition(n, slots, slot, start, end, j);
    SplicedStretch(before, slot * n, data, start * n, end * n, after, j * n, (j + 1) * n);
  }

  /** Where row j lies relative to the rows written at `slot`. */
  lemma RowPosition(n: nat, slots: nat, slot: nat, start: nat, end: nat, j: nat)
    requires start < end && slot + (end - start) <= slots && j < slots
    ensures 0 <= j * n <= (j + 1) * n <= slots * n
    ensures j < slot ==> (j + 1) * n <= slot * n
    ensures slot + (end - start) <= j ==> slot * n + (end * n - start * n) <= j * n
    ensures slot <= j < slot + (end - start) ==>
              && slot * n <= j * n && (j + 1) * n <= slot * n + (end * n - start * n)
              && (start + (j - slot)) * n == j * n - slot * n + start * n
              && (start + (j - slot) + 1) * n == (j + 1) * n - slot * n + start * n
              && (start + (j - slot) + 1) * n <= end * n
  {
    RowFits(n, j, slots);
    AddRows(slot, end - start, n);
    AddRows(start, end - start, n);
    if j < slot {
      LeftOf(j, slot, n);
    } else if j < slot + (end - start) {
      InsideRows(n, slot, start, end, j - slot);
    } else {
      AddRows(slot + (end - start), j - slot - (end - start), n);
      NotNegative(j - slot - (end - start), n);
    }
  }

  lemma InsideRows(n: nat, slot: nat, start: nat, end: nat, d: nat)
    requires start < end && d < end - start
    ensures (slot + d) * n == slot * n + d * n && (slot + d + 1) * n == slot * n + d * n + n
    ensures (start + d) * n == start * n + d * n && (start + d + 1) * n == start * n + d * n + n
    ensures d * n >= 0 && start * n + d * n + n <= end * n
  {
    AddRows(slot, d, n);
    AddRows(slot + d, 1, n);
    AddRows(start, d, n);
    AddRows(start + d, 1, n);
    NotNegative(d, n);
    RowFits(n, start + d, end);
  }

  lemma SplicedLength(before: seq<Byte>, o: int, data: seq<Byte>, s: int, e: int, after: seq<Byte>)
    requires Spliced(before, o, data, s, e, after)
    ensures |after| == |before| && 0 <= s <= e <= |data|
  {
  }

  // ----- all inputs of a request -----

  /** One input of a request: `rows` rows, in one raw buffer. */
  datatype RawTensor = RawTensor(shape: seq<int>, data: seq<Byte>)

  ghost predicate Carries(t: RawTensor, rows: nat, n: nat) {
    t.shape != [] && t.shape[0] == rows && |t.data| == rows * n
  }

  /** The input tensors of one batch id: separate buffers of one batch size. */
  ghost predicate IsBatch(tensors: seq<BatchableTensor>, size: nat) {
    && (forall i | 0 <= i < |tensors| :: tensors[i].Valid() && tensors[i].batchSize == size)
    && (forall i, j | 0 <= i < j < |tensors| :: tensors[i].bytes != tensors[j].bytes)
  }

  /** Rows [start, end) of the request in slots [slot, ..) of the tensor, and every other slot as before. */
  ghost predicate RowsWritten(t: BatchableTensor, before: seq<Byte>, raw: RawTensor, slot: nat, start: nat, end: nat)
    requires t.Valid() && |before| == t.bytes.Length && start <= end && end * t.RowBytes() <= |raw.data|
    reads t.bytes
  {
    forall j: nat {:trigger t.Slot(j)} | j < t.batchSize ::
      t.Slot(j) == if slot <= j < slot + (end - start) then RawRow(raw.data, t.RowBytes(), start + (j - slot), end)
                   else RawRow(before, t.RowBytes(), j, t.batchSize)
  }

  /** Row i of the first `count` rows. */
  ghost function RawRow(data: seq<Byte>, n: nat, i: nat, count: nat): (row: seq<Byte>)
    requires i < count && count * n <= |data|
  {
    RowFits(n, i, count);
    RowAt(data, n, i)
  }

  lemma CopyWritesRows(t: BatchableTensor, before: seq<Byte>, raw: RawTensor, rows: nat, slot: nat, start: nat,
                       end: nat)
    requires t.Valid() && Carries(raw, rows, t.RowBytes()) && start < end <= rows && slot + (end - start) <= t.batchSize
    requires |before| == t.bytes.Length
    requires Spliced(before, slot * t.RowBytes(), raw.data, start * t.RowBytes(), end * t.RowBytes(), t.bytes[..])
    ensures end * t.RowBytes() <= |raw.data|
    ensures RowsWritten(t, before, raw, slot, start, end)
  {
    hide Spliced, NumElements;
    var n := t.RowBytes();
    SplicedLength(before, slot * n, raw.data, start * n, end * n, t.bytes[..]);
    forall j: nat | j < t.batchSize
      ensures t.Slot(j) == if slot <= j < slot + (end - start) then RawRow(raw.data, n, start + (j - slot), end)
                           else RawRow(before, n, j, t.batchSize)
    {
      RowsReplaced(before, raw.data, n, t.batchSize, slot, start, end, t.bytes[..], j);
    }
  }

  /** The byte range of whole rows: whole elements, at the slot's offset, inside the tensor. */
  lemma RowsAreElements(dims: nat, width: nat, slots: nat, slot: nat, start: nat, end: nat)
    requires width > 0 && start < end && slot + (end - start) <= slots
    ensures var n := dims * width;
            && (end * n - start * n) % width == 0
            && slot * dims * width == slot * n >= 0
            && 0 <= start * n <= end * n
            && slot * n + (end * n - start * n) <= slots * n
  {
    var n := dims * width;
    Associate(slot, dims, width);
    Associate(end - start, dims, width);
    NotNegative(dims, width);
    AddRows(start, end - start, n);
    AddRows(slot, end - start, n);
    NotNegative(slot, n);
    NotNegative(start, n);
    NotNegative(end - start, n);
    NotNegative(end - start, dims);
    QuotientIsUnique(width, (end - start) * n, (end - start) * dims, 0);
    AddRows(slot + (end - start), slots - slot - (end - start), n);
    NotNegative(slots - slot - (end - start), n);
  }

  /** The raw buffer has the rows it should have, and the write stays inside both tensors. */
  ghost predicate Fitting(t: BatchableTensor, raw: RawTensor, rows: nat, slot: nat, start: nat, end: nat) {
    Carries(raw, rows, t.RowBytes()) && start < end <= rows < WORD && slot + (end - start) <= t.batchSize
  }

  /** What comes of slicing any raw buffer and copying the slice to a slot of any tensor. */
  ghost function CopyResult(t: BatchableTensor, raw: RawTensor, slot: nat, start: nat, end: nat): (r: CopyOutcome) {
    var slice := SliceDim0(raw.shape, raw.data, start, end);
    if slice.None? then OutOfBounds
    else if !Copyable(t.elementType) then UnsupportedType
    else if |slice.value| % Width(t.elementType) != 0
            || slot * NumElements(t.rowShape) * Width(t.elementType) + |slice.value| > t.bytes.Length then OutOfBounds
    else Copied
  }

  /** With fitting rows nothing is out of bounds, and the rows of a copyable type arrive. */
  lemma FittingIsCopied(t: BatchableTensor, raw: RawTensor, rows: nat, slot: nat, start: nat, end: nat)
    requires t.Valid() && Fitting(t, raw, rows, slot, start, end)
    ensures var n := t.RowBytes();
            && 0 <= start * n <= end * n <= |raw.data|
            && SliceDim0(raw.shape, raw.data, start, end) == Some(raw.data[start * n..end * n])
            && CopyResult(t, raw, slot, start, end) == (if Copyable(t.elementType) then Copied else UnsupportedType)
            && (Copyable(t.elementType) ==> slot * NumElements(t.rowShape) * Width(t.elementType) == slot * n)
  {
    hide NumElements, Wrap;
    SliceIsRows(raw.shape, raw.data, rows, t.RowBytes(), start, end);
    if Copyable(t.elementType) {
      RowsAreElements(NumElements(t.rowShape), Width(t.elementType), t.batchSize, slot, start, end);
    }
  }

  /** One input's slice, copied into its tensor; a slice or a range that does not fit is a panic. */
  method InsertOne(t: BatchableTensor, raw: RawTensor, slot: nat, start: nat, end: nat, ghost rows: nat)
    returns (outcome: CopyOutcome)
    requires t.Valid()
    modifies t.bytes
    ensures outcome == CopyResult(t, raw, slot, start, end)
    ensures outcome != Copied ==> t.bytes[..] == old(t.bytes[..])
    ensures Fitting(t, raw, rows, slot, start, end) ==>
              && start <= end && end * t.RowBytes() <= |raw.data|
              && (outcome == Copied <==> Copyable(t.elementType)) && outcome != OutOfBounds
              && (outcome == Copied ==> RowsWritten(t, old(t.bytes[..]), raw, slot, start, end))
  {
    hide NumElements, RowsWritten, Wrap, SliceDim0, Carries;
    ghost var before := t.bytes[..];
    if Fitting(t, raw, rows, slot, start, end) {
      FittingIsCopied(t, raw, rows, slot, start, end);
    }
    var slice := SliceDim0(raw.shape, raw.data, start, end);
    if slice.None? {
      return OutOfBounds;
    }
    outcome := t.CopyAtFromBytes(slot, slice.value);
    if outcome == Copied && Fitting(t, raw, rows, slot, start, end) {
      CopyWritesRows(t, before, raw, rows, slot, start, end);
    }
  }

  ghost function Buffers(tensors: seq<BatchableTensor>): (s: set<object>) {
    set i | 0 <= i < |tensors| :: tensors[i].bytes
  }

  ghost predicate AllCarry(tensors: seq<BatchableTensor>, data: seq<RawTensor>, rows: nat) {
    |tensors| <= |data| && forall i | 0 <= i < |tensors| :: Carries(data[i], rows, tensors[i].RowBytes())
  }

  // ----- as rows of the protocol -----

  /** Slot j of a batch over all inputs. */
  ghost function BatchRow(tensors: seq<BatchableTensor>, size: nat, j: nat): (row: Row)
    requires IsBatch(tensors, size) && j < size
    reads Buffers(tensors)
  {
    seq(|tensors|, i requires 0 <= i < |tensors| reads Buffers(tensors) => tensors[i].Slot(j))
  }

  /** Row k of a request over all inputs. */
  ghost function RequestRow(tensors: seq<BatchableTensor>, data: seq<RawTensor>, rows: nat, k: nat): (row: Row)
    requires AllCarry(tensors, data, rows) && k < rows
  {
    seq(|tensors|, i requires 0 <= i < |tensors| => RawRow(data[i].data, tensors[i].RowBytes(), k, rows))
  }

  /** A copy that gets through all inputs has put the request's rows where the protocol's copy step puts them. */
  twostate lemma CopiedRows(tensors: seq<BatchableTensor>, data: seq<RawTensor>, slot: nat, start: nat, end: nat,
                            size: nat, rows: nat, j: nat)
    requires IsBatch(tensors, size) && AllCarry(tensors, data, rows)
    requires start < end <= rows < WORD && slot + (end - start) <= size && j < size
    requires forall i | 0 <= i < |tensors| ::
               end * tensors[i].RowBytes() <= |data[i].data|
               && RowsWritten(tensors[i], old(tensors[i].bytes[..]), data[i], slot, start, end)
    ensures BatchRow(tensors, size, j)
         == if slot <= j < slot + (end - start) then RequestRow(tensors, data, rows, start + (j - slot))
            else old(BatchRow(tensors, size, j))
  {
    forall i | 0 <= i < |tensors|
      ensures tensors[i].Slot(j) == if slot <= j < slot + (end - start)
                                    then RawRow(data[i].data, tensors[i].RowBytes(), start + (j - slot), rows)
                                    else old(tensors[i].Slot(j))
    {
      assert RowsWritten(tensors[i], old(tensors[i].bytes[..]), data[i], slot, start, end);
    }
  }

  /** How the loop ends: at input `at` for a type that cannot be copied or for a panic. */
  datatype InsertOutcome = AllCopied | TypeNotCopyable(at: nat) | Panicked(at: nat)

  function StoppedAt(outcome: InsertOutcome, inputs: nat): (at: nat) {
    match outcome
    case AllCopied => inputs
    case TypeNotCopyable(at) => at
    case Panicked(at) => at
  }

  ghost predicate AllFitting(tensors: seq<BatchableTensor>, data: seq<RawTensor>, rows: nat, slot: nat, start: nat,
                             end: nat) {
    |tensors| <= |data| && forall i | 0 <= i < |tensors| :: Fitting(tensors[i], data[i], rows, slot, start, end)
  }

  /**
   The copy loop of insert_tensors_at: rows [start, end) of every input go to the slots
   from `slot` on. It stops at the first input whose element type cannot be copied, and
   panics at the first one that is missing or does not fit.
  */
  method InsertTensors(tensors: seq<BatchableTensor>, data: seq<RawTensor>, slot: nat, start: nat, end: nat, size: nat,
                       ghost rows: nat)
    returns (outcome: InsertOutcome)
    requires IsBatch(tensors, size)
    modifies Buffers(tensors)
    ensures var at := StoppedAt(outcome, |tensors|);
            && at <= |tensors|
            && (outcome.AllCopied? <==> at == |tensors|)
            && (forall i | 0 <= i < at :: i < |data| && CopyResult(tensors[i], data[i], slot, start, end) == Copied)
            && (at < |tensors| ==>
                  if at >= |data| then outcome.Panicked?
                  else
                    var r := CopyResult(tensors[at], data[at], slot, start, end);
                    r != Copied && (outcome.TypeNotCopyable? <==> r == UnsupportedType))
            && (forall i | at <= i < |tensors| :: tensors[i].bytes[..] == old(tensors[i].bytes[..]))
    ensures var at := StoppedAt(outcome, |tensors|);
            forall i | 0 <= i < at && i < |data| && Fitting(tensors[i], data[i], rows, slot, start, end) ::
              end * tensors[i].RowBytes() <= |data[i].data|
              && RowsWritten(tensors[i], old(tensors[i].bytes[..]), data[i], slot, start, end)
    ensures AllFitting(tensors, data, rows, slot, start, end) ==>
              && !outcome.Panicked?
              && (outcome.AllCopied? <==> forall i | 0 <= i < |tensors| :: Copyable(tensors[i].elementType))
  {
    hide RowsWritten, Fitting, CopyResult;
    var done := 0;
    while done < |tensors|
      invariant done <= |tensors|
      invariant forall i | 0 <= i < done :: i < |data| && CopyResult(tensors[i], data[i], slot, start, end) == Copied
      invariant forall i | 0 <= i < done && i < |data| && Fitting(tensors[i], data[i], rows, slot, start, end) ::
                  start <= end && end * tensors[i].RowBytes() <= |data[i].data|
                  && RowsWritten(tensors[i], old(tensors[i].bytes[..]), data[i], slot, start, end)
      invariant forall i | 0 <= i < done && i < |data| && Fitting(tensors[i], data[i], rows, slot, start, end) ::
                  Copyable(tensors[i].elementType)
      invariant forall i | done <= i < |tensors| :: tensors[i].bytes[..] == old(tensors[i].bytes[..])
    {
      if done >= |data| {
        return Panicked(done);
      }
      var one := InsertOne(tensors[done], data[done], slot, start, end, rows);
      if one == UnsupportedType {
        return TypeNotCopyable(done);
      }
      if one == OutOfBounds {
        return Panicked(done);
      }
      done := done + 1;
    }
    return AllCopied;
  }

  // ----- reading an output -----

  datatype OutputSlice = Slice(bytes: seq<Byte>) | NoSuchType | PastTheEnd

  /** value_as_byte_slice: elements [start, end) of an output, whatever its shape. Bool is accepted here. */
  function ValueAsByteSlice(t: ElementType, data: seq<Byte>, start: nat, end: nat): (r: OutputSlice) {
    if t.Other? then NoSuchType
    else if start > end || end * Width(t) > |data| then PastTheEnd
    else
      WidthOrder(start, end, Width(t));
      Slice(data[start * Width(t)..end * Width(t)])
  }

  /** Elements [start, end) are those bytes; a range that does not fit panics. */
  lemma OutputSliceExactly(t: ElementType, data: seq<Byte>, start: nat, end: nat)
    requires !t.Other?
    ensures var r := ValueAsByteSlice(t, data, start, end);
            && (r.Slice? <==> start <= end && end * Width(t) <= |data|)
            && (r.Slice? ==>
                  0 <= start * Width(t) <= end * Width(t) && r.bytes == data[start * Width(t)..end * Width(t)])
  {
    if start <= end {
      WidthOrder(start, end, Width(t));
    }
  }

  lemma WidthOrder(start: nat, end: nat, width: nat)
    requires start <= end
    ensures 0 <= start * width <= end * width
  {
    AddRows(start, end - start, width);
    NotNegative(start, width);
    NotNegative(end - start, width);
  }

  /**
   A reservation's slice of an output is that of its own batch rows exactly when the
   output has one element for each row.
  */
  lemma OutputSliceIsRowsExactly(t: ElementType, data: seq<Byte>, perRow: nat, slots: nat, start: nat, end: nat)
    requires !t.Other? && start < end <= slots && |data| == slots * (perRow * Width(t))
    ensures var n := perRow * Width(t);
            && 0 <= start * n <= end * n <= |data|
            && (ValueAsByteSlice(t, data, start, end) == Slice(data[start * n..end * n]) <==> perRow == 1)
  {
    var w, n := Width(t), perRow * Width(t);
    NotNegative(perRow, w);
    WidthOrder(start, end, n);
    WidthOrder(end, slots, n);
    WidthOrder(start, end, w);
    if ValueAsByteSlice(t, data, start, end) == Slice(data[start * n..end * n]) {
      AddRows(start, end - start, n);
      AddRows(start, end - start, w);
      assert |data[start * n..end * n]| == (end - start) * n;
      assert (end - start) * n == (end - start) * w;
      SameFactor(end - start, n, w);
      SameFactor(w, perRow, 1);
    }
  }

  lemma SameFactor(k: nat, x: nat, y: nat)
    requires k > 0 && (k * x == k * y || x * k == y * k)
    ensures x == y
  {
    Distribute(x, y, k);
    AtLeastOneStep(x - y, k);
    AtLeastOneStep(y - x, k);
  }
}
