/**
 * The row object that travels from a reader to a writer through a channel
 * (DefaultRecord). A record is a growable list of nullable column slots with
 * two running counters, the byte size of its columns and an estimate of its
 * memory footprint, which are kept up to date on every change.
 */
module Record {
  import opened Framework

  /** Fixed memory overhead of a record object (ClassSize.DefaultRecordHead, value not fixed here). */
  const DefaultRecordHead: nat
  /** Fixed memory overhead of one column object (ClassSize.ColumnHead, value not fixed here). */
  const ColumnHead: nat

  /** A cell value. Its content is opaque; only its byte size matters to the record. */
  datatype Column = Column(value: string, byteSize: nat)

  /** A column slot of the list: Java's `null` or a column. */
  datatype Slot = Null | Cell(column: Column)

  /** The two counters a record keeps. */
  datatype Measure = ByteSize | MemorySize

  /** What one slot contributes to a counter: nothing for `null`; its byte size,
      plus the column header for the memory estimate. */
  function Weight(m: Measure, s: Slot): nat
  {
    match s
    case Null => 0
    case Cell(c) => if m == ByteSize then c.byteSize else ColumnHead + c.byteSize
  }

  /** From-scratch recomputation of a counter over a list of slots. */
  function Total(m: Measure, cols: seq<Slot>): nat
  {
    if cols == [] then 0 else Weight(m, cols[0]) + Total(m, cols[1..])
  }

  /** Number of non-null slots. */
  function NonNullCount(cols: seq<Slot>): nat
  {
    if cols == [] then 0 else (if cols[0].Null? then 0 else 1) + NonNullCount(cols[1..])
  }

  /** `k` null placeholders. */
  function Nulls(k: nat): (r: seq<Slot>)
    ensures |r| == k && forall j :: 0 <= j < k ==> r[j] == Null
  {
    seq(k, _ => Null)
  }

  /** The list padded with nulls to at least `n` slots. */
  function Grown(cols: seq<Slot>, n: int): seq<Slot>
  {
    if n <= |cols| then cols else cols + Nulls(n - |cols|)
  }

  /** Slot `i`, or `null` when `i` is out of range (what getColumn answers). */
  function SlotAt(cols: seq<Slot>, i: int): Slot
  {
    if 0 <= i < |cols| then cols[i] else Null
  }

  /** The list after setColumn(i, s) with `i >= 0`: padded to `i + 1` slots, slot `i` replaced. */
  function SetSlot(cols: seq<Slot>, i: nat, s: Slot): (r: seq<Slot>)
    ensures |r| == if i < |cols| then |cols| else i + 1
    ensures r[i] == s
    ensures forall j :: 0 <= j < |r| && j != i ==> r[j] == SlotAt(cols, j)
  {
    Grown(cols, i + 1)[i := s]
  }

  lemma {:induction false} TotalAppend(m: Measure, cols: seq<Slot>, s: Slot)
    ensures Total(m, cols + [s]) == Total(m, cols) + Weight(m, s)
  {
    if cols == [] {
      assert [s][1..] == [];
    } else {
      assert (cols + [s])[1..] == cols[1..] + [s];
      TotalAppend(m, cols[1..], s);
    }
  }

  /** Null placeholders contribute nothing to either counter. */
  lemma {:induction false} TotalNulls(m: Measure, cols: seq<Slot>, k: nat)
    ensures Total(m, cols + Nulls(k)) == Total(m, cols)
  {
    if k == 0 {
      assert cols + Nulls(0) == cols;
    } else {
      assert cols + Nulls(k) == (cols + Nulls(k - 1)) + [Null];
      TotalAppend(m, cols + Nulls(k - 1), Null);
      TotalNulls(m, cols, k - 1);
    }
  }

  /** Replacing one slot changes a counter by the new slot's weight minus the old one's. */
  lemma {:induction false} TotalUpdate(m: Measure, cols: seq<Slot>, i: nat, s: Slot)
    requires i < |cols|
    ensures Total(m, cols[i := s]) == Total(m, cols) - Weight(m, cols[i]) + Weight(m, s)
  {
    if i == 0 {
      assert cols[0 := s][1..] == cols[1..];
    } else {
      assert cols[i := s][1..] == cols[1..][i - 1 := s];
      TotalUpdate(m, cols[1..], i - 1, s);
    }
  }

  /** setColumn subtracts what the slot held (nothing if it was null or new) and adds the
      new column, so no contribution is ever counted twice. */
  lemma SetSlotTotal(m: Measure, cols: seq<Slot>, i: nat, s: Slot)
    ensures Total(m, SetSlot(cols, i, s)) == Total(m, cols) - Weight(m, SlotAt(cols, i)) + Weight(m, s)
  {
    if i >= |cols| {
      TotalNulls(m, cols, i + 1 - |cols|);
    }
    TotalUpdate(m, Grown(cols, i + 1), i, s);
  }

  /** The memory estimate is one column header per non-null slot plus the byte size. */
  lemma {:induction false} MemoryDecomposes(cols: seq<Slot>)
    ensures Total(MemorySize, cols) == ColumnHead * NonNullCount(cols) + Total(ByteSize, cols)
  {
    if cols != [] {
      MemoryDecomposes(cols[1..]);
    }
  }

  class DefaultRecord {
    var columns: seq<Slot>
    var byteSize: int
    var memorySize: int

    /** Both counters agree with a from-scratch recomputation over the current slots. */
    ghost predicate Valid()
      reads this
    {
      && byteSize == Total(ByteSize, columns)
      && memorySize == DefaultRecordHead + Total(MemorySize, columns)
    }

    constructor ()
      ensures Valid()
      ensures columns == [] && byteSize == 0 && memorySize == DefaultRecordHead
    {
      columns := [];
      byteSize := 0;
      memorySize := DefaultRecordHead;
    }

    method AddColumn(column: Slot)
      requires Valid()
      modifies this
      ensures Valid()
      ensures columns == old(columns) + [column]
      ensures byteSize == old(byteSize) + Weight(ByteSize, column)
      ensures memorySize == old(memorySize) + Weight(MemorySize, column)
    {
      TotalAppend(ByteSize, columns, column);
      TotalAppend(MemorySize, columns, column);
      columns := columns + [column];
      IncrByteSize(column);
    }

    method GetColumn(i: int) returns (column: Slot)
      ensures 0 <= i < |columns| ==> column == columns[i]
      ensures (i < 0 || i >= |columns|) ==> column == Null
    {
      if i < 0 || i >= |columns| {
        return Null;
      }
      column := columns[i];
    }

    /** A negative index is rejected with ARGUMENT_ERROR and nothing changes; otherwise the
        list grows with nulls up to `i` and slot `i` is replaced. */
    method SetColumn(i: int, column: Slot) returns (result: Outcome)
      requires Valid()
      modifies this
      ensures Valid()
      ensures i < 0 ==> result == Fail(ArgumentError) && columns == old(columns)
                        && byteSize == old(byteSize) && memorySize == old(memorySize)
      ensures i >= 0 ==> result == Done && columns == SetSlot(old(columns), i, column)
      ensures i >= 0 ==> byteSize == old(byteSize) - Weight(ByteSize, SlotAt(old(columns), i))
                                     + Weight(ByteSize, column)
      ensures i >= 0 ==> memorySize == old(memorySize) - Weight(MemorySize, SlotAt(old(columns), i))
                                       + Weight(MemorySize, column)
    {
      if i < 0 {
        return Fail(ArgumentError);
      }
      ghost var before := columns;
      if i >= |columns| {
        ExpandCapacity(i + 1);
      }
      var previous := GetColumn(i);
      DecrByteSize(previous);
      columns := columns[i := column];
      var current := GetColumn(i);
      IncrByteSize(current);
      SetSlotTotal(ByteSize, before, i, column);
      SetSlotTotal(MemorySize, before, i, column);
      result := Done;
    }

    method GetColumnNumber() returns (n: nat)
      ensures n == |columns|
    {
      n := |columns|;
    }

    method GetByteSize() returns (size: int)
      requires Valid()
      ensures size == Total(ByteSize, columns)
    {
      size := byteSize;
    }

    method GetMemorySize() returns (size: int)
      requires Valid()
      ensures size == DefaultRecordHead + ColumnHead * NonNullCount(columns) + Total(ByteSize, columns)
    {
      MemoryDecomposes(columns);
      size := memorySize;
    }

    method DecrByteSize(column: Slot)
      modifies this
      ensures columns == old(columns)
      ensures byteSize == old(byteSize) - Weight(ByteSize, column)
      ensures memorySize == old(memorySize) - Weight(MemorySize, column)
    {
      if column.Null? {
        return;
      }
      byteSize := byteSize - column.column.byteSize;
      memorySize := memorySize - ColumnHead - column.column.byteSize;
    }

    method IncrByteSize(column: Slot)
      modifies this
      ensures columns == old(columns)
      ensures byteSize == old(byteSize) + Weight(ByteSize, column)
      ensures memorySize == old(memorySize) + Weight(MemorySize, column)
    {
      if column.Null? {
        return;
      }
      byteSize := byteSize + column.column.byteSize;
      memorySize := memorySize + ColumnHead + column.column.byteSize;
    }

    /** Appends nulls until the list holds `totalSize` slots; the counters do not move. */
    method ExpandCapacity(totalSize: int)
      requires Valid()
      modifies this
      ensures Valid()
      ensures columns == Grown(old(columns), totalSize)
      ensures byteSize == old(byteSize) && memorySize == old(memorySize)
    {
      if totalSize <= 0 {
        return;
      }
      var needToExpand := totalSize - |columns|;
      while needToExpand > 0
        invariant |old(columns)| <= |columns|
        invariant columns == old(columns) + Nulls(|columns| - |old(columns)|)
        invariant needToExpand > 0 ==> |columns| + needToExpand == totalSize
        invariant needToExpand <= 0 ==> columns == Grown(old(columns), totalSize)
        invariant byteSize == old(byteSize) && memorySize == old(memorySize)
      {
        columns := columns + [Null];
        needToExpand := needToExpand - 1;
      }
      TotalNulls(ByteSize, old(columns), |columns| - |old(columns)|);
      TotalNulls(MemorySize, old(columns), |columns| - |old(columns)|);
    }
  }
}
