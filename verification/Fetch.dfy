/**
  Fetching rows in bind mode: the buffers of a QueryHandle, how a truncated column is completed, what
  the result tuple then reads, and for how long the library writes into the right buffers.
 */
module Fetch {
  import opened Options

  type Byte = b: int | 0 <= b < 256
  type Bytes = seq<Byte>

  // A string or blob column, or one of a fixed-size type.
  datatype Kind = Dynamic | Fixed(size: nat)

  const BIND_BUFFER_MIN_SIZE: nat := 32

  // A pointer into a column's buffer. Resizing may move the buffer: pointers of an older
  // generation are dangling.
  datatype Pointer = Pointer(offset: nat, generation: nat)

  // MYSQL_BIND, as far as the fetch uses it.
  datatype Bind = Bind(buffer: Pointer, bufferLength: nat)

  // One column's share of the parallel vectors of a QueryHandle. registered: the library's own copy
  // of the bind, taken when the binds were registered.
  datatype Column = Column(kind: Kind, buffer: Bytes, generation: nat, bind: Bind, length: nat, isNull: bool,
                           registered: Option<Bind>)

  function Min(a: nat, b: nat): nat {
    if a < b then a else b
  }

  // vector::resize
  function Resized(buffer: Bytes, n: nat): (r: Bytes)
    ensures |r| == n && r[..Min(|buffer|, n)] == buffer[..Min(|buffer|, n)]
  {
    if n <= |buffer| then buffer[..n] else buffer + seq(n - |buffer|, _ => 0)
  }

  // The library copies bytes to offset at.
  function Written(buffer: Bytes, at: nat, bytes: Bytes): (r: Bytes)
    requires at + |bytes| <= |buffer|
    ensures |r| == |buffer|
  {
    buffer[..at] + bytes + buffer[at + |bytes|..]
  }

  predicate Valid(c: Column, p: Pointer) {
    p.generation == c.generation && p.offset <= |c.buffer|
  }

  // The bind points at the front of the current buffer and knows its size.
  predicate AtBase(c: Column) {
    c.bind.buffer == Pointer(0, c.generation)
    && (c.kind.Dynamic? ==> c.bind.bufferLength == |c.buffer|)
    && (c.kind.Fixed? ==> |c.buffer| == c.kind.size)
  }

  // Between rows: no length exceeds its buffer, a stale one under a NULL included.
  predicate Ready(c: Column) {
    AtBase(c) && (c.kind.Dynamic? ==> c.length <= |c.buffer|)
  }

  // The library's copy of the bind is still good: it shows the current buffer, with its size.
  predicate Current(c: Column) {
    c.registered.Some? && c.registered.value.buffer == Pointer(0, c.generation)
    && (c.kind.Dynamic? ==> c.registered.value.bufferLength == |c.buffer|)
  }

  // ---------- what mysql_stmt_fetch leaves ----------

  predicate CellOk(c: Column, cell: Option<Bytes>) {
    cell.Some? && c.kind.Fixed? ==> |cell.value| == c.kind.size
  }

  // The library writes through its own copy of the bind. A NULL sets the flag and nothing else; a
  // value sets the flag, the length, and as many bytes as fit.
  function Fetched(c: Column, cell: Option<Bytes>): Column
    requires AtBase(c) && CellOk(c, cell) && (cell.Some? ==> Current(c))
  {
    match cell
    case None => c.(isNull := true)
    case Some(v) =>
      var n := if c.kind.Fixed? then c.kind.size else Min(c.registered.value.bufferLength, |v|);
      c.(isNull := false, length := |v|, buffer := Written(c.buffer, c.registered.value.buffer.offset, v[..n]))
  }

  // The hypothesis of the row: the first min(buffer size, real length) bytes have arrived.
  predicate Filled(c: Column, cell: Option<Bytes>) {
    AtBase(c) && c.isNull == cell.None?
    && (cell.None? && c.kind.Dynamic? ==> c.length <= |c.buffer|)
    && (cell.Some? ==>
          c.length == |cell.value|
          && c.buffer[..Min(|c.buffer|, c.length)] == cell.value[..Min(|c.buffer|, c.length)]
          && (c.kind.Fixed? ==> c.length == c.kind.size))
  }

  /** A fetch into a ready column fulfils the hypothesis, if the library's copy still shows the column
      or there is nothing to write. */
  lemma FetchFills(c: Column, cell: Option<Bytes>)
    requires Ready(c) && CellOk(c, cell) && (cell.Some? ==> Current(c))
    ensures Filled(Fetched(c, cell), cell) && (Current(Fetched(c, cell)) <==> Current(c))
  {
  }

  // ---------- the completion of a truncated column ----------

  predicate Truncated(c: Column) {
    c.kind.Dynamic? && c.length > |c.buffer|
  }

  // The buffer is resized and the bind moved behind the bytes already there.
  function Extended(c: Column): Column
    requires Truncated(c)
  {
    c.(buffer := Resized(c.buffer, c.length), generation := c.generation + 1,
       bind := Bind(Pointer(|c.buffer|, c.generation + 1), c.length))
  }

  // mysql_stmt_fetch_column from an offset: as many of the remaining bytes as the bind allows.
  function Rest(c: Column, value: Bytes, offset: nat): Bytes
    requires offset <= |value|
  {
    value[offset..offset + Min(c.bind.bufferLength, |value| - offset)]
  }

  // The column when its fetch_column succeeds.
  function Completed(c: Column, cell: Option<Bytes>): Column
    requires Filled(c, cell)
  {
    if !Truncated(c) then c
    else
      var e := Extended(c);
      e.(buffer := Written(e.buffer, e.bind.buffer.offset, Rest(e, cell.value, |c.buffer|)),
         bind := e.bind.(buffer := Pointer(0, e.generation)))
  }

  /** After completion the buffer holds the whole value, the bind is back at the base, the column is
      ready for the next row, and a buffer that was large enough is untouched. */
  lemma Reassembled(c: Column, cell: Option<Bytes>)
    requires Filled(c, cell)
    ensures var d := Completed(c, cell);
            Filled(d, cell) && Ready(d) && !Truncated(d)
            && |d.buffer| == (if Truncated(c) then c.length else |c.buffer|)
            && (cell.Some? ==> |d.buffer| >= |cell.value| && d.buffer[..|cell.value|] == cell.value)
            && (!Truncated(c) ==> d == c)
  {
  }

  /** The window given to fetch_column starts behind the old bytes but is as long as the whole value, so
      it fits the buffer only if there were no old bytes. What keeps the writes inside is that the
      library copies no more than the bytes that remain, and those end exactly at the buffer's end. */
  lemma WindowFitsIff(c: Column, cell: Option<Bytes>)
    requires Filled(c, cell) && Truncated(c)
    ensures var e := Extended(c);
            (e.bind.buffer.offset + e.bind.bufferLength <= |e.buffer| <==> c.buffer == [])
            && e.bind.buffer.offset + |Rest(e, cell.value, |c.buffer|)| == |e.buffer|
  {
  }

  /** A good copy of the bind stays good exactly if there was nothing to complete: otherwise the buffer
      moved, and the binds are registered only once. */
  lemma CurrentIffUntouched(c: Column, cell: Option<Bytes>)
    requires Filled(c, cell) && Current(c)
    ensures Current(Completed(c, cell)) <==> !Truncated(c)
  {
  }

  // ---------- the result tuple ----------

  // What StepTupleSet reads: nothing for a NULL string or blob, else length bytes at the bind.
  function ReadLength(c: Column): nat {
    if c.kind.Fixed? then c.kind.size else if c.isNull then 0 else c.length
  }

  predicate InBounds(c: Column) {
    ReadLength(c) > 0 ==> Valid(c, c.bind.buffer) && c.bind.buffer.offset + ReadLength(c) <= |c.buffer|
  }

  function TupleValue(c: Column): Bytes
    requires InBounds(c)
  {
    var at := c.bind.buffer.offset;
    if ReadLength(c) == 0 then [] else c.buffer[at..at + ReadLength(c)]
  }

  /** The tuple gets the full string or blob; a NULL one leaves the fresh element empty. */
  lemma TupleGetsValue(c: Column, cell: Option<Bytes>)
    requires Filled(c, cell)
    ensures InBounds(Completed(c, cell))
    ensures cell.Some? ==> TupleValue(Completed(c, cell)) == cell.value
    ensures cell.None? && c.kind.Dynamic? ==> TupleValue(Completed(c, cell)) == []
  {
    Reassembled(c, cell);
  }

  /** A column that was extended but not filled has its bind behind the old bytes: the tuple reads past
      the end unless there were none. */
  lemma ExtendedReadableIff(c: Column)
    requires Truncated(c) && !c.isNull
    ensures InBounds(Extended(c)) <==> c.buffer == []
  {
  }

  // ---------- the class ----------

  // StepOutputBind: the bind points at the front, and no buffer of a string or blob stays empty,
  // even when the configured size is 0.
  function Bound(c: Column): Column {
    var n := match c.kind
             case Fixed(size) => size
             case Dynamic => if c.buffer == [] then BIND_BUFFER_MIN_SIZE else |c.buffer|;
    var moved := c.kind.Fixed? || c.buffer == [];
    var g := if moved then c.generation + 1 else c.generation;
    c.(buffer := if moved then Resized(c.buffer, n) else c.buffer, generation := g,
       bind := Bind(Pointer(0, g), if c.kind.Dynamic? then n else c.bind.bufferLength))
  }

  /** A freshly bound column is ready for its first row. */
  lemma BoundIsReady(c: Column)
    requires c.length == 0
    ensures Ready(Bound(c)) && (c.kind.Dynamic? ==> |Bound(c).buffer| > 0)
  {
  }

  // No string or blob buffer is empty, as BindOutputs leaves them.
  predicate AllOccupied(cols: seq<Column>) {
    forall i :: 0 <= i < |cols| && cols[i].kind.Dynamic? ==> cols[i].buffer != []
  }

  function Registered(c: Column): Column {
    c.(registered := Some(c.bind))
  }

  /** Registering a freshly bound column makes the library's copy good: the first row can be fetched. */
  lemma RegisteredIsCurrent(c: Column)
    requires c.length == 0
    ensures Ready(Registered(Bound(c))) && Current(Registered(Bound(c)))
  {
  }

  // A row with a cell of the right kind for every column.
  predicate RowOk(kinds: seq<Kind>, values: seq<Option<Bytes>>) {
    |values| == |kinds|
    && forall i :: 0 <= i < |kinds| ==> values[i].Some? && kinds[i].Fixed? ==> |values[i].value| == kinds[i].size
  }

  // The library writes values, not NULLs, and for them its copy of the bind has to be good.
  predicate CanFetch(c: Column, cell: Option<Bytes>) {
    Ready(c) && CellOk(c, cell) && (cell.Some? ==> Current(c))
  }

  // mysql_stmt_fetch turns column c into d.
  predicate FetchedTo(c: Column, cell: Option<Bytes>, d: Column) {
    CanFetch(c, cell) && d == Fetched(c, cell)
  }

  // The column after a turn of the loop that goes well for it.
  function Turned(c: Column, cell: Option<Bytes>): Column
    requires CanFetch(c, cell)
  {
    FetchFills(c, cell);
    Completed(Fetched(c, cell), cell)
  }

  // The value is longer than the buffer.
  predicate Overflows(c: Column, cell: Option<Bytes>) {
    c.kind.Dynamic? && cell.Some? && |cell.value| > |c.buffer|
  }

  // What the loop over the rows needs: each value that does not fit is completed, and after it no
  // further value comes for its column.
  ghost predicate Completable(cols: seq<Column>, rows: seq<seq<Option<Bytes>>>, columnOk: seq<seq<bool>>) {
    forall r, i :: Overflowed(cols, rows, r, i) ==>
      r < |columnOk| && i < |columnOk[r]| && columnOk[r][i] && NullAfter(rows, r, i)
  }

  predicate NullAfter(rows: seq<seq<Option<Bytes>>>, r: nat, i: nat) {
    forall q :: r < q < |rows| ==> i < |rows[q]| && rows[q][i].None?
  }

  predicate Overflowed(cols: seq<Column>, rows: seq<seq<Option<Bytes>>>, r: int, i: int) {
    0 <= r < |rows| && 0 <= i < |cols| && i < |rows[r]| && Overflows(cols[i], rows[r][i])
  }

  // One column after n rows: it grew if a value overflowed it, and the copy is then out of date.
  ghost predicate After(cols: seq<Column>, rows: seq<seq<Option<Bytes>>>, n: nat, i: nat, now: Column)
    requires i < |cols|
  {
    Ready(now) && now.kind == cols[i].kind && |now.buffer| >= |cols[i].buffer|
    && (Current(now) <==> forall q :: 0 <= q < n ==> !Overflowed(cols, rows, q, i))
    && (Current(now) ==> |now.buffer| == |cols[i].buffer|)
  }

  /** One turn for one column: a value needs a good copy, overflows as it would have at first, and
      leaves the copy good exactly if it fitted. */
  lemma AfterTurn(cols: seq<Column>, rows: seq<seq<Option<Bytes>>>, n: nat, i: nat, now: Column)
    requires i < |cols| && n < |rows| && i < |rows[n]|
    requires After(cols, rows, n, i, now) && CanFetch(now, rows[n][i])
    ensures Truncated(Fetched(now, rows[n][i])) <==> Overflowed(cols, rows, n, i)
    ensures After(cols, rows, n + 1, i, Turned(now, rows[n][i]))
  {
    FetchFills(now, rows[n][i]);
    var filled := Fetched(now, rows[n][i]);
    Reassembled(filled, rows[n][i]);
    if rows[n][i].Some? {
      CurrentIffUntouched(filled, rows[n][i]);
    }
  }

  // A turn goes well for a column: the fetch may write, and what it leaves truncated is completed.
  predicate Turns(c: Column, cell: Option<Bytes>, columnOk: bool) {
    CanFetch(c, cell) && (Truncated(Fetched(c, cell)) ==> columnOk)
  }

  predicate TurnsTo(c: Column, cell: Option<Bytes>, columnOk: bool, d: Column) {
    Turns(c, cell, columnOk) && d == Turned(c, cell)
  }

  /** A turn that goes wrong for some column breaks the condition on the rows. */
  lemma StuckAt(cols: seq<Column>, rows: seq<seq<Option<Bytes>>>, columnOk: seq<seq<bool>>, now: seq<Column>, n: nat)
    requires n < |rows| == |columnOk| && |now| == |cols| == |rows[n]| == |columnOk[n]|
    requires forall i :: 0 <= i < |cols| ==> After(cols, rows, n, i, now[i]) && CellOk(now[i], rows[n][i])
    requires exists i :: 0 <= i < |cols| && !Turns(now[i], rows[n][i], columnOk[n][i])
    ensures !Completable(cols, rows, columnOk)
  {
    var i :| 0 <= i < |cols| && !Turns(now[i], rows[n][i], columnOk[n][i]);
    if CanFetch(now[i], rows[n][i]) {
      AfterTurn(cols, rows, n, i, now[i]);
      assert Overflowed(cols, rows, n, i);
    } else {
      var q :| 0 <= q < n && Overflowed(cols, rows, q, i);
    }
  }

  /** A turn that goes well for every column keeps the condition and the description of the columns. */
  lemma TurnTaken(cols: seq<Column>, rows: seq<seq<Option<Bytes>>>, columnOk: seq<seq<bool>>, now: seq<Column>,
                  next: seq<Column>, n: nat)
    requires n < |rows| == |columnOk| && |now| == |next| == |cols| == |rows[n]| == |columnOk[n]|
    requires Completable(cols, rows[..n], columnOk)
    requires forall i :: 0 <= i < |cols| ==> After(cols, rows, n, i, now[i])
    requires forall i :: 0 <= i < |cols| ==> TurnsTo(now[i], rows[n][i], columnOk[n][i], next[i])
    ensures Completable(cols, rows[..n + 1], columnOk)
    ensures forall i :: 0 <= i < |cols| ==> After(cols, rows, n + 1, i, next[i])
  {
    forall i | 0 <= i < |cols|
      ensures Overflowed(cols, rows, n, i) ==> columnOk[n][i]
      ensures After(cols, rows, n + 1, i, next[i])
    {
      assert TurnsTo(now[i], rows[n][i], columnOk[n][i], next[i]);
      AfterTurn(cols, rows, n, i, now[i]);
    }
    var more := rows[..n + 1];
    forall r, i | Overflowed(cols, more, r, i)
      ensures r < |columnOk| && i < |columnOk[r]| && columnOk[r][i] && NullAfter(more, r, i)
    {
      assert Overflowed(cols, rows, r, i);
      if r < n {
        assert Overflowed(cols, rows[..n], r, i);
        assert TurnsTo(now[i], rows[n][i], columnOk[n][i], next[i]);
        forall q | r < q < |more|
          ensures i < |more[q]| && more[q][i].None?
        {
          assert q < n ==> more[q] == rows[..n][q];
        }
      }
    }
  }

  // The first rows, as many as there are results.
  ghost predicate RowsAre(kinds: seq<Kind>, rows: seq<seq<Option<Bytes>>>, results: seq<seq<Bytes>>,
                          nullFlags: seq<seq<bool>>)
  {
    |results| == |nullFlags| <= |rows|
    && forall q :: 0 <= q < |results| ==> RowIs(kinds, rows[q], results[q], nullFlags[q])
  }

  lemma RowAdded(kinds: seq<Kind>, rows: seq<seq<Option<Bytes>>>, results: seq<seq<Bytes>>,
                 nullFlags: seq<seq<bool>>, row: seq<Bytes>, flags: seq<bool>)
    requires RowsAre(kinds, rows, results, nullFlags) && |results| < |rows|
    requires RowIs(kinds, rows[|results|], row, flags)
    ensures RowsAre(kinds, rows, results + [row], nullFlags + [flags])
  {
  }

  // The row that the result set gets. A fixed-size element under a NULL is not described.
  predicate RowIs(kinds: seq<Kind>, values: seq<Option<Bytes>>, row: seq<Bytes>, nullFlags: seq<bool>) {
    |row| == |nullFlags| == |values| == |kinds|
    && forall i :: 0 <= i < |kinds| ==>
         nullFlags[i] == values[i].None?
         && (values[i].Some? ==> row[i] == values[i].value)
         && (values[i].None? && kinds[i].Dynamic? ==> row[i] == [])
  }

  // The indices of the dynamic columns, in order.
  function DynamicIndices(kinds: seq<Kind>): (r: seq<nat>)
    ensures forall n :: 0 <= n < |r| ==> r[n] < |kinds| && kinds[r[n]].Dynamic?
    ensures forall m, n :: 0 <= m < n < |r| ==> r[m] < r[n]
    ensures forall i :: 0 <= i < |kinds| && kinds[i].Dynamic? ==> i in r
  {
    if kinds == [] then []
    else
      var front := kinds[..|kinds| - 1];
      if kinds[|front|].Dynamic? then DynamicIndices(front) + [|front|] else DynamicIndices(front)
  }

  lemma NextIndex(kinds: seq<Kind>, i: nat)
    requires i < |kinds|
    ensures DynamicIndices(kinds[..i + 1])
         == DynamicIndices(kinds[..i]) + if kinds[i].Dynamic? then [i] else []
  {
    assert kinds[..i + 1][..i] == kinds[..i];
  }

  // ---------- the columns that FetchTruncatedResults leaves ----------

  predicate AllFilled(cols: seq<Column>, values: seq<Option<Bytes>>) {
    |values| == |cols| && forall i :: 0 <= i < |cols| ==> Filled(cols[i], values[i])
  }

  predicate AllInBounds(cols: seq<Column>) {
    forall i :: 0 <= i < |cols| ==> InBounds(cols[i])
  }

  // fetch_column succeeds on each of the first m columns that are truncated.
  predicate AllFetched(m: nat, cols: seq<Column>, columnOk: seq<bool>)
    requires m <= |cols| == |columnOk|
  {
    forall i :: 0 <= i < m && Truncated(cols[i]) ==> columnOk[i]
  }

  // The first m columns are complete and the rest is as it was.
  predicate CompletedTo(m: nat, was: seq<Column>, now: seq<Column>, values: seq<Option<Bytes>>)
    requires AllFilled(was, values)
  {
    m <= |was| == |now|
    && (forall i :: 0 <= i < m ==> now[i] == Completed(was[i], values[i]))
    && (forall i :: m <= i < |was| ==> now[i] == was[i])
  }

  // The columns before f are complete, f was extended but not filled, the rest is as it was.
  predicate StoppedAt(f: nat, was: seq<Column>, now: seq<Column>, values: seq<Option<Bytes>>, columnOk: seq<bool>)
    requires AllFilled(was, values)
  {
    f < |was| == |now| == |columnOk| && Truncated(was[f]) && !columnOk[f] && now[f] == Extended(was[f])
    && CompletedTo(f, was, now[f := was[f]], values)
  }

  predicate LeftBy(ok: bool, was: seq<Column>, now: seq<Column>, values: seq<Option<Bytes>>, columnOk: seq<bool>)
    requires AllFilled(was, values)
  {
    if ok then CompletedTo(|was|, was, now, values)
    else exists f :: 0 <= f < |was| && StoppedAt(f, was, now, values, columnOk)
  }

  // The columns from m to m' are complete once m is, if the others are of fixed size.
  lemma CompletedNext(m: nat, m': nat, was: seq<Column>, now: seq<Column>, next: seq<Column>,
                      values: seq<Option<Bytes>>, columnOk: seq<bool>)
    requires AllFilled(was, values) && m < m' <= |was| == |columnOk| && CompletedTo(m, was, now, values)
    requires AllFetched(m, was, columnOk) && (Truncated(was[m]) ==> columnOk[m])
    requires next == now[m := Completed(was[m], values[m])]
    requires forall i :: m < i < m' ==> was[i].kind.Fixed?
    ensures CompletedTo(m', was, next, values) && AllFetched(m', was, columnOk)
  {
  }

  /** After FetchTruncatedResults, and with no empty string or blob buffer before it, every column can be
      read in bounds exactly if its result was success. */
  lemma ReadableIffCompleted(ok: bool, was: seq<Column>, now: seq<Column>, values: seq<Option<Bytes>>,
                             columnOk: seq<bool>)
    requires AllFilled(was, values) && AllOccupied(was) && LeftBy(ok, was, now, values, columnOk)
    ensures ok <==> AllInBounds(now)
  {
    if ok {
      forall i | 0 <= i < |now|
        ensures InBounds(now[i])
      {
        TupleGetsValue(was[i], values[i]);
      }
    } else {
      var f :| 0 <= f < |was| && StoppedAt(f, was, now, values, columnOk);
      ExtendedReadableIff(was[f]);
    }
  }

  class QueryHandle {
    const kinds: seq<Kind>
    var outputBuffer: seq<Bytes>
    var generation: seq<nat>
    var outputBinds: seq<Bind>
    var outputLength: seq<nat>
    var nullFlagBuffer: seq<bool>
    var dynamicBufferIndex: seq<nat>
    var registered: seq<Option<Bind>>

    predicate Sized()
      reads this
    {
      |registered| == |outputBuffer| == |generation| == |outputBinds| == |outputLength| == |nullFlagBuffer| == |kinds|
      && dynamicBufferIndex == DynamicIndices(kinds)
    }

    function Col(i: nat): Column
      requires Sized() && i < |kinds|
      reads this
    {
      Column(kinds[i], outputBuffer[i], generation[i], outputBinds[i], outputLength[i], nullFlagBuffer[i],
             registered[i])
    }

    function Cols(): (r: seq<Column>)
      requires Sized()
      reads this
      ensures |r| == |kinds| && forall i :: 0 <= i < |kinds| ==> r[i] == Col(i)
    {
      seq(|kinds|, i requires 0 <= i < |kinds| && Sized() reads this => Col(i))
    }

    // The constructor and ResizeBuffers: dynamic columns get the configured size and are listed.
    constructor (kinds: seq<Kind>, dynamicBufferSize: nat)
      ensures Sized() && this.kinds == kinds
      ensures forall i :: 0 <= i < |kinds| ==>
                outputLength[i] == 0 && !nullFlagBuffer[i]
                && |outputBuffer[i]| == if kinds[i].Dynamic? then dynamicBufferSize else 0
    {
      this.kinds := kinds;
      var n := |kinds|;
      outputBinds := seq(n, _ => Bind(Pointer(0, 0), 0));
      outputBuffer := seq(n, _ => []);
      generation := seq(n, _ => 0);
      nullFlagBuffer := seq(n, _ => false);
      outputLength := seq(n, _ => 0);
      dynamicBufferIndex := [];
      registered := seq(n, _ => None);
      new;
      label Sizing:
      for i := 0 to n
        invariant |outputBuffer| == n && unchanged@Sizing(`outputBinds, `generation, `registered)
        invariant unchanged@Sizing(`nullFlagBuffer, `outputLength)
        invariant dynamicBufferIndex == DynamicIndices(kinds[..i])
        invariant forall j :: 0 <= j < n ==>
                    |outputBuffer[j]| == if j < i && kinds[j].Dynamic? then dynamicBufferSize else 0
      {
        NextIndex(kinds, i);
        if kinds[i].Dynamic? {
          outputBuffer := outputBuffer[i := Resized(outputBuffer[i], dynamicBufferSize)];
          dynamicBufferIndex := dynamicBufferIndex + [i];
        }
      }
      assert kinds[..n] == kinds;
    }

    // StepOutputBind on one column.
    method StepOutputBind(i: nat)
      requires Sized() && i < |kinds|
      modifies this`outputBuffer, this`generation, this`outputBinds
      ensures Sized() && Col(i) == Bound(old(Col(i)))
      ensures forall j :: 0 <= j < |kinds| && j != i ==> Col(j) == old(Col(j))
    {
      match kinds[i]
      case Fixed(size) =>
        Resize(i, size);
        outputBinds := outputBinds[i := Bind(Pointer(0, generation[i]), outputBinds[i].bufferLength)];
      case Dynamic =>
        if outputBuffer[i] == [] {
          Resize(i, BIND_BUFFER_MIN_SIZE);
        }
        outputBinds := outputBinds[i := Bind(Pointer(0, generation[i]), |outputBuffer[i]|)];
    }

    method Resize(i: nat, n: nat)
      requires Sized() && i < |kinds|
      modifies this`outputBuffer, this`generation
      ensures Sized()
      ensures Col(i) == old(Col(i)).(buffer := Resized(old(Col(i)).buffer, n), generation := old(Col(i)).generation + 1)
      ensures forall j :: 0 <= j < |kinds| && j != i ==> Col(j) == old(Col(j))
    {
      outputBuffer := outputBuffer[i := Resized(outputBuffer[i], n)];
      generation := generation[i := generation[i] + 1];
    }

    // BindOutputImpl.
    method BindOutputs()
      requires Sized()
      modifies this`outputBuffer, this`generation, this`outputBinds
      ensures Sized() && forall i :: 0 <= i < |kinds| ==> Col(i) == Bound(old(Col(i)))
    {
      for i := 0 to |kinds|
        invariant Sized()
        invariant forall j :: 0 <= j < i ==> Col(j) == Bound(old(Col(j)))
        invariant forall j :: i <= j < |kinds| ==> Col(j) == old(Col(j))
      {
        StepOutputBind(i);
      }
    }

    // The loop body of FetchTruncatedResults for one column. columnOk: fetch_column succeeds on it.
    method CompleteColumn(i: nat, cell: Option<Bytes>, columnOk: bool) returns (ok: bool)
      requires Sized() && i < |kinds| && kinds[i].Dynamic? && Filled(Col(i), cell)
      modifies this`outputBuffer, this`generation, this`outputBinds
      ensures Sized() && ok == (Truncated(old(Col(i))) ==> columnOk)
      ensures Cols() == old(Cols())[i := if ok then Completed(old(Col(i)), cell) else Extended(old(Col(i)))]
    {
      var dataRealSize, bufferOldSize := outputLength[i], |outputBuffer[i]|;
      if dataRealSize <= bufferOldSize {
        return true;
      }
      Resize(i, dataRealSize);
      outputBinds := outputBinds[i := Bind(Pointer(bufferOldSize, generation[i]), dataRealSize)];
      if !columnOk {
        return false;
      }
      var rest := Rest(Col(i), cell.value, bufferOldSize);
      outputBuffer := outputBuffer[i := Written(outputBuffer[i], outputBinds[i].buffer.offset, rest)];
      outputBinds := outputBinds[i := outputBinds[i].(buffer := Pointer(0, generation[i]))];
      ok := true;
    }

    // The columns before the n-th dynamic one.
    function Before(n: nat): nat
      requires Sized()
      reads this
    {
      if n < |dynamicBufferIndex| then dynamicBufferIndex[n] else |kinds|
    }

    lemma FixedBefore()
      requires Sized()
      ensures Before(0) <= |kinds| && forall i :: 0 <= i < Before(0) ==> Cols()[i].kind.Fixed?
    {
      forall i | 0 <= i < Before(0)
        ensures kinds[i].Fixed?
      {
        assert kinds[i].Dynamic? ==> i in dynamicBufferIndex;
      }
    }

    lemma NoneBetween(n: nat)
      requires Sized() && n < |dynamicBufferIndex|
      ensures Before(n) < Before(n + 1) <= |kinds|
      ensures forall i :: Before(n) < i < Before(n + 1) ==> Cols()[i].kind.Fixed?
    {
      forall i | Before(n) < i < Before(n + 1)
        ensures kinds[i].Fixed?
      {
        assert kinds[i].Dynamic? ==> i in dynamicBufferIndex;
      }
    }

    // values: the row the server holds. columnOk: whether fetch_column succeeds on a column.
    method FetchTruncatedResults(values: seq<Option<Bytes>>, columnOk: seq<bool>) returns (ok: bool)
      requires Sized() && |columnOk| == |kinds| && AllFilled(Cols(), values)
      modifies this`outputBuffer, this`generation, this`outputBinds
      ensures Sized()
      ensures ok <==> AllFetched(|kinds|, old(Cols()), columnOk)
      ensures LeftBy(ok, old(Cols()), Cols(), values, columnOk)
    {
      ghost var was := Cols();
      FixedBefore();
      for n := 0 to |dynamicBufferIndex|
        invariant Sized() && Before(n) <= |kinds|
        invariant CompletedTo(Before(n), was, Cols(), values) && AllFetched(Before(n), was, columnOk)
      {
        var i := dynamicBufferIndex[n];
        ghost var now := Cols();
        var done := CompleteColumn(i, values[i], columnOk[i]);
        if !done {
          assert Cols()[i := was[i]] == now;
          assert StoppedAt(i, was, Cols(), values, columnOk);
          return false;
        }
        NoneBetween(n);
        CompletedNext(i, Before(n + 1), was, now, Cols(), values, columnOk);
      }
      ok := true;
    }

    method SetResultTuple() returns (row: seq<Bytes>)
      requires Sized() && AllInBounds(Cols())
      ensures |row| == |kinds| && forall i :: 0 <= i < |kinds| ==> row[i] == TupleValue(Col(i))
    {
      row := [];
      for i := 0 to |kinds|
        invariant |row| == i && forall j :: 0 <= j < i ==> row[j] == TupleValue(Col(j))
      {
        row := row + [TupleValue(Col(i))];
      }
    }

    // One turn of the loop of FetchResults, from the status of mysql_stmt_fetch to the row it adds. The
    // result of FetchTruncatedResults is not looked at: when a fetch_column fails, the tuple is read
    // past the end of a buffer, and the turn has no defined result.
    method StoreRow(values: seq<Option<Bytes>>, columnOk: seq<bool>, truncated: bool)
      returns (defined: bool, row: seq<Bytes>, nullFlags: seq<bool>)
      requires Sized() && |columnOk| == |kinds| && AllOccupied(Cols()) && AllFilled(Cols(), values)
      requires (exists i :: 0 <= i < |kinds| && Truncated(Col(i))) ==> truncated
      modifies this`outputBuffer, this`generation, this`outputBinds
      ensures Sized()
      ensures defined <==> AllFetched(|kinds|, old(Cols()), columnOk)
      ensures defined ==> RowIs(kinds, values, row, nullFlags)
      ensures defined ==> CompletedTo(|kinds|, old(Cols()), Cols(), values)
    {
      ghost var was := Cols();
      ghost var ok := true;
      if truncated {
        ok := FetchTruncatedResults(values, columnOk);
      }
      ReadableIffCompleted(ok, was, Cols(), values, columnOk);
      if exists i :: 0 <= i < |kinds| && !InBounds(Col(i)) {
        return false, [], [];
      }
      forall i | 0 <= i < |kinds|
        ensures values[i].Some? ==> TupleValue(Col(i)) == values[i].value
        ensures values[i].None? && kinds[i].Dynamic? ==> TupleValue(Col(i)) == []
      {
        TupleGetsValue(was[i], values[i]);
      }
      row := SetResultTuple();
      nullFlags := nullFlagBuffer;
      defined := true;
    }

    // mysql_stmt_bind_result: the library takes its copy of the binds.
    method Register()
      requires Sized()
      modifies this`registered
      ensures Sized() && forall i :: 0 <= i < |kinds| ==> Col(i) == Registered(old(Col(i)))
    {
      var binds := outputBinds;
      registered := seq(|binds|, i requires 0 <= i < |binds| => Some(binds[i]));
    }

    // mysql_stmt_fetch: the library writes the row through its copy and reports a truncation.
    method Fetch(values: seq<Option<Bytes>>) returns (truncated: bool)
      requires Sized() && |values| == |kinds| && forall i :: 0 <= i < |kinds| ==> CanFetch(Col(i), values[i])
      modifies this`outputBuffer, this`outputLength, this`nullFlagBuffer
      ensures Sized() && forall i :: 0 <= i < |kinds| ==> FetchedTo(old(Col(i)), values[i], Col(i))
      ensures truncated <==> exists i :: 0 <= i < |kinds| && Truncated(Col(i))
    {
      for i := 0 to |kinds|
        invariant Sized()
        invariant forall j :: 0 <= j < i ==> FetchedTo(old(Col(j)), values[j], Col(j))
        invariant forall j :: i <= j < |kinds| ==> Col(j) == old(Col(j))
      {
        var c := Fetched(Col(i), values[i]);
        outputBuffer := outputBuffer[i := c.buffer];
        outputLength := outputLength[i := c.length];
        nullFlagBuffer := nullFlagBuffer[i := c.isNull];
      }
      truncated := exists i :: 0 <= i < |kinds| && Truncated(Col(i));
    }

    // One turn of the loop: nothing to return if the library would write through an outdated copy.
    method FetchRow(values: seq<Option<Bytes>>, columnOk: seq<bool>)
      returns (defined: bool, row: seq<Bytes>, nullFlags: seq<bool>)
      requires Sized() && RowOk(kinds, values) && |columnOk| == |kinds| && AllOccupied(Cols())
      requires forall i :: 0 <= i < |kinds| ==> Ready(Col(i))
      modifies this`outputBuffer, this`generation, this`outputBinds, this`outputLength, this`nullFlagBuffer
      ensures Sized()
      ensures defined <==> forall i :: 0 <= i < |kinds| ==> Turns(old(Col(i)), values[i], columnOk[i])
      ensures defined ==> RowIs(kinds, values, row, nullFlags)
      ensures defined ==> forall i :: 0 <= i < |kinds| ==> TurnsTo(old(Col(i)), values[i], columnOk[i], Col(i))
    {
      if exists i :: 0 <= i < |kinds| && !CanFetch(Col(i), values[i]) {
        return false, [], [];
      }
      forall i | 0 <= i < |kinds|
        ensures Filled(Fetched(Col(i), values[i]), values[i])
      {
        FetchFills(Col(i), values[i]);
      }
      var truncated := Fetch(values);
      defined, row, nullFlags := StoreRow(values, columnOk, truncated);
    }

    // FetchResults. stored: mysql_stmt_store_result succeeds; then the loop over the rows, and how it
    // ended. columnOk: what fetch_column says, row by row. A row whose fetch or whose reading leaves the
    // buffers has no defined result.
    method FetchResults(stored: bool, rows: seq<seq<Option<Bytes>>>, columnOk: seq<seq<bool>>, status: int)
      returns (defined: bool, ok: bool, results: seq<seq<Bytes>>, nullFlags: seq<seq<bool>>)
      requires Sized() && AllOccupied(Cols()) && |columnOk| == |rows|
      requires forall i :: 0 <= i < |kinds| ==> Ready(Col(i)) && Current(Col(i))
      requires forall r :: 0 <= r < |rows| ==> RowOk(kinds, rows[r]) && |columnOk[r]| == |kinds|
      modifies this`outputBuffer, this`generation, this`outputBinds, this`outputLength, this`nullFlagBuffer
      ensures Sized()
      ensures defined <==> !stored || Completable(old(Cols()), rows, columnOk)
      ensures !stored ==> !ok && results == [] && nullFlags == []
      ensures stored && defined ==> ok == (status != 1) && |results| == |nullFlags| == |rows|
      ensures stored && defined ==> forall r :: 0 <= r < |rows| ==> RowIs(kinds, rows[r], results[r], nullFlags[r])
    {
      ghost var was := Cols();
      results, nullFlags := [], [];
      if !stored {
        return true, false, [], [];
      }
      for r := 0 to |rows|
        invariant Sized() && |results| == |nullFlags| == r
        invariant RowsAre(kinds, rows, results, nullFlags)
        invariant Completable(was, rows[..r], columnOk)
        invariant forall i :: 0 <= i < |kinds| ==> After(was, rows, r, i, Col(i))
      {
        ghost var before := Cols();
        var rowOk, row, flags := FetchRow(rows[r], columnOk[r]);
        if !rowOk {
          StuckAt(was, rows, columnOk, before, r);
          return false, false, [], [];
        }
        RowAdded(kinds, rows, results, nullFlags, row, flags);
        results, nullFlags := results + [row], nullFlags + [flags];
        TurnTaken(was, rows, columnOk, before, Cols(), r);
      }
      assert rows[..|rows|] == rows;
      defined, ok := true, status != 1;
    }
  }

  // The size of a dynamic buffer once bound.
  function BoundSize(configured: nat): nat {
    if configured == 0 then 32 else configured
  }

  predicate TooLong(kinds: seq<Kind>, configured: nat, rows: seq<seq<Option<Bytes>>>, r: int, i: int) {
    0 <= r < |rows| && 0 <= i < |kinds| && i < |rows[r]|
    && kinds[i].Dynamic? && rows[r][i].Some? && |rows[r][i].value| > BoundSize(configured)
  }

  // What a prepared query needs to have a defined result: each value longer than its bound buffer is
  // completed, and only NULLs follow it in its column.
  ghost predicate Arrives(kinds: seq<Kind>, configured: nat, rows: seq<seq<Option<Bytes>>>, columnOk: seq<seq<bool>>) {
    forall r, i :: TooLong(kinds, configured, rows, r, i) ==>
      r < |columnOk| && i < |columnOk[r]| && columnOk[r][i] && NullAfter(rows, r, i)
  }

  /** Two rows are enough to miss it: a text of 33 bytes and then any other, with no size configured and
      every fetch_column successful. */
  lemma SecondTextIsLost(long: Bytes, short: Bytes)
    requires |long| > 32
    ensures !Arrives([Dynamic], 0, [[Some(long)], [Some(short)]], [[true], [true]])
  {
    var rows := [[Some(long)], [Some(short)]];
    assert TooLong([Dynamic], 0, rows, 0, 0);
    assert rows[1][0].Some?;
  }

  // From the output buffers of a prepared query to its result set: QueryAllInternal from the construction
  // of the query handle on. executed: the statement was bound and executed without error.
  method QueryRows(kinds: seq<Kind>, configured: nat, executed: bool, stored: bool,
                   rows: seq<seq<Option<Bytes>>>, columnOk: seq<seq<bool>>, status: int)
    returns (defined: bool, ok: bool, results: seq<seq<Bytes>>, nullFlags: seq<seq<bool>>)
    requires |columnOk| == |rows|
    requires forall r :: 0 <= r < |rows| ==> RowOk(kinds, rows[r]) && |columnOk[r]| == |kinds|
    ensures defined <==> !executed || !stored || Arrives(kinds, configured, rows, columnOk)
    ensures !executed || !stored ==> !ok && results == [] && nullFlags == []
    ensures executed && stored && defined ==> ok == (status != 1) && |results| == |nullFlags| == |rows|
    ensures executed && stored && defined ==>
              forall r :: 0 <= r < |rows| ==> RowIs(kinds, rows[r], results[r], nullFlags[r])
  {
    var handle := new QueryHandle(kinds, configured);
    handle.BindOutputs();
    if !executed {
      return true, false, [], [];
    }
    handle.Register();
    ghost var cols := handle.Cols();
    assert forall i :: 0 <= i < |kinds| && kinds[i].Dynamic? ==> |cols[i].buffer| == BoundSize(configured);
    assert forall r, i :: Overflowed(cols, rows, r, i) <==> TooLong(kinds, configured, rows, r, i);
    defined, ok, results, nullFlags := handle.FetchResults(stored, rows, columnOk, status);
  }
}
