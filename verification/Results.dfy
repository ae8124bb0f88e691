/**
  MysqlResults: what a query leaves behind, and who owns the raw result the client library made.
  A string view is modelled by the raw result it points into and the bytes it shows.
 */
module Results {
  import opened Options

  type Id = nat

  // ---------- the client library ----------

  // The rows the server sent; a cell is NULL or a byte string that may contain any character.
  datatype Table = Table(names: seq<string>, rows: seq<seq<Option<string>>>)

  predicate TableOk(table: Table) {
    forall r :: 0 <= r < |table.rows| ==> |table.rows[r]| == |table.names|
  }

  datatype Raw = Raw(table: Table, frees: nat)

  // Every raw result ever stored.
  datatype Store = Store(raws: map<Id, Raw>, next: Id)

  predicate Live(store: Store, id: Id) {
    id in store.raws && store.raws[id].frees == 0
  }

  predicate StoreOk(store: Store) {
    forall id :: id in store.raws ==> id < store.next
  }

  function Stored(store: Store, table: Table): Store {
    Store(store.raws[store.next := Raw(table, 0)], store.next + 1)
  }

  function Freed(store: Store, res: Option<Id>): Store {
    if res.Some? && res.value in store.raws then
      store.(raws := store.raws[res.value := store.raws[res.value].(frees := store.raws[res.value].frees + 1)])
    else store
  }

  class Library {
    var store: Store

    constructor ()
      ensures store == Store(map[], 0) && StoreOk(store)
    {
      store := Store(map[], 0);
    }

    method StoreResult(table: Table) returns (id: Id)
      requires StoreOk(store)
      modifies this
      ensures store == Stored(old(store), table) && id == old(store).next && StoreOk(store) && Live(store, id)
    {
      id := store.next;
      store := Stored(store, table);
    }

    // mysql_free_result; freeing twice is undefined.
    method FreeResult(id: Id)
      requires Live(store, id)
      modifies this
      ensures store == Freed(old(store), Some(id))
    {
      store := Freed(store, Some(id));
    }
  }

  // ---------- the value of a MysqlResults ----------

  datatype Mode = BindType | NativeString | OnlyExec

  // raw: the raw result the view points into, if any.
  datatype View = View(raw: Option<Id>, text: string)

  datatype Value = Value(
    rows: seq<seq<View>>,           // result_set_
    names: seq<string>,             // fields_name_
    nullFlags: seq<seq<bool>>,      // null_flags_
    errorNumber: int,
    errorMessage: string,
    affectedRows: nat,
    hasValue: bool,
    mysqlRes: Option<Id>)

  const EMPTY := Value([], [], [], 0, "", 0, false, None)

  // Clear keeps the error number.
  function Cleared(v: Value): Value {
    EMPTY.(errorNumber := v.errorNumber)
  }

  // What a move leaves in the source: the vectors and the raw result are gone.
  function MovedFrom(v: Value): Value {
    v.(rows := [], names := [], nullFlags := [], errorMessage := "", mysqlRes := None)
  }

  // What a move brings: everything but the error number, which stays the target's.
  function MovedTo(target: Value, v: Value): Value {
    v.(errorNumber := target.errorNumber)
  }

  // ---------- the native-string rows ----------

  function CellView(raw: Id, cell: Option<string>): View {
    if cell.Some? then View(Some(raw), cell.value) else View(None, "")
  }

  function RowViews(raw: Id, row: seq<Option<string>>): (r: seq<View>)
    ensures |r| == |row| && forall j :: 0 <= j < |row| ==> r[j] == CellView(raw, row[j])
  {
    seq(|row|, j requires 0 <= j < |row| => CellView(raw, row[j]))
  }

  function RowFlags(row: seq<Option<string>>): (r: seq<bool>)
    ensures |r| == |row| && forall j :: 0 <= j < |row| ==> r[j] == row[j].None?
  {
    seq(|row|, j requires 0 <= j < |row| => row[j].None?)
  }

  function TableViews(raw: Id, rows: seq<seq<Option<string>>>): (r: seq<seq<View>>)
    ensures |r| == |rows| && forall i :: 0 <= i < |rows| ==> r[i] == RowViews(raw, rows[i])
  {
    seq(|rows|, i requires 0 <= i < |rows| => RowViews(raw, rows[i]))
  }

  function TableFlags(rows: seq<seq<Option<string>>>): (r: seq<seq<bool>>)
    ensures |r| == |rows| && forall i :: 0 <= i < |rows| ==> r[i] == RowFlags(rows[i])
  {
    seq(|rows|, i requires 0 <= i < |rows| => RowFlags(rows[i]))
  }

  // Refused: the query failed, or produced no result set; number is then what mysql_errno says.
  datatype Outcome = Refused(number: int, message: string) | Rows(table: Table)

  // The value after QueryAll; raw is the raw result's name if there is one.
  function Queried(v: Value, raw: Id, o: Outcome): Value {
    match o
    case Refused(number, message) => Cleared(v).(errorNumber := number, errorMessage := message)
    case Rows(table) =>
      Cleared(v).(rows := TableViews(raw, table.rows), nullFlags := TableFlags(table.rows), names := table.names,
                  hasValue := true, mysqlRes := Some(raw))
  }

  function StoreAfterQuery(store: Store, v: Value, o: Outcome): Store
  {
    var store' := Freed(store, v.mysqlRes);
    if o.Rows? then Stored(store', o.table) else store'
  }

  // ---------- what holds of every value ----------

  predicate Rectangular(flags: seq<seq<bool>>) {
    forall i, j :: 0 <= i < j < |flags| ==> |flags[i]| == |flags[j]|
  }

  // Views point into the raw result of this very object.
  predicate OwnViews(v: Value) {
    forall i, j :: 0 <= i < |v.rows| && 0 <= j < |v.rows[i]| && v.rows[i][j].raw.Some? ==>
      v.rows[i][j].raw == v.mysqlRes
  }

  predicate ValueOk(v: Value) {
    Rectangular(v.nullFlags) && OwnViews(v)
  }

  function IsNull(v: Value, row: nat, col: nat): bool
    requires Rectangular(v.nullFlags)
  {
    row < |v.nullFlags| && col < |v.nullFlags[0]| && v.nullFlags[row][col]
  }

  // ---------- the class ----------

  class MysqlResults {
    const mode: Mode
    var rows: seq<seq<View>>
    var names: seq<string>
    var nullFlags: seq<seq<bool>>
    var errorNumber: int
    var errorMessage: string
    var affectedRows: nat
    var hasValue: bool
    var mysqlRes: Option<Id>

    function V(): Value
      reads this
    {
      Value(rows, names, nullFlags, errorNumber, errorMessage, affectedRows, hasValue, mysqlRes)
    }

    predicate Owns(lib: Library)
      reads this, lib
    {
      ValueOk(V()) && StoreOk(lib.store) && (mysqlRes.Some? ==> Live(lib.store, mysqlRes.value))
    }

    constructor (mode: Mode)
      ensures this.mode == mode && V() == EMPTY
    {
      this.mode := mode;
      rows, names, nullFlags, errorNumber, errorMessage, affectedRows := [], [], [], 0, "", 0;
      hasValue, mysqlRes := false, None;
    }

    // The error number starts at 0 whatever the source's was.
    constructor MoveFrom(other: MysqlResults)
      modifies other
      ensures mode == other.mode && V() == MovedTo(EMPTY, old(other.V())) && other.V() == MovedFrom(old(other.V()))
    {
      mode, rows, names, nullFlags := other.mode, other.rows, other.names, other.nullFlags;
      errorNumber, errorMessage, affectedRows := 0, other.errorMessage, other.affectedRows;
      hasValue, mysqlRes := other.hasValue, other.mysqlRes;
      new;
      other.rows, other.names, other.nullFlags, other.errorMessage, other.mysqlRes := [], [], [], "", None;
    }

    // The raw result the target held before is overwritten, not freed.
    method MoveAssign(other: MysqlResults)
      requires other.mode == mode
      modifies this, other
      ensures this == other ==> V() == old(V())
      ensures this != other ==> V() == MovedTo(old(V()), old(other.V())) && other.V() == MovedFrom(old(other.V()))
    {
      if this != other {
        rows, names, nullFlags := other.rows, other.names, other.nullFlags;
        errorMessage, affectedRows, hasValue := other.errorMessage, other.affectedRows, other.hasValue;
        mysqlRes := other.mysqlRes;
        other.rows, other.names, other.nullFlags, other.errorMessage, other.mysqlRes := [], [], [], "", None;
      }
    }

    method Clear(lib: Library)
      requires Owns(lib)
      modifies this, lib
      ensures V() == Cleared(old(V())) && lib.store == Freed(old(lib.store), old(mysqlRes)) && Owns(lib)
    {
      nullFlags, errorMessage, names, hasValue, affectedRows, rows := [], "", [], false, 0, [];
      if mysqlRes.Some? {
        lib.FreeResult(mysqlRes.value);
        mysqlRes := None;
      }
    }

    method Destroy(lib: Library)
      requires Owns(lib)
      modifies this, lib
      ensures mysqlRes == None && lib.store == Freed(old(lib.store), old(mysqlRes)) && StoreOk(lib.store)
    {
      if mysqlRes.Some? {
        lib.FreeResult(mysqlRes.value);
        mysqlRes := None;
      }
    }

    // The assertion in the source, that no raw result is overwritten here, is the precondition.
    method SetRawMysqlRes(res: Id)
      requires mysqlRes == None
      modifies this`mysqlRes
      ensures mysqlRes == Some(res)
    {
      mysqlRes := Some(res);
    }

    // mysql_fetch_row until it returns null.
    method FetchRows(raw: Id, table: Table)
      requires TableOk(table) && rows == [] && nullFlags == []
      modifies this`rows, this`nullFlags
      ensures rows == TableViews(raw, table.rows) && nullFlags == TableFlags(table.rows)
    {
      var numFields := |table.names|;
      var r := 0;
      while r < |table.rows|
        invariant 0 <= r <= |table.rows|
        invariant rows == TableViews(raw, table.rows)[..r] && nullFlags == TableFlags(table.rows)[..r]
      {
        var row := table.rows[r];
        var cells: seq<View>, flags: seq<bool> := [], seq(numFields, _ => false);
        for i := 0 to numFields
          invariant cells == RowViews(raw, row)[..i]
          invariant |flags| == numFields
          invariant forall j :: 0 <= j < numFields ==> flags[j] == (j < i && row[j].None?)
        {
          if row[i].Some? {
            cells := cells + [View(Some(raw), row[i].value)];
          } else {
            flags := flags[i := true];
            cells := cells + [View(None, "")];
          }
        }
        assert cells == RowViews(raw, row) && flags == RowFlags(row);
        rows, nullFlags := rows + [cells], nullFlags + [flags];
        r := r + 1;
      }
    }

    // QueryAll in native-string mode.
    method QueryAll(lib: Library, o: Outcome) returns (ok: bool)
      requires mode == NativeString && Owns(lib) && (o.Rows? ==> TableOk(o.table))
      modifies this, lib
      ensures V() == Queried(old(V()), old(lib.store).next, o)
      ensures lib.store == StoreAfterQuery(old(lib.store), old(V()), o)
      ensures ok == o.Rows? && Owns(lib)
    {
      Clear(lib);
      match o
      case Refused(number, message) =>
        errorMessage, errorNumber := message, number;
        ok := false;
      case Rows(table) =>
        var res := lib.StoreResult(table);
        FetchRows(res, table);
        SetRawMysqlRes(res);
        names := table.names;
        hasValue := true;
        ok := true;
        QueriedOk(old(V()), res, o);
    }

    // In the native mode the views are copied; in the others the rows are moved out.
    method GetResultSet(res: seq<seq<View>>) returns (ok: bool, out: seq<seq<View>>)
      modifies this
      ensures ok == old(hasValue) && out == if ok then old(rows) else res
      ensures V() == if ok && mode != NativeString then old(V()).(rows := [], hasValue := false) else old(V())
    {
      if !hasValue {
        return false, res;
      }
      if mode == NativeString {
        out := [];
        for i := 0 to |rows|
          invariant out == rows[..i]
        {
          out := out + [rows[i]];
        }
        return true, out;
      }
      out := rows;
      rows, hasValue := [], false;
      return true, out;
    }

    function IsValueNull(row: nat, col: nat): (r: bool)
      reads this
      requires Rectangular(nullFlags)
      ensures r == IsNull(V(), row, col)
    {
      if nullFlags == [] then false
      else if row >= |nullFlags| || col >= |nullFlags[0]| then false
      else nullFlags[row][col]
    }

    function OK(): bool
      reads this
    {
      errorNumber == 0
    }
  }

  // ---------- the rows a query leaves ----------

  lemma QueriedOk(v: Value, raw: Id, o: Outcome)
    requires o.Rows? ==> TableOk(o.table)
    ensures ValueOk(Queried(v, raw, o))
  {
    if o.Rows? {
      var q := Queried(v, raw, o);
      forall i, j | 0 <= i < |q.rows| && 0 <= j < |q.rows[i]| && q.rows[i][j].raw.Some?
        ensures q.rows[i][j].raw == q.mysqlRes
      {
        assert q.rows[i] == RowViews(raw, o.table.rows[i]);
      }
      forall i, j | 0 <= i < j < |q.nullFlags|
        ensures |q.nullFlags[i]| == |q.nullFlags[j]|
      {
        assert q.nullFlags[i] == RowFlags(o.table.rows[i]) && q.nullFlags[j] == RowFlags(o.table.rows[j]);
      }
    }
  }

  /** The result set and the null flags have the shape of the server's table; the field names are the
      server's; a cell shows the bytes sent, or nothing when it is NULL; and IsValueNull is true exactly
      for the NULL cells. A refused query leaves its error and nothing else. */
  lemma NativeRowsAgree(v: Value, raw: Id, table: Table, number: int, message: string)
    requires TableOk(table)
    ensures Queried(v, raw, Refused(number, message)) == Value([], [], [], number, message, 0, false, None)
    ensures var q := Queried(v, raw, Rows(table));
            Rectangular(q.nullFlags)
            && q.names == table.names && q.hasValue && q.errorMessage == "" && q.errorNumber == v.errorNumber
            && |q.rows| == |q.nullFlags| == |table.rows|
            && (forall r :: 0 <= r < |table.rows| ==> |q.rows[r]| == |q.nullFlags[r]| == |table.names|)
            && (forall r, c :: 0 <= r < |table.rows| && 0 <= c < |table.names| ==>
                  q.rows[r][c].text == match table.rows[r][c] case None => "" case Some(bytes) => bytes)
            && (forall r: nat, c: nat ::
                  IsNull(q, r, c) <==> r < |table.rows| && c < |table.names| && table.rows[r][c].None?)
  {
    QueriedOk(v, raw, Rows(table));
    var q := Queried(v, raw, Rows(table));
    forall r | 0 <= r < |table.rows|
      ensures q.rows[r] == RowViews(raw, table.rows[r]) && q.nullFlags[r] == RowFlags(table.rows[r])
    {
    }
  }

  // ---------- the error number ----------

  // A MysqlResults used for one query after the other.
  function QueriedAll(v: Value, outcomes: seq<Outcome>): Value {
    if outcomes == [] then v
    else Queried(QueriedAll(v, outcomes[..|outcomes| - 1]), 0, outcomes[|outcomes| - 1])
  }

  // Every later query succeeded.
  predicate LastRefusal(outcomes: seq<Outcome>, i: nat) {
    i < |outcomes| && outcomes[i].Refused? && forall j :: i < j < |outcomes| ==> outcomes[j].Rows?
  }

  /** The error number is that of the last refused query, however many queries have succeeded since:
      only an object that never failed, or last failed with number 0, is OK. */
  lemma {:induction false} ErrorSticks(v: Value, outcomes: seq<Outcome>, i: nat)
    ensures LastRefusal(outcomes, i) ==> QueriedAll(v, outcomes).errorNumber == outcomes[i].number
    ensures (forall j :: 0 <= j < |outcomes| ==> outcomes[j].Rows?) ==>
              QueriedAll(v, outcomes).errorNumber == v.errorNumber
    ensures outcomes != [] ==> (QueriedAll(v, outcomes).hasValue <==> outcomes[|outcomes| - 1].Rows?)
  {
    if outcomes != [] {
      var front := outcomes[..|outcomes| - 1];
      ErrorSticks(v, front, i);
      if LastRefusal(outcomes, i) && i < |front| {
        assert LastRefusal(front, i);
      }
    }
  }

  // ---------- any number of objects ----------

  // lost: raw results that a move assignment overwrote.
  datatype World = World(objects: map<Id, Value>, store: Store, lost: set<Id>)

  datatype Op =
    | Create(x: Id)
    | Query(x: Id, outcome: Outcome)
    | Clear(x: Id)
    | MoveConstruct(x: Id, from: Id)
    | MoveAssign(x: Id, from: Id)
    | Destroy(x: Id)

  predicate Enabled(w: World, op: Op) {
    match op
    case Create(x) => x !in w.objects
    case Query(x, o) => x in w.objects && (o.Rows? ==> TableOk(o.table))
    case Clear(x) => x in w.objects
    case MoveConstruct(x, from) => x !in w.objects && from in w.objects
    case MoveAssign(x, from) => x in w.objects && from in w.objects
    case Destroy(x) => x in w.objects
  }

  predicate Owner(w: World, x: Id, id: Id) {
    x in w.objects && w.objects[x].mysqlRes == Some(id)
  }

  // Never freed and owned by one object, or freed once and by now nobody's.
  ghost predicate Accounted(w: World, id: Id)
    requires id in w.store.raws
  {
    if w.store.raws[id].frees == 0 then id in w.lost || exists x :: Owner(w, x, id)
    else w.store.raws[id].frees == 1 && id !in w.lost
  }

  predicate OwnerOk(w: World, x: Id, id: Id) {
    Owner(w, x, id) ==> Live(w.store, id) && id !in w.lost
  }

  ghost predicate Inv(w: World) {
    StoreOk(w.store)
    && (forall x :: x in w.objects ==> ValueOk(w.objects[x]))
    && (forall x, id {:trigger Owner(w, x, id)} {:trigger OwnerOk(w, x, id)} :: OwnerOk(w, x, id))
    && (forall x, y, id :: Owner(w, x, id) && Owner(w, y, id) ==> x == y)
    && (forall id {:trigger Accounted(w, id)} :: id in w.store.raws ==> Accounted(w, id))
    && (forall id :: id in w.lost ==> id in w.store.raws)
  }

  // The object's raw result is known to the library; true in every reachable world.
  predicate Held(w: World, x: Id) {
    x in w.objects && (w.objects[x].mysqlRes.Some? ==> w.objects[x].mysqlRes.value in w.store.raws)
  }

  function Apply(w: World, op: Op): World
    requires Enabled(w, op)
  {
    match op
    case Create(x) => w.(objects := w.objects[x := EMPTY])
    case Query(x, o) =>
      w.(objects := w.objects[x := Queried(w.objects[x], w.store.next, o)],
         store := StoreAfterQuery(w.store, w.objects[x], o))
    case Clear(x) =>
      w.(objects := w.objects[x := Cleared(w.objects[x])], store := Freed(w.store, w.objects[x].mysqlRes))
    case MoveConstruct(x, from) =>
      w.(objects := w.objects[x := MovedTo(EMPTY, w.objects[from])][from := MovedFrom(w.objects[from])])
    case MoveAssign(x, from) =>
      if x == from then w
      else
        w.(objects := w.objects[x := MovedTo(w.objects[x], w.objects[from])][from := MovedFrom(w.objects[from])],
           lost := w.lost + Overwritten(w.objects[x].mysqlRes))
    case Destroy(x) => w.(objects := w.objects - {x}, store := Freed(w.store, w.objects[x].mysqlRes))
  }

  function Overwritten(res: Option<Id>): set<Id> {
    if res.Some? then {res.value} else {}
  }

  const START := World(map[], Store(map[], 0), {})

  // Clear, and the first half of a query or of a destruction.
  function Released(w: World, x: Id, v: Value): World
    requires Held(w, x)
  {
    w.(objects := w.objects[x := v], store := Freed(w.store, w.objects[x].mysqlRes))
  }

  lemma ReleasedOk(w: World, x: Id, v: Value)
    requires Inv(w) && x in w.objects && ValueOk(v) && v.mysqlRes == None
    ensures Held(w, x) && Inv(Released(w, x, v))
  {
    assert w.objects[x].mysqlRes.Some? ==> Owner(w, x, w.objects[x].mysqlRes.value);
    var w' := Released(w, x, v);
    forall y, id
      ensures Owner(w', y, id) ==> Owner(w, y, id) && y != x
      ensures OwnerOk(w', y, id)
    {
      if Owner(w', y, id) {
        assert Owner(w, y, id);
      }
    }
    forall id | id in w'.store.raws
      ensures Accounted(w', id)
    {
      assert Accounted(w, id);
      if y :| Owner(w, y, id) && y != x {
        assert Owner(w', y, id);
      }
    }
  }

  // A fresh raw result for an object that holds none.
  lemma StoredOk(w: World, x: Id, table: Table, v: Value)
    requires Inv(w) && x in w.objects && w.objects[x].mysqlRes == None
    requires ValueOk(v) && v.mysqlRes == Some(w.store.next)
    ensures Inv(w.(objects := w.objects[x := v], store := Stored(w.store, table)))
  {
    var w' := w.(objects := w.objects[x := v], store := Stored(w.store, table));
    assert Owner(w', x, w.store.next);
    forall y, id
      ensures Owner(w', y, id) ==> (y == x && id == w.store.next) || Owner(w, y, id)
      ensures OwnerOk(w', y, id)
    {
      if Owner(w', y, id) && y != x {
        assert Owner(w, y, id);
      }
    }
    forall id | id in w'.store.raws
      ensures Accounted(w', id)
    {
      if id != w.store.next {
        assert Accounted(w, id);
        if y :| Owner(w, y, id) {
          assert Owner(w', y, id);
        }
      }
    }
  }

  // What from holds goes to x; what x held, if anything, is lost.
  lemma MovedOk(w: World, x: Id, from: Id, target: Value)
    requires Inv(w) && from in w.objects && x != from
    requires target == if x in w.objects then w.objects[x] else EMPTY
    ensures Inv(w.(objects := w.objects[x := MovedTo(target, w.objects[from])][from := MovedFrom(w.objects[from])],
                   lost := w.lost + Overwritten(target.mysqlRes)))
  {
    var w' := w.(objects := w.objects[x := MovedTo(target, w.objects[from])][from := MovedFrom(w.objects[from])],
                 lost := w.lost + Overwritten(target.mysqlRes));
    assert target.mysqlRes.Some? ==> Owner(w, x, target.mysqlRes.value);
    forall y, id
      ensures Owner(w', y, id) ==> if y == x then Owner(w, from, id) else y != from && Owner(w, y, id)
      ensures OwnerOk(w', y, id)
    {
      if Owner(w', y, id) {
        assert Owner(w, if y == x then from else y, id);
      }
    }
    forall id | id in w'.store.raws
      ensures Accounted(w', id)
    {
      assert Accounted(w, id);
      if y :| Owner(w, y, id) && y != x {
        assert Owner(w', if y == from then x else y, id);
      }
    }
  }

  lemma DestroyedOk(w: World, x: Id)
    requires Inv(w) && Enabled(w, Destroy(x))
    ensures Inv(Apply(w, Destroy(x)))
  {
    ReleasedOk(w, x, EMPTY);
    var w1, w2 := Released(w, x, EMPTY), Apply(w, Destroy(x));
    forall y, id
      ensures Owner(w1, y, id) <==> Owner(w2, y, id)
      ensures OwnerOk(w2, y, id)
    {
      assert OwnerOk(w1, y, id);
    }
    forall id | id in w2.store.raws
      ensures Accounted(w2, id)
    {
      assert Accounted(w1, id);
      if y :| Owner(w1, y, id) {
        assert Owner(w2, y, id);
      }
    }
  }

  lemma ApplyKeeps(w: World, op: Op)
    requires Inv(w) && Enabled(w, op)
    ensures Inv(Apply(w, op))
  {
    match op
    case Create(x) =>
      forall y, id
        ensures Owner(Apply(w, op), y, id) <==> Owner(w, y, id)
        ensures OwnerOk(Apply(w, op), y, id)
      {
        assert OwnerOk(w, y, id);
      }
      forall id | id in w.store.raws
        ensures Accounted(Apply(w, op), id)
      {
        assert Accounted(w, id);
        if y :| Owner(w, y, id) {
          assert Owner(Apply(w, op), y, id);
        }
      }
    case Query(x, o) =>
      QueriedOk(w.objects[x], w.store.next, o);
      match o {
        case Refused(_, _) => ReleasedOk(w, x, Queried(w.objects[x], w.store.next, o));
        case Rows(table) =>
          ReleasedOk(w, x, EMPTY);
          var w1 := Released(w, x, EMPTY);
          StoredOk(w1, x, table, Queried(w.objects[x], w.store.next, o));
          assert Apply(w, op).objects == w1.objects[x := Queried(w.objects[x], w.store.next, o)];
      }
    case Clear(x) => ReleasedOk(w, x, Cleared(w.objects[x]));
    case MoveConstruct(x, from) =>
      MovedOk(w, x, from, EMPTY);
      assert w.lost + Overwritten(None) == w.lost;
    case MoveAssign(x, from) =>
      if x != from {
        MovedOk(w, x, from, w.objects[x]);
      }
    case Destroy(x) => DestroyedOk(w, x);
  }

  // Any sequence of operations on any number of objects.
  ghost predicate Run(worlds: seq<World>, ops: seq<Op>) {
    |worlds| == |ops| + 1 && worlds[0] == START
    && forall i :: 0 <= i < |ops| ==> Follows(worlds[i], ops[i], worlds[i + 1])
  }

  ghost predicate Follows(w: World, op: Op, w': World) {
    Enabled(w, op) && w' == Apply(w, op)
  }

  lemma {:induction false} RunHolds(worlds: seq<World>, ops: seq<Op>, i: nat)
    requires Run(worlds, ops) && i < |worlds|
    ensures Inv(worlds[i])
  {
    if i == 0 {
      forall x, id
        ensures OwnerOk(START, x, id)
      {
      }
    } else {
      RunHolds(worlds, ops, i - 1);
      assert Follows(worlds[i - 1], ops[i - 1], worlds[i]);
      ApplyKeeps(worlds[i - 1], ops[i - 1]);
    }
  }

  /** No raw result has two owners or is freed twice, and an owned one has not been freed. */
  lemma SingleOwnership(worlds: seq<World>, ops: seq<Op>, i: nat, id: Id, x: Id, y: Id)
    requires Run(worlds, ops) && i < |worlds|
    ensures id in worlds[i].store.raws ==> worlds[i].store.raws[id].frees <= 1
    ensures Owner(worlds[i], x, id) ==> Live(worlds[i].store, id)
    ensures Owner(worlds[i], x, id) && Owner(worlds[i], y, id) ==> x == y
  {
    RunHolds(worlds, ops, i);
    assert OwnerOk(worlds[i], x, id);
    if id in worlds[i].store.raws {
      assert Accounted(worlds[i], id);
    }
  }

  /** Every string view in a result set points into an unfreed raw result of that same object. */
  lemma ViewsAreValid(worlds: seq<World>, ops: seq<Op>, i: nat, x: Id, r: nat, c: nat)
    requires Run(worlds, ops) && i < |worlds| && x in worlds[i].objects
    requires r < |worlds[i].objects[x].rows| && c < |worlds[i].objects[x].rows[r]|
    ensures var view := worlds[i].objects[x].rows[r][c];
            view.raw.Some? ==> Owner(worlds[i], x, view.raw.value) && Live(worlds[i].store, view.raw.value)
  {
    RunHolds(worlds, ops, i);
    var v := worlds[i].objects[x];
    assert ValueOk(v);
    assert v.mysqlRes.Some? ==> OwnerOk(worlds[i], x, v.mysqlRes.value);
  }

  /** Conservation: a raw result is either owned, or freed, or was overwritten by a move assignment,
      and only one of the three. */
  lemma Conservation(worlds: seq<World>, ops: seq<Op>, i: nat, id: Id)
    requires Run(worlds, ops) && i < |worlds| && id in worlds[i].store.raws
    ensures var w := worlds[i];
            (exists x :: Owner(w, x, id)) <==> w.store.raws[id].frees == 0 && id !in w.lost
    ensures var w := worlds[i];
            id in w.lost ==> w.store.raws[id].frees == 0
  {
    RunHolds(worlds, ops, i);
    assert Accounted(worlds[i], id);
    if x :| Owner(worlds[i], x, id) {
      assert OwnerOk(worlds[i], x, id);
    }
  }

  /** A step loses a raw result exactly when it is a move assignment to another object that holds it. */
  lemma LostIff(w: World, op: Op, id: Id)
    requires Inv(w) && Enabled(w, op)
    ensures id in Apply(w, op).lost && id !in w.lost
       <==> op.MoveAssign? && op.x != op.from && Owner(w, op.x, id)
  {
    if op.MoveAssign? {
      assert OwnerOk(w, op.x, id);
    }
  }

  // ---------- where the result of a query goes ----------

  // The object shows this table: every cell's text, every NULL, the field names.
  ghost predicate Shows(v: Value, table: Table) {
    v.hasValue && v.names == table.names && Rectangular(v.nullFlags)
    && |v.rows| == |table.rows|
    && (forall r :: 0 <= r < |table.rows| ==> |v.rows[r]| == |table.rows[r]| == |table.names|)
    && (forall r, c :: 0 <= r < |table.rows| && 0 <= c < |table.names| ==>
          v.rows[r][c].text == match table.rows[r][c] case None => "" case Some(bytes) => bytes)
    && (forall r: nat, c: nat ::
          IsNull(v, r, c) <==> r < |table.rows| && c < |table.names| && table.rows[r][c].None?)
  }

  predicate ShowsNothing(v: Value) {
    v.rows == [] && v.names == [] && v.nullFlags == [] && v.mysqlRes == None
  }

  // The object shows how this query ended.
  ghost predicate Tells(v: Value, o: Outcome) {
    match o
    case Refused(_, message) => !v.hasValue && ShowsNothing(v) && v.errorMessage == message
    case Rows(table) => Shows(v, table) && v.errorMessage == ""
  }

  // Where the result that h holds is after op.
  function Onward(h: Id, op: Op): Option<Id> {
    match op
    case Create(_) => Some(h)
    case Query(y, _) => if y == h then None else Some(h)
    case Clear(y) => if y == h then None else Some(h)
    case Destroy(y) => if y == h then None else Some(h)
    case MoveConstruct(y, from) => if from == h then Some(y) else Some(h)
    case MoveAssign(y, from) => if from == h then Some(y) else if y == h then None else Some(h)
  }

  // Who holds, before operation i, what operation k left in x.
  function Holder(ops: seq<Op>, k: nat, i: nat, x: Id): Option<Id>
    requires k < i <= |ops|
  {
    if i == k + 1 then Some(x)
    else match Holder(ops, k, i - 1, x)
         case None => None
         case Some(h) => Onward(h, ops[i - 1])
  }

  lemma QueriedTells(v: Value, raw: Id, o: Outcome)
    requires o.Rows? ==> TableOk(o.table)
    ensures Tells(Queried(v, raw, o), o)
  {
    match o
    case Refused(_, _) =>
    case Rows(table) => NativeRowsAgree(v, raw, table, 0, "");
  }

  lemma SameTells(v: Value, v': Value, o: Outcome)
    requires Tells(v, o) && v' == v.(errorNumber := v'.errorNumber)
    ensures Tells(v', o)
  {
    if o.Rows? {
      assert forall r: nat, c: nat :: IsNull(v', r, c) == IsNull(v, r, c);
    }
  }

  /** The result of a query goes where the moves take it: whoever holds it shows every cell, every NULL
      and the field names, or the message of the refusal, after any operations on any objects. */
  lemma {:induction false} HolderTells(worlds: seq<World>, ops: seq<Op>, k: nat, i: nat, x: Id, o: Outcome)
    requires Run(worlds, ops) && k < i <= |ops| && ops[k] == Query(x, o)
    ensures Holder(ops, k, i, x).Some? ==>
              Holder(ops, k, i, x).value in worlds[i].objects
              && Tells(worlds[i].objects[Holder(ops, k, i, x).value], o)
  {
    assert Follows(worlds[i - 1], ops[i - 1], worlds[i]);
    if i == k + 1 {
      QueriedTells(worlds[k].objects[x], worlds[k].store.next, o);
    } else {
      HolderTells(worlds, ops, k, i - 1, x, o);
      if Holder(ops, k, i, x).Some? {
        var h, h' := Holder(ops, k, i - 1, x).value, Holder(ops, k, i, x).value;
        SameTells(worlds[i - 1].objects[h], worlds[i].objects[h'], o);
      }
    }
  }

  /** Nobody else owns the raw result: its owner is the object the moves have taken it to, and it has
      none once that object was queried, cleared, destroyed or moved onto. */
  lemma {:induction false} HolderOwns(worlds: seq<World>, ops: seq<Op>, k: nat, i: nat, x: Id, table: Table, y: Id)
    requires Run(worlds, ops) && k < i <= |ops| && ops[k] == Query(x, Rows(table))
    ensures worlds[k].store.next < worlds[i].store.next
    ensures Owner(worlds[i], y, worlds[k].store.next) <==> Holder(ops, k, i, x) == Some(y)
  {
    var w, op, raw := worlds[i - 1], ops[i - 1], worlds[k].store.next;
    assert Follows(w, op, worlds[i]);
    if i == k + 1 {
      RunHolds(worlds, ops, k);
      assert OwnerOk(w, y, raw);
    } else {
      HolderOwns(worlds, ops, k, i - 1, x, table, y);
      if op.MoveConstruct? || op.MoveAssign? {
        HolderOwns(worlds, ops, k, i - 1, x, table, op.from);
      }
    }
  }

  // Operation k queries path[0]; the operations after it move the result along the path.
  predicate MovesAlong(ops: seq<Op>, k: nat, path: seq<Id>, table: Table) {
    path != [] && k + |path| <= |ops| && ops[k] == Query(path[0], Rows(table))
    && forall m :: 0 <= m < |path| - 1 ==>
         ops[k + 1 + m] == MoveConstruct(path[m + 1], path[m]) || ops[k + 1 + m] == MoveAssign(path[m + 1], path[m])
  }

  /** After a query and any chain of moves, the last object shows exactly the server's table. All the
      others on the path show no row, no name and no NULL, and still say that they have a value. */
  lemma {:induction false} ResultTravels(worlds: seq<World>, ops: seq<Op>, k: nat, path: seq<Id>, table: Table)
    requires Run(worlds, ops) && MovesAlong(ops, k, path, table)
    ensures var w, last := worlds[k + |path|], path[|path| - 1];
            last in w.objects && Shows(w.objects[last], table)
            && forall m :: 0 <= m < |path| && path[m] != last ==>
                 path[m] in w.objects && ShowsNothing(w.objects[path[m]]) && w.objects[path[m]].hasValue
  {
    var i := k + |path|;
    assert Follows(worlds[i - 1], ops[i - 1], worlds[i]);
    if |path| == 1 {
      QueriedTells(worlds[k].objects[path[0]], worlds[k].store.next, Rows(table));
    } else {
      var before := path[..|path| - 1];
      assert MovesAlong(ops, k, before, table);
      ResultTravels(worlds, ops, k, before, table);
      assert ops[k + 1 + (|path| - 2)] == ops[i - 1];
      forall m | 0 <= m < |path| && path[m] != path[|path| - 1]
        ensures path[m] in worlds[i].objects && ShowsNothing(worlds[i].objects[path[m]])
                && worlds[i].objects[path[m]].hasValue
      {
        assert path[m] == before[m];
      }
    }
  }

  // Operation op gives y this error number: a refused query, or y's construction.
  function NumberSet(op: Op, y: Id): Option<int> {
    match op
    case Create(x) => if x == y then Some(0) else None
    case MoveConstruct(x, _) => if x == y then Some(0) else None
    case Query(x, Refused(number, _)) => if x == y then Some(number) else None
    case _ => None
  }

  /** The error number does not travel with the message: whatever is moved into or out of an object, its
      number is that of its own last refused query, or 0 if it had none since it was constructed. */
  lemma {:induction false} ErrorStaysBehind(worlds: seq<World>, ops: seq<Op>, k: nat, i: nat, y: Id)
    requires Run(worlds, ops) && k < i <= |ops| && NumberSet(ops[k], y).Some?
    requires forall j :: k < j < i ==> NumberSet(ops[j], y).None? && ops[j] != Destroy(y)
    ensures y in worlds[i].objects && worlds[i].objects[y].errorNumber == NumberSet(ops[k], y).value
  {
    assert Follows(worlds[i - 1], ops[i - 1], worlds[i]);
    if i > k + 1 {
      ErrorStaysBehind(worlds, ops, k, i - 1, y);
    }
  }
}
