/**
 * The `flights` DynamoDB table, reduced to what the core relies on: a map
 * from the composite key (FlightID, SortKey) to the row's other attributes,
 * `put_item` (replace the row at its key), `get_item` (point lookup) and
 * `update_item` with `SET a = a + :v` (increment existing numeric
 * attributes). Throttling and other service errors come from a queue of
 * error codes that the next write attempts raise, in order.
 */
module Store {
  import opened Wrappers

  /** A DynamoDB attribute value: a string (`S`) or a number (`N`). */
  datatype Value = S(s: string) | N(n: int)

  /** The table's composite primary key. */
  datatype Key = Key(flightId: string, sortKey: string)

  /** The attributes of a row other than the two key attributes. */
  type Attrs = map<string, Value>

  /** An item handed to `put_item`: its key and its other attributes. */
  datatype Item = Item(key: Key, attrs: Attrs)

  type Rows = map<Key, Attrs>

  /**
   * A snapshot of the table: its rows, the error codes pending for the next
   * write attempts, and (for proofs only) how many puts were attempted and
   * which items were written, in order.
   */
  datatype DbState = DbState(rows: Rows, faults: seq<string>, putAttempts: nat, written: seq<Item>)

  /** The `SortKey` of a route's metadata row. */
  const DETAILS := "details"
  /** The `SortKey` of a route's aggregate row. */
  const TOTAL_AGG := "total_agg"

  /** The error DynamoDB raises when an update expression reads a missing or non-numeric attribute. */
  const VALIDATION := "ValidationException"

  function Lookup(rows: Rows, key: Key): (r: Option<Attrs>)
    ensures r.Some? <==> key in rows
    ensures r.Some? ==> r.value == rows[key]
  {
    if key in rows then Some(rows[key]) else None
  }

  /** True when every attribute named in `deltas` exists in `row` and holds a number. */
  predicate Incrementable(row: Attrs, deltas: map<string, int>) {
    forall f :: f in deltas ==> f in row && row[f].N?
  }

  /**
   * The row that `SET f = f + :v, ...` leaves: each attribute named in
   * `deltas` grows by its delta and every other attribute stays as it was.
   * A missing row or a missing or non-numeric attribute is a ValidationException.
   */
  function Increment(row: Option<Attrs>, deltas: map<string, int>): (r: Result<Attrs, string>)
    ensures r.Failure? <==> row.None? || !Incrementable(row.value, deltas)
    ensures r.Failure? ==> r.error == VALIDATION
    ensures r.Success? ==> r.value.Keys == row.value.Keys
    ensures r.Success? ==> forall f :: f in deltas ==> r.value[f] == N(row.value[f].n + deltas[f])
    ensures r.Success? ==> forall f :: f in row.value && f !in deltas ==> r.value[f] == row.value[f]
  {
    if row.None? || !Incrementable(row.value, deltas) then Failure(VALIDATION)
    else
      var current := row.value;
      Success(map f | f in current :: if f in deltas then N(current[f].n + deltas[f]) else current[f])
  }

  /** One `put_item` attempt: raise the next pending error, or replace the row at the item's key. */
  function Put(s: DbState, item: Item): (DbState, Option<string>) {
    if s.faults != [] then
      (s.(faults := s.faults[1..], putAttempts := s.putAttempts + 1), Some(s.faults[0]))
    else
      (s.(rows := s.rows[item.key := item.attrs], putAttempts := s.putAttempts + 1,
          written := s.written + [item]), None)
  }

  /**
   * One `update_item` with `ReturnValues="UPDATED_NEW"`: raise the next pending
   * error, or increment the row and return the new values of the updated attributes.
   */
  function Update(s: DbState, key: Key, deltas: map<string, int>): (r: (DbState, Result<Attrs, string>))
    ensures r.1.Failure? ==> r.0.rows == s.rows
    ensures s.faults == [] ==> (r.1.Failure? <==> Increment(Lookup(s.rows, key), deltas).Failure?)
    ensures r.1.Success? ==> var row := Increment(Lookup(s.rows, key), deltas);
      row.Success? && r.0.rows == s.rows[key := row.value]
    ensures r.1.Success? ==> s.faults == [] && key in s.rows && key in r.0.rows
    ensures r.1.Success? ==> r.1.value.Keys == deltas.Keys
    ensures r.1.Success? ==> forall f :: f in deltas ==> f in r.0.rows[key] && r.1.value[f] == r.0.rows[key][f]
    ensures forall k :: k != key ==> Lookup(r.0.rows, k) == Lookup(s.rows, k)
  {
    if s.faults != [] then (s.(faults := s.faults[1..]), Failure(s.faults[0]))
    else
      match Increment(Lookup(s.rows, key), deltas)
      case Failure(e) => (s, Failure(e))
      case Success(row) => (s.(rows := s.rows[key := row]), Success(map f | f in deltas :: row[f]))
  }

  class Store {
    var rows: Rows
    /** Error codes that the next write attempts raise, in order (the throttling environment). */
    var faults: seq<string>
    ghost var putAttempts: nat
    ghost var written: seq<Item>

    ghost function State(): DbState
      reads this
    {
      DbState(rows, faults, putAttempts, written)
    }

    constructor (initialRows: Rows, pendingFaults: seq<string>)
      ensures State() == DbState(initialRows, pendingFaults, 0, [])
    {
      rows := initialRows;
      faults := pendingFaults;
      putAttempts := 0;
      written := [];
    }

    /** `get_item`: the row at `key`, if any. */
    function GetItem(key: Key): (r: Option<Attrs>)
      reads this
      ensures r.Some? <==> key in rows
      ensures r.Some? ==> r.value == rows[key]
    {
      Lookup(rows, key)
    }

    method PutItem(item: Item) returns (err: Option<string>)
      modifies this
      ensures (State(), err) == Put(old(State()), item)
    {
      putAttempts := putAttempts + 1;
      if faults != [] {
        err := Some(faults[0]);
        faults := faults[1..];
      } else {
        rows := rows[item.key := item.attrs];
        written := written + [item];
        err := None;
      }
    }

    method UpdateItem(key: Key, deltas: map<string, int>) returns (r: Result<Attrs, string>)
      modifies this
      ensures (State(), r) == Update(old(State()), key, deltas)
    {
      if faults != [] {
        r := Failure(faults[0]);
        faults := faults[1..];
        return;
      }
      var incremented := Increment(GetItem(key), deltas);
      match incremented {
        case Failure(e) =>
          r := Failure(e);
        case Success(row) =>
          rows := rows[key := row];
          r := Success(map f | f in deltas :: row[f]);
      }
    }
  }
}
