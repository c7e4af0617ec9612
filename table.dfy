/**
 * The download job's table wrapper (`DynamoDBTable` and its subclass
 * `FlightsTable`, merged into one class): `write_item`, a put retried with
 * doubling back-off on throughput errors; `write_batch`, which seeds a
 * route's `details` and zeroed `total_agg` rows the first time the route is
 * seen and always writes the price row; and `query_items`, which
 * concatenates the pages of a paginated query.
 */
module Table {
  import opened Wrappers
  import opened Store
  import Text
  import Seqs

  /** The error code `write_item` retries on; every other code is raised at once. */
  const THROTTLED := "ProvisionedThroughputExceededException"

  /** A parsed trip (the `Flight` named tuple): the route row and the price row. */
  datatype Flight = Flight(routeDetails: Item, flightDetails: Item)

  /**
   * A snapshot of a `FlightsTable` and the table under it: the store, the
   * delays slept so far, and every batch handed to `write_batch`, in order.
   */
  datatype TableState = TableState(db: DbState, sleeps: seq<nat>, batches: seq<seq<Flight>>)

  function Pow2(i: nat): (p: nat)
    ensures p >= 1
  {
    if i == 0 then 1 else 2 * Pow2(i - 1)
  }

  function Min(a: nat, b: nat): nat {
    if a <= b then a else b
  }

  // ---------------------------------------------------------------------------
  // write_item

  /** The number of throughput errors at the head of the pending faults. */
  function LeadingThrottles(faults: seq<string>): (k: nat)
    ensures k <= |faults|
  {
    if faults == [] || faults[0] != THROTTLED then 0 else 1 + LeadingThrottles(faults[1..])
  }

  /** The first `LeadingThrottles(faults)` faults are throughput errors, and the next one is not. */
  lemma {:induction false} LeadingThrottlesSpec(faults: seq<string>)
    ensures var k := LeadingThrottles(faults);
      && (forall j :: 0 <= j < k ==> faults[j] == THROTTLED)
      && (k < |faults| ==> faults[k] != THROTTLED)
    decreases |faults|
  {
    if faults != [] && faults[0] == THROTTLED {
      LeadingThrottlesSpec(faults[1..]);
      var k := LeadingThrottles(faults);
      forall j | 0 <= j < k ensures faults[j] == THROTTLED {
        if j > 0 {
          assert faults[j] == faults[1..][j - 1];
        }
      }
    }
  }

  lemma {:induction false} LeadingThrottlesAtLeast(faults: seq<string>, m: nat)
    requires m <= |faults| && forall j :: 0 <= j < m ==> faults[j] == THROTTLED
    ensures LeadingThrottles(faults) >= m
    decreases m
  {
    if m > 0 {
      assert forall j :: 0 <= j < m - 1 ==> faults[1..][j] == faults[j + 1];
      LeadingThrottlesAtLeast(faults[1..], m - 1);
    }
  }

  lemma {:induction false} LeadingThrottlesExact(faults: seq<string>, m: nat)
    requires m <= |faults| && forall j :: 0 <= j < m ==> faults[j] == THROTTLED
    requires m == |faults| || faults[m] != THROTTLED
    ensures LeadingThrottles(faults) == m
    decreases m
  {
    if m > 0 {
      assert forall j :: 0 <= j < m - 1 ==> faults[1..][j] == faults[j + 1];
      LeadingThrottlesExact(faults[1..], m - 1);
    }
  }

  /** The error `write_item` re-raises, or None when one of its puts went through. */
  function WriteError(faults: seq<string>, retries: nat): Option<string> {
    var k := LeadingThrottles(faults);
    if k > retries then Some(THROTTLED)
    else if k < |faults| then Some(faults[k])
    else None
  }

  /** The delays slept before the first `n` retries: `backoff * 2 ** i` before retry `i`. */
  function Backoffs(backoff: nat, n: nat): (r: seq<nat>)
    ensures |r| == n
  {
    if n == 0 then [] else Backoffs(backoff, n - 1) + [backoff * Pow2(n - 1)]
  }

  /**
   * The table after `write_item(item)`, in closed form: the retries consume
   * the leading throughput errors (at most `retries` of them), the last
   * attempt either raises the next fault or writes the item, and one delay is
   * slept per retry.
   */
  function WriteItemSpec(t: TableState, item: Item, backoff: nat, retries: nat): (TableState, Option<string>) {
    var f := t.db.faults;
    var k := Min(LeadingThrottles(f), retries);
    var err := WriteError(f, retries);
    var consumed := if err.None? then k else k + 1;
    var db := DbState(
      if err.None? then t.db.rows[item.key := item.attrs] else t.db.rows,
      f[consumed..],
      t.db.putAttempts + k + 1,
      if err.None? then t.db.written + [item] else t.db.written);
    (TableState(db, t.sleeps + Backoffs(backoff, k), t.batches), err)
  }

  /**
   * Where `write_item` stops after `i` throttled attempts: the put goes
   * through when no fault is left, and the next fault is raised when it is
   * not a throughput error or when the retries are used up.
   */
  lemma WriteItemStopsAt(t: TableState, item: Item, backoff: nat, retries: nat, i: nat)
    requires i <= retries && i <= LeadingThrottles(t.db.faults)
    ensures i == |t.db.faults| ==>
      WriteItemSpec(t, item, backoff, retries) ==
        (TableState(DbState(t.db.rows[item.key := item.attrs], [], t.db.putAttempts + i + 1, t.db.written + [item]),
                    t.sleeps + Backoffs(backoff, i), t.batches), None)
    ensures i < |t.db.faults| && (t.db.faults[i] != THROTTLED || i == retries) ==>
      WriteItemSpec(t, item, backoff, retries) ==
        (TableState(DbState(t.db.rows, t.db.faults[i + 1..], t.db.putAttempts + i + 1, t.db.written),
                    t.sleeps + Backoffs(backoff, i), t.batches), Some(t.db.faults[i]))
  {
    var f := t.db.faults;
    var l := LeadingThrottles(f);
    LeadingThrottlesSpec(f);
    if i == |f| {
      assert l == i && Min(l, retries) == i;
      assert WriteError(f, retries) == None;
      assert f[i..] == [];
    } else if f[i] != THROTTLED {
      assert l == i && Min(l, retries) == i;
      assert WriteError(f, retries) == Some(f[i]);
    } else if i == retries {
      assert l > i;
      assert Min(l, retries) == i;
      assert WriteError(f, retries) == Some(THROTTLED);
    }
  }

  /** A throughput error within the leading run leaves room for one more retry, after one more delay. */
  lemma RetryStep(faults: seq<string>, backoff: nat, i: nat)
    requires i <= LeadingThrottles(faults) && i < |faults| && faults[i] == THROTTLED
    ensures i + 1 <= LeadingThrottles(faults)
    ensures Backoffs(backoff, i + 1) == Backoffs(backoff, i) + [backoff * Pow2(i)]
  {
    LeadingThrottlesSpec(faults);
  }

  /**
   * `write_item` makes at least one and at most `retries + 1` put attempts,
   * and sleeps once before every attempt but the first.
   */
  lemma TriesBounded(t: TableState, item: Item, backoff: nat, retries: nat)
    ensures var t' := WriteItemSpec(t, item, backoff, retries).0;
      && t.db.putAttempts + 1 <= t'.db.putAttempts <= t.db.putAttempts + retries + 1
      && |t'.sleeps| == |t.sleeps| + (t'.db.putAttempts - t.db.putAttempts) - 1
  {
  }

  /**
   * Throughput errors on all of the first `retries + 1` attempts: give up and
   * re-raise that error after exactly `retries + 1` attempts and `retries`
   * delays, without writing anything.
   */
  lemma PersistentThrottlingGivesUp(t: TableState, item: Item, backoff: nat, retries: nat)
    requires retries < |t.db.faults|
    requires forall j :: 0 <= j <= retries ==> t.db.faults[j] == THROTTLED
    ensures var (t', err) := WriteItemSpec(t, item, backoff, retries);
      && err == Some(THROTTLED)
      && t'.db.putAttempts == t.db.putAttempts + retries + 1
      && t'.sleeps == t.sleeps + Backoffs(backoff, retries)
      && t'.db.rows == t.db.rows && t'.db.written == t.db.written
  {
    LeadingThrottlesAtLeast(t.db.faults, retries + 1);
  }

  /**
   * Any other error is re-raised on the attempt that met it, with no retry:
   * attempt `j + 1` is the last, after `j` delays, and nothing is written.
   */
  lemma OtherErrorsAreNotRetried(t: TableState, item: Item, backoff: nat, retries: nat, j: nat)
    requires j <= retries && j < |t.db.faults|
    requires forall i :: 0 <= i < j ==> t.db.faults[i] == THROTTLED
    requires t.db.faults[j] != THROTTLED
    ensures var (t', err) := WriteItemSpec(t, item, backoff, retries);
      && err == Some(t.db.faults[j])
      && t'.db.putAttempts == t.db.putAttempts + j + 1
      && t'.sleeps == t.sleeps + Backoffs(backoff, j)
      && t'.db.rows == t.db.rows && t'.db.written == t.db.written
  {
    LeadingThrottlesExact(t.db.faults, j);
  }

  /** A put that goes through ends `write_item`: the item is written exactly once and nothing else changes. */
  lemma SuccessfulWriteIsSingle(t: TableState, item: Item, backoff: nat, retries: nat)
    requires WriteError(t.db.faults, retries).None?
    ensures var (t', _) := WriteItemSpec(t, item, backoff, retries);
      && t'.db.written == t.db.written + [item]
      && t'.db.rows == t.db.rows[item.key := item.attrs]
      && t'.db.faults == []
      && t'.db.putAttempts == t.db.putAttempts + |t.db.faults| + 1
  {
  }

  lemma {:induction false} BackoffAt(backoff: nat, n: nat, i: nat)
    requires i < n
    ensures Backoffs(backoff, n)[i] == backoff * Pow2(i)
  {
    if i < n - 1 {
      BackoffAt(backoff, n - 1, i);
    }
  }

  /** The delay before a retry is twice the one before the previous retry. */
  lemma BackoffDoubles(backoff: nat, n: nat, i: nat)
    requires i + 1 < n
    ensures Backoffs(backoff, n)[i + 1] == 2 * Backoffs(backoff, n)[i]
  {
    BackoffAt(backoff, n, i);
    BackoffAt(backoff, n, i + 1);
    assert Pow2(i + 1) == 2 * Pow2(i);
    assert backoff * (2 * Pow2(i)) == 2 * (backoff * Pow2(i));
  }

  lemma {:induction false} BackoffsAtLeast(backoff: nat, n: nat, i: nat)
    requires i < n
    ensures Backoffs(backoff, n)[i] >= backoff
    decreases i
  {
    if i == 0 {
      BackoffAt(backoff, n, 0);
    } else {
      BackoffsAtLeast(backoff, n, i - 1);
      BackoffDoubles(backoff, n, i - 1);
    }
  }

  lemma {:induction false} BackoffsIncrease(backoff: nat, n: nat, i: nat, j: nat)
    requires backoff > 0 && i < j < n
    ensures Backoffs(backoff, n)[i] < Backoffs(backoff, n)[j]
    decreases j
  {
    BackoffDoubles(backoff, n, j - 1);
    BackoffsAtLeast(backoff, n, j - 1);
    if i < j - 1 {
      BackoffsIncrease(backoff, n, i, j - 1);
    }
  }

  /** Each delay is twice the one before it, so for a positive back-off the delays strictly increase. */
  lemma BackoffsDouble(backoff: nat, n: nat)
    ensures forall i :: 0 <= i < n - 1 ==> Backoffs(backoff, n)[i + 1] == 2 * Backoffs(backoff, n)[i]
    ensures backoff > 0 ==> forall i, j :: 0 <= i < j < n ==> Backoffs(backoff, n)[i] < Backoffs(backoff, n)[j]
  {
    forall i | 0 <= i < n - 1
      ensures Backoffs(backoff, n)[i + 1] == 2 * Backoffs(backoff, n)[i]
    {
      BackoffDoubles(backoff, n, i);
    }
    if backoff > 0 {
      forall i, j | 0 <= i < j < n
        ensures Backoffs(backoff, n)[i] < Backoffs(backoff, n)[j]
      {
        BackoffsIncrease(backoff, n, i, j);
      }
    }
  }

  // ---------------------------------------------------------------------------
  // write_batch

  /** The zeroed aggregate row `write_batch` seeds for a first-seen route. */
  function AggSeed(id: string): Item {
    Item(Key(id, TOTAL_AGG), map["count_total" := N(0), "price_total" := N(0)])
  }

  function RouteId(f: Flight): string {
    f.routeDetails.key.flightId
  }

  /** The shape `parse_trip` gives a flight: both rows on one route, the price row neither `details` nor `total_agg`. */
  predicate WellFormedFlight(f: Flight) {
    && f.routeDetails.key == Key(RouteId(f), DETAILS)
    && f.flightDetails.key.flightId == RouteId(f)
    && f.flightDetails.key.sortKey != DETAILS
    && f.flightDetails.key.sortKey != TOTAL_AGG
  }

  predicate WellFormedBatch(items: seq<Flight>) {
    forall i :: 0 <= i < |items| ==> WellFormedFlight(items[i])
  }

  /** The next write of a run of writes that stops at the first error. */
  function Then(p: (TableState, Option<string>), item: Item, backoff: nat, retries: nat): (TableState, Option<string>) {
    if p.1.Some? then p else WriteItemSpec(p.0, item, backoff, retries)
  }

  /** One pass of `write_batch`'s loop: seed a route whose `details` row is absent, then write the price row. */
  function ItemStep(t: TableState, f: Flight, backoff: nat, retries: nat): (TableState, Option<string>) {
    var id := RouteId(f);
    if Key(id, DETAILS) !in t.db.rows then
      Then(Then(WriteItemSpec(t, f.routeDetails, backoff, retries), AggSeed(id), backoff, retries),
           f.flightDetails, backoff, retries)
    else
      WriteItemSpec(t, f.flightDetails, backoff, retries)
  }

  /** `write_batch`'s loop over `items`, stopping at the first error raised. */
  function BatchSpec(t: TableState, items: seq<Flight>, backoff: nat, retries: nat): (TableState, Option<string>)
    decreases |items|
  {
    if items == [] then (t, None)
    else
      var (t1, e) := ItemStep(t, items[0], backoff, retries);
      if e.Some? then (t1, e) else BatchSpec(t1, items[1..], backoff, retries)
  }

  /** `json.dumps(f'Successfully uploaded {len(items)} items')`, quotes included. */
  function UploadMessage(n: nat): string {
    "\"Successfully uploaded " + Text.NatToString(n) + " items\""
  }

  /** The table after `write_batch(items)` and what the call returns or raises. */
  function WriteBatchSpec(t: TableState, items: seq<Flight>, backoff: nat, retries: nat): (TableState, Result<string, string>) {
    var (t', e) := BatchSpec(t.(batches := t.batches + [items]), items, backoff, retries);
    (t', if e.Some? then Failure(e.value) else Success(UploadMessage(|items|)))
  }

  /** `write_batch` logs its list once, before any write. */
  lemma WriteBatchLogsOnce(t: TableState, items: seq<Flight>, backoff: nat, retries: nat)
    ensures WriteBatchSpec(t, items, backoff, retries).0.batches == t.batches + [items]
  {
    BatchKeepsLog(t.(batches := t.batches + [items]), items, backoff, retries);
  }

  /** The returned message names the number of items, as a decimal that reads back as `len(items)`. */
  lemma UploadMessageCounts(n: nat)
    ensures exists digits ::
      && Text.AllDigits(digits)
      && Text.DigitsValue(digits) == n
      && UploadMessage(n) == "\"Successfully uploaded " + digits + " items\""
  {
    Text.NatToStringValue(n);
    var digits := Text.NatToString(n);
    assert UploadMessage(n) == "\"Successfully uploaded " + digits + " items\"";
  }

  lemma WriteItemFaultFree(t: TableState, item: Item, backoff: nat, retries: nat)
    requires t.db.faults == []
    ensures WriteItemSpec(t, item, backoff, retries) ==
      (t.(db := t.db.(rows := t.db.rows[item.key := item.attrs], putAttempts := t.db.putAttempts + 1,
                      written := t.db.written + [item])), None)
  {
    assert LeadingThrottles(t.db.faults) == 0;
    assert t.sleeps + Backoffs(backoff, 0) == t.sleeps;
  }

  /**
   * Without store errors, a route whose `details` row is absent gets its
   * details row, then the zeroed `total_agg` row, then the price row.
   */
  lemma SeedStepFaultFree(t: TableState, f: Flight, backoff: nat, retries: nat)
    requires t.db.faults == []
    requires Key(RouteId(f), DETAILS) !in t.db.rows
    ensures ItemStep(t, f, backoff, retries) ==
      (t.(db := t.db.(rows := t.db.rows[f.routeDetails.key := f.routeDetails.attrs]
                                       [Key(RouteId(f), TOTAL_AGG) := AggSeed(RouteId(f)).attrs]
                                       [f.flightDetails.key := f.flightDetails.attrs],
                      putAttempts := t.db.putAttempts + 3,
                      written := t.db.written + [f.routeDetails] + [AggSeed(RouteId(f))] + [f.flightDetails])), None)
  {
    var id := RouteId(f);
    WriteItemFaultFree(t, f.routeDetails, backoff, retries);
    var r1 := WriteItemSpec(t, f.routeDetails, backoff, retries);
    WriteItemFaultFree(r1.0, AggSeed(id), backoff, retries);
    assert Then(r1, AggSeed(id), backoff, retries) == WriteItemSpec(r1.0, AggSeed(id), backoff, retries);
    var r2 := WriteItemSpec(r1.0, AggSeed(id), backoff, retries);
    WriteItemFaultFree(r2.0, f.flightDetails, backoff, retries);
    assert Then(r2, f.flightDetails, backoff, retries) == WriteItemSpec(r2.0, f.flightDetails, backoff, retries);
  }

  /** Without store errors, a route whose `details` row is present gets only its price row. */
  lemma PriceStepFaultFree(t: TableState, f: Flight, backoff: nat, retries: nat)
    requires t.db.faults == []
    requires Key(RouteId(f), DETAILS) in t.db.rows
    ensures ItemStep(t, f, backoff, retries) ==
      (t.(db := t.db.(rows := t.db.rows[f.flightDetails.key := f.flightDetails.attrs],
                      putAttempts := t.db.putAttempts + 1,
                      written := t.db.written + [f.flightDetails])), None)
  {
    WriteItemFaultFree(t, f.flightDetails, backoff, retries);
  }

  lemma ItemStepFaultFree(t: TableState, f: Flight, backoff: nat, retries: nat)
    requires t.db.faults == []
    ensures var (t', e) := ItemStep(t, f, backoff, retries);
      && e.None? && t'.db.faults == [] && t'.batches == t.batches
      && f.flightDetails.key in t'.db.rows && f.flightDetails in t'.db.written
      && t'.db.written[..|t.db.written|] == t.db.written
      && t.db.rows.Keys <= t'.db.rows.Keys
  {
    if Key(RouteId(f), DETAILS) !in t.db.rows {
      SeedStepFaultFree(t, f, backoff, retries);
    } else {
      PriceStepFaultFree(t, f, backoff, retries);
    }
  }

  /** A log that keeps its old entries as a prefix keeps every old entry. */
  lemma PrefixKeepsEntries<T>(a: seq<T>, b: seq<T>, x: T)
    requires |a| <= |b| && b[..|a|] == a && x in a
    ensures x in b
  {
    var j :| 0 <= j < |a| && a[j] == x;
    assert b[j] == x;
  }

  /** Without store errors `write_batch` writes every item and reports success. */
  lemma {:induction false} BatchFaultFree(t: TableState, items: seq<Flight>, backoff: nat, retries: nat)
    requires t.db.faults == []
    ensures var (t', e) := BatchSpec(t, items, backoff, retries);
      && e.None? && t'.db.faults == []
      && (forall i :: 0 <= i < |items| ==> items[i].flightDetails in t'.db.written)
      && (forall i :: 0 <= i < |items| ==> items[i].flightDetails.key in t'.db.rows)
      && |t'.db.written| >= |t.db.written| && t'.db.written[..|t.db.written|] == t.db.written
      && t.db.rows.Keys <= t'.db.rows.Keys
    decreases |items|
  {
    if items != [] {
      var f := items[0];
      ItemStepFaultFree(t, f, backoff, retries);
      var t1 := ItemStep(t, f, backoff, retries).0;
      BatchFaultFree(t1, items[1..], backoff, retries);
      var t' := BatchSpec(t1, items[1..], backoff, retries).0;
      assert BatchSpec(t, items, backoff, retries) == BatchSpec(t1, items[1..], backoff, retries);
      var w, w1, w' := t.db.written, t1.db.written, t'.db.written;
      Seqs.PrefixTransitive(w', w1, w);
      PrefixKeepsEntries(w1, w', f.flightDetails);
      EveryPriceRowWritten(items, w', t'.db.rows);
    }
  }

  /** What holds of the first flight and of every later one holds of every flight. */
  lemma EveryPriceRowWritten(items: seq<Flight>, written: seq<Item>, rows: Rows)
    requires items != []
    requires items[0].flightDetails in written && items[0].flightDetails.key in rows
    requires forall i :: 0 <= i < |items[1..]| ==> items[1..][i].flightDetails in written
    requires forall i :: 0 <= i < |items[1..]| ==> items[1..][i].flightDetails.key in rows
    ensures forall i :: 0 <= i < |items| ==> items[i].flightDetails in written
    ensures forall i :: 0 <= i < |items| ==> items[i].flightDetails.key in rows
  {
    forall i | 0 < i < |items|
      ensures items[i].flightDetails in written && items[i].flightDetails.key in rows
    {
      assert items[i] == items[1..][i - 1];
    }
  }

  /** A write touches at most the written item's row; rows are never removed. */
  lemma WriteItemFrame(t: TableState, item: Item, backoff: nat, retries: nat, k: Key)
    requires k != item.key
    ensures var (t', _) := WriteItemSpec(t, item, backoff, retries);
      Lookup(t'.db.rows, k) == Lookup(t.db.rows, k) && t.db.rows.Keys <= t'.db.rows.Keys
      && t'.batches == t.batches
  {
  }

  /** The rows a flight can write: its route row, its route's aggregate row and its price row. */
  predicate Touches(f: Flight, k: Key) {
    k == f.routeDetails.key || k == Key(RouteId(f), TOTAL_AGG) || k == f.flightDetails.key
  }

  lemma ItemStepFrame(t: TableState, f: Flight, backoff: nat, retries: nat, k: Key)
    requires !Touches(f, k)
    ensures var (t', _) := ItemStep(t, f, backoff, retries);
      Lookup(t'.db.rows, k) == Lookup(t.db.rows, k) && t.db.rows.Keys <= t'.db.rows.Keys
      && t'.batches == t.batches
  {
    var id := RouteId(f);
    if Key(id, DETAILS) !in t.db.rows {
      WriteItemFrame(t, f.routeDetails, backoff, retries, k);
      var (t1, _) := WriteItemSpec(t, f.routeDetails, backoff, retries);
      WriteItemFrame(t1, AggSeed(id), backoff, retries, k);
      var (t2, _) := WriteItemSpec(t1, AggSeed(id), backoff, retries);
      WriteItemFrame(t2, f.flightDetails, backoff, retries, k);
    } else {
      WriteItemFrame(t, f.flightDetails, backoff, retries, k);
    }
  }

  /** `write_batch` leaves every row that no item of the batch can write as it was, whatever the store raises. */
  lemma {:induction false} BatchFrame(t: TableState, items: seq<Flight>, backoff: nat, retries: nat, k: Key)
    requires forall i :: 0 <= i < |items| ==> !Touches(items[i], k)
    ensures var (t', _) := BatchSpec(t, items, backoff, retries);
      Lookup(t'.db.rows, k) == Lookup(t.db.rows, k) && t.db.rows.Keys <= t'.db.rows.Keys
    decreases |items|
  {
    if items != [] {
      ItemStepFrame(t, items[0], backoff, retries, k);
      var (t1, e) := ItemStep(t, items[0], backoff, retries);
      if e.None? {
        BatchFrame(t1, items[1..], backoff, retries, k);
      }
    }
  }

  /** `write_batch` leaves the log of batches alone; only the call itself is logged. */
  lemma {:induction false} BatchKeepsLog(t: TableState, items: seq<Flight>, backoff: nat, retries: nat)
    ensures BatchSpec(t, items, backoff, retries).0.batches == t.batches
    decreases |items|
  {
    if items != [] {
      var f := items[0];
      var id := RouteId(f);
      var (t1, e) := ItemStep(t, f, backoff, retries);
      assert t1.batches == t.batches;
      if e.None? {
        BatchKeepsLog(t1, items[1..], backoff, retries);
      }
    }
  }

  /** Writes only add rows: a route's `details` row stays once it is there. */
  lemma ItemStepKeepsRows(t: TableState, f: Flight, backoff: nat, retries: nat)
    ensures t.db.rows.Keys <= ItemStep(t, f, backoff, retries).0.db.rows.Keys
  {
  }

  /**
   * A route whose `details` row is present is never re-seeded: its
   * `total_agg` row comes out of `write_batch` exactly as it went in, whatever
   * the store raises.
   */
  lemma {:induction false} BatchNeverReseeds(t: TableState, items: seq<Flight>, backoff: nat, retries: nat, id: string)
    requires WellFormedBatch(items)
    requires Key(id, DETAILS) in t.db.rows
    ensures var (t', _) := BatchSpec(t, items, backoff, retries);
      && Lookup(t'.db.rows, Key(id, TOTAL_AGG)) == Lookup(t.db.rows, Key(id, TOTAL_AGG))
      && Key(id, DETAILS) in t'.db.rows
    decreases |items|
  {
    if items != [] {
      var f := items[0];
      assert WellFormedFlight(f);
      var agg := Key(id, TOTAL_AGG);
      var (t1, e) := ItemStep(t, f, backoff, retries);
      ItemStepKeepsRows(t, f, backoff, retries);
      if RouteId(f) == id {
        WriteItemFrame(t, f.flightDetails, backoff, retries, agg);
      } else {
        ItemStepFrame(t, f, backoff, retries, agg);
      }
      if e.None? {
        assert WellFormedBatch(items[1..]) by {
          forall i | 0 <= i < |items[1..]| ensures WellFormedFlight(items[1..][i]) {
            assert items[1..][i] == items[i + 1];
          }
        }
        BatchNeverReseeds(t1, items[1..], backoff, retries, id);
      }
    }
  }

  /**
   * Without store errors, a route of the batch whose `details` row was absent
   * ends with its `details` row and a `total_agg` row of zeroed
   * `count_total` and `price_total`.
   */
  lemma {:induction false} BatchSeedsNewRoutes(t: TableState, items: seq<Flight>, backoff: nat, retries: nat, id: string)
    requires t.db.faults == []
    requires WellFormedBatch(items)
    requires Key(id, DETAILS) !in t.db.rows
    requires exists i :: 0 <= i < |items| && RouteId(items[i]) == id
    ensures var (t', _) := BatchSpec(t, items, backoff, retries);
      && Key(id, DETAILS) in t'.db.rows
      && Lookup(t'.db.rows, Key(id, TOTAL_AGG)) == Some(AggSeed(id).attrs)
    decreases |items|
  {
    var f := items[0];
    assert WellFormedFlight(f);
    ItemStepFaultFree(t, f, backoff, retries);
    var (t1, _) := ItemStep(t, f, backoff, retries);
    assert WellFormedBatch(items[1..]) by {
      forall i | 0 <= i < |items[1..]| ensures WellFormedFlight(items[1..][i]) {
        assert items[1..][i] == items[i + 1];
      }
    }
    if RouteId(f) == id {
      assert Lookup(t1.db.rows, Key(id, TOTAL_AGG)) == Some(AggSeed(id).attrs);
      BatchNeverReseeds(t1, items[1..], backoff, retries, id);
    } else {
      ItemStepFrame(t, f, backoff, retries, Key(id, DETAILS));
      var i :| 0 <= i < |items| && RouteId(items[i]) == id;
      assert i > 0 && items[1..][i - 1] == items[i];
      BatchSeedsNewRoutes(t1, items[1..], backoff, retries, id);
    }
  }

  // ---------------------------------------------------------------------------
  // query_items

  /** What one `table.query` call returns: a page and its `LastEvaluatedKey`, or a raised error. */
  datatype QueryResponse = Page(items: seq<Attrs>, lastEvaluatedKey: Option<Key>) | QueryError(code: string)

  /** A response after which `query_items` asks for no further page. */
  predicate Final(r: QueryResponse) {
    r.QueryError? || r.lastEvaluatedKey.None?
  }

  function Prefixed(data: seq<Attrs>, r: Result<seq<Attrs>, string>): Result<seq<Attrs>, string> {
    match r
    case Success(rest) => Success(data + rest)
    case Failure(e) => Failure(e)
  }

  /** What `query_items` returns or raises when successive queries answer `responses`. */
  function Collect(responses: seq<QueryResponse>): Result<seq<Attrs>, string>
    requires |responses| > 0 && Final(responses[|responses| - 1])
    decreases |responses|
  {
    match responses[0]
    case QueryError(code) => Failure(code)
    case Page(items, next) =>
      if next.None? then Success(items) else Prefixed(items, Collect(responses[1..]))
  }

  function PageItems(responses: seq<QueryResponse>): seq<seq<Attrs>>
    requires forall i :: 0 <= i < |responses| ==> responses[i].Page?
  {
    seq(|responses|, i requires 0 <= i < |responses| => responses[i].items)
  }

  /**
   * When page `n` is the first without a `LastEvaluatedKey` and no query
   * raised, `query_items` returns the items of pages 0..n concatenated in
   * retrieval order.
   */
  lemma {:induction false} CollectConcatenatesPages(responses: seq<QueryResponse>, n: nat)
    requires n < |responses| && Final(responses[|responses| - 1])
    requires forall i :: 0 <= i <= n ==> responses[i].Page?
    requires forall i :: 0 <= i < n ==> responses[i].lastEvaluatedKey.Some?
    requires responses[n].lastEvaluatedKey.None?
    ensures Collect(responses) == Success(Seqs.Concat(PageItems(responses[..n + 1])))
    decreases n
  {
    var pages := PageItems(responses[..n + 1]);
    Seqs.ConcatFirst(pages);
    if n == 0 {
      assert |pages| == 1 && pages[0] == responses[0].items;
      assert pages[1..] == [];
      Seqs.AppendNothing(responses[0].items);
    } else {
      var rest := responses[1..];
      CollectConcatenatesPages(rest, n - 1);
      assert PageItems(rest[..n]) == pages[1..];
      assert pages[0] == responses[0].items;
    }
  }

  /** A query that raises on call `n`, after pages that all carried a `LastEvaluatedKey`, re-raises that error. */
  lemma {:induction false} CollectPropagatesError(responses: seq<QueryResponse>, n: nat)
    requires n < |responses| && Final(responses[|responses| - 1])
    requires forall i :: 0 <= i < n ==> responses[i].Page? && responses[i].lastEvaluatedKey.Some?
    requires responses[n].QueryError?
    ensures Collect(responses) == Failure(responses[n].code)
    decreases n
  {
    if n > 0 {
      CollectPropagatesError(responses[1..], n - 1);
    }
  }

  lemma PrefixedAssociates(a: seq<Attrs>, b: seq<Attrs>, r: Result<seq<Attrs>, string>)
    ensures Prefixed(a, Prefixed(b, r)) == Prefixed(a + b, r)
  {
    if r.Success? {
      assert a + (b + r.value) == (a + b) + r.value;
    }
  }

  /** The rest of the query after response `i`, a page. */
  function Continue(responses: seq<QueryResponse>, i: nat): Result<seq<Attrs>, string>
    requires i < |responses| && Final(responses[|responses| - 1]) && responses[i].Page?
  {
    if responses[i].lastEvaluatedKey.None? then Success([]) else Collect(responses[i + 1..])
  }

  class FlightsTable {
    const store: Store
    const backoff: nat
    const retries: nat
    /** The delays `write_item` has slept, in order (in place of `time.sleep`). */
    ghost var sleeps: seq<nat>
    /** Every list of items handed to `write_batch`, in order. */
    ghost var batches: seq<seq<Flight>>

    ghost function State(): TableState
      reads this, store
    {
      TableState(store.State(), sleeps, batches)
    }

    constructor (store: Store, backoff: nat := 1, retries: nat := 5)
      ensures this.store == store && this.backoff == backoff && this.retries == retries
      ensures sleeps == [] && batches == []
    {
      this.store := store;
      this.backoff := backoff;
      this.retries := retries;
      sleeps := [];
      batches := [];
    }

    /** `write_item`: put `item`, retrying throughput errors up to `retries` times with doubling delays. */
    method WriteItem(item: Item) returns (err: Option<string>)
      modifies this, store
      ensures (State(), err) == WriteItemSpec(old(State()), item, backoff, retries)
    {
      ghost var t0 := State();
      var i: nat := 0;
      while true
        invariant i <= retries && i <= LeadingThrottles(t0.db.faults)
        invariant store.faults == t0.db.faults[i..]
        invariant store.rows == t0.db.rows && store.written == t0.db.written
        invariant store.putAttempts == t0.db.putAttempts + i
        invariant sleeps == t0.sleeps + Backoffs(backoff, i)
        invariant batches == t0.batches
        decreases retries - i
      {
        err := store.PutItem(item);
        if err.None? {
          WriteItemStopsAt(t0, item, backoff, retries, i);
          return;
        }
        Seqs.DropOneMore(t0.db.faults, i);
        if err.value == THROTTLED {
          if i == retries {
            WriteItemStopsAt(t0, item, backoff, retries, i);
            return;
          }
          RetryStep(t0.db.faults, backoff, i);
          Seqs.AppendAssoc(t0.sleeps, Backoffs(backoff, i), [backoff * Pow2(i)]);
          sleeps := sleeps + [backoff * Pow2(i)];
          i := i + 1;
        } else {
          WriteItemStopsAt(t0, item, backoff, retries, i);
          return;
        }
      }
    }

    /** One pass of `write_batch`'s loop: seed the route if its `details` row is absent, then write the price row. */
    method WriteFlight(f: Flight) returns (err: Option<string>)
      modifies this, store
      ensures (State(), err) == ItemStep(old(State()), f, backoff, retries)
    {
      var id := f.routeDetails.key.flightId;
      if store.GetItem(Key(id, DETAILS)).Some? {
        err := WriteItem(f.flightDetails);
        return;
      }
      ghost var t0 := State();
      err := WriteItem(f.routeDetails);
      ghost var p1 := (State(), err);
      assert p1 == WriteItemSpec(t0, f.routeDetails, backoff, retries);
      if err.Some? {
        assert Then(Then(p1, AggSeed(id), backoff, retries), f.flightDetails, backoff, retries) == p1;
        return;
      }
      err := WriteItem(AggSeed(id));
      ghost var p2 := (State(), err);
      assert p2 == Then(p1, AggSeed(id), backoff, retries);
      if err.Some? {
        assert Then(p2, f.flightDetails, backoff, retries) == p2;
        return;
      }
      err := WriteItem(f.flightDetails);
      assert (State(), err) == Then(p2, f.flightDetails, backoff, retries);
    }

    /** `write_batch`: seed first-seen routes and write every price row, stopping at the first error. */
    method WriteBatch(items: seq<Flight>) returns (r: Result<string, string>)
      modifies this, store
      ensures (State(), r) == WriteBatchSpec(old(State()), items, backoff, retries)
    {
      batches := batches + [items];
      ghost var start := State();
      var i := 0;
      while i < |items|
        invariant 0 <= i <= |items|
        invariant BatchSpec(start, items, backoff, retries) == BatchSpec(State(), items[i..], backoff, retries)
      {
        Seqs.DropOneMore(items, i);
        var err := WriteFlight(items[i]);
        if err.Some? {
          r := Failure(err.value);
          return;
        }
        i := i + 1;
      }
      r := Success(UploadMessage(|items|));
    }

    /** `query_items`: the items of every page, requesting the next page while `LastEvaluatedKey` is present. */
    method QueryItems(responses: seq<QueryResponse>) returns (r: Result<seq<Attrs>, string>)
      requires |responses| > 0 && Final(responses[|responses| - 1])
      ensures r == Collect(responses)
    {
      var i := 0;
      var response := responses[0];
      if response.QueryError? {
        r := Failure(response.code);
        return;
      }
      var data := response.items;
      assert data + [] == data;
      while response.lastEvaluatedKey.Some?
        invariant 0 <= i < |responses| && response == responses[i] && response.Page?
        invariant Collect(responses) == Prefixed(data, Continue(responses, i))
        decreases |responses| - i
      {
        ghost var before := data;
        i := i + 1;
        response := responses[i];
        Seqs.DropOneMore(responses, i);
        if response.QueryError? {
          r := Failure(response.code);
          return;
        }
        Seqs.AppendNothing(response.items);
        assert Collect(responses[i..]) == Prefixed(response.items, Continue(responses, i));
        data := data + response.items;
        PrefixedAssociates(before, response.items, Continue(responses, i));
      }
      assert data + [] == data;
      r := Success(data);
    }
  }
}
