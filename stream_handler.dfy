/**
 * The stream job's handler: for the first record of a change-feed batch,
 * ignore the route and aggregate rows, and otherwise add the new price to
 * the route's `total_agg` row and count it, with one `update_item`.
 */
module StreamHandler {
  import opened Wrappers
  import opened Store
  import opened ChangeFeed
  import Text

  const TOTAL_PRICE := "flights_month_total_price"
  const COUNT := "flights_month_count"
  const NOT_A_PRICE := "Not a price item. Accepted."

  /** The body of the handler's answer: a message, or the `Attributes` of the update. */
  datatype Body = Message(text: string) | Updated(attributes: Attrs)

  datatype Response = Response(statusCode: int, body: Body)

  /** The increments of the `UpdateExpression`: the new price, and one more flight. */
  function Deltas(price: int): (d: map<string, int>)
    ensures d.Keys == {TOTAL_PRICE, COUNT} && d[TOTAL_PRICE] == price && d[COUNT] == 1
  {
    map[TOTAL_PRICE := price, COUNT := 1]
  }

  /** The handler on a table in state `s` for `event['Records'] == records`. */
  function StreamSpec(s: DbState, records: seq<StreamRecord>): (DbState, Result<Response, Failure>) {
    if records == [] then (s, Failure(IndexError))
    else
      var rec := records[0];
      match NewSortKey(rec)
      case Failure(e) => (s, Failure(e))
      case Success(sortKey) =>
        if sortKey == TOTAL_AGG || sortKey == DETAILS then (s, Success(Response(201, Message(NOT_A_PRICE))))
        else
          match StringField(rec.keys, "FlightID")
          case Failure(e) => (s, Failure(e))
          case Success(flightId) =>
            match NumberField(rec.newImage.value, "price")
            case Failure(e) => (s, Failure(e))
            case Success(price) =>
              var (s', r) := Update(s, Key(flightId, TOTAL_AGG), Deltas(price));
              match r
              case Failure(code) => (s', Failure(ClientError(code)))
              case Success(attributes) => (s', Success(Response(200, Updated(attributes))))
  }

  /** A record whose new image is a price row of route `flightId` at price `price`. */
  predicate PriceRecord(rec: StreamRecord, flightId: string, price: int) {
    && NewSortKey(rec).Success? && NewSortKey(rec).value != TOTAL_AGG && NewSortKey(rec).value != DETAILS
    && StringField(rec.keys, "FlightID") == Success(flightId)
    && NumberField(rec.newImage.value, "price") == Success(price)
  }

  /** Only the first record of the batch is read: the rest have no effect. */
  lemma OnlyFirstRecordCounts(s: DbState, records: seq<StreamRecord>)
    requires records != []
    ensures StreamSpec(s, records) == StreamSpec(s, [records[0]])
  {
  }

  /** An empty batch raises `IndexError` and changes nothing. */
  lemma EmptyBatchRaises(s: DbState)
    ensures StreamSpec(s, []) == (s, Failure(IndexError))
  {
  }

  /** A `details` or `total_agg` row is acknowledged with 201 and the table is left as it was. */
  lemma NonPriceRowIgnored(s: DbState, records: seq<StreamRecord>)
    requires records != [] && NewSortKey(records[0]).Success?
    requires NewSortKey(records[0]).value in {TOTAL_AGG, DETAILS}
    ensures StreamSpec(s, records) == (s, Success(Response(201, Message(NOT_A_PRICE))))
  {
  }

  /** The handler answers 201 and leaves the table alone exactly for a `details` or `total_agg` row. */
  lemma AcknowledgedIff(s: DbState, records: seq<StreamRecord>)
    requires records != [] && NewSortKey(records[0]).Success?
    ensures StreamSpec(s, records) == (s, Success(Response(201, Message(NOT_A_PRICE))))
      <==> NewSortKey(records[0]).value in {TOTAL_AGG, DETAILS}
  {
    var sortKey := NewSortKey(records[0]).value;
    if sortKey != TOTAL_AGG && sortKey != DETAILS {
      var r := StreamSpec(s, records).1;
      assert r.Failure? || r.value.statusCode == 200;
    }
  }

  /**
   * A price row adds its price to the route's `flights_month_total_price`
   * and exactly one to its `flights_month_count`, keeps the row's other
   * attributes, and answers 200 with the two new values.
   */
  lemma PriceRecordIncrements(s: DbState, records: seq<StreamRecord>, flightId: string, price: int)
    requires records != [] && PriceRecord(records[0], flightId, price)
    requires s.faults == []
    requires var agg := Key(flightId, TOTAL_AGG);
      agg in s.rows && Incrementable(s.rows[agg], Deltas(price))
    ensures var agg := Key(flightId, TOTAL_AGG);
      var s', r := StreamSpec(s, records).0, StreamSpec(s, records).1;
      var row, row' := s.rows[agg], s'.rows[agg];
      && r.Success? && r.value.statusCode == 200 && s'.faults == []
      && agg in s'.rows && row'.Keys == row.Keys && Incrementable(row', Deltas(price))
      && row'[TOTAL_PRICE] == N(row[TOTAL_PRICE].n + price)
      && row'[COUNT] == N(row[COUNT].n + 1)
      && (forall f :: f in row && f != TOTAL_PRICE && f != COUNT ==> row'[f] == row[f])
      && r.value.body == Updated(map[TOTAL_PRICE := row'[TOTAL_PRICE], COUNT := row'[COUNT]])
  {
    var agg := Key(flightId, TOTAL_AGG);
    var (s', r) := Update(s, agg, Deltas(price));
    assert r.Success?;
    assert r.value == map[TOTAL_PRICE := s'.rows[agg][TOTAL_PRICE], COUNT := s'.rows[agg][COUNT]];
  }

  /** Whatever the record and whatever the table raises, no row but `(FlightID, 'total_agg')` changes. */
  lemma OnlyAggregateRowChanges(s: DbState, records: seq<StreamRecord>, k: Key)
    requires records == [] || StringField(records[0].keys, "FlightID").Failure?
      || k != Key(StringField(records[0].keys, "FlightID").value, TOTAL_AGG)
    ensures Lookup(StreamSpec(s, records).0.rows, k) == Lookup(s.rows, k)
  {
  }

  /** When the aggregate row lacks a numeric field of the update, the table raises `ValidationException`. */
  lemma MissingAggregateFieldsRaise(s: DbState, records: seq<StreamRecord>, flightId: string, price: int)
    requires records != [] && PriceRecord(records[0], flightId, price) && s.faults == []
    requires var agg := Key(flightId, TOTAL_AGG); agg !in s.rows || !Incrementable(s.rows[agg], Deltas(price))
    ensures StreamSpec(s, records) == (s, Failure(ClientError(VALIDATION)))
  {
  }

  /** The table after the same batch is delivered `n` times. */
  function Replay(s: DbState, records: seq<StreamRecord>, n: nat): DbState
    decreases n
  {
    if n == 0 then s else StreamSpec(Replay(s, records, n - 1), records).0
  }

  /**
   * Nothing deduplicates deliveries: the same price record processed `n`
   * times counts `n` flights and adds `n` times its price.
   */
  lemma {:induction false} ReplayCountsEveryDelivery(s: DbState, records: seq<StreamRecord>, flightId: string, price: int, n: nat)
    requires records != [] && PriceRecord(records[0], flightId, price) && s.faults == []
    requires var agg := Key(flightId, TOTAL_AGG);
      agg in s.rows && Incrementable(s.rows[agg], Deltas(price))
    ensures var agg := Key(flightId, TOTAL_AGG);
      var s' := Replay(s, records, n);
      && s'.faults == [] && agg in s'.rows && s'.rows[agg].Keys == s.rows[agg].Keys
      && Incrementable(s'.rows[agg], Deltas(price))
      && s'.rows[agg][COUNT] == N(s.rows[agg][COUNT].n + n)
      && s'.rows[agg][TOTAL_PRICE] == N(s.rows[agg][TOTAL_PRICE].n + n * price)
    decreases n
  {
    if n > 0 {
      ReplayCountsEveryDelivery(s, records, flightId, price, n - 1);
      var s0 := Replay(s, records, n - 1);
      PriceRecordIncrements(s0, records, flightId, price);
      var agg, s1 := Key(flightId, TOTAL_AGG), StreamSpec(s0, records).0;
      assert Replay(s, records, n) == s1;
      assert s1.rows[agg][COUNT] == N(s.rows[agg][COUNT].n + (n - 1) + 1);
      assert s1.rows[agg][TOTAL_PRICE] == N(s.rows[agg][TOTAL_PRICE].n + (n - 1) * price + price);
      Text.MulSucc(n - 1, price);
    }
  }

  /** `lambda_handler(event, context)` against `store`, for `event['Records'] == records`. */
  method HandleStream(store: Store, records: seq<StreamRecord>) returns (r: Result<Response, Failure>)
    modifies store
    ensures (store.State(), r) == StreamSpec(old(store.State()), records)
  {
    if |records| == 0 {
      return Failure(IndexError);
    }
    var rec := records[0];
    var sortKey := NewSortKey(rec);
    if sortKey.Failure? {
      return Failure(sortKey.error);
    }
    if sortKey.value == TOTAL_AGG || sortKey.value == DETAILS {
      return Success(Response(201, Message(NOT_A_PRICE)));
    }
    var flightId := StringField(rec.keys, "FlightID");
    if flightId.Failure? {
      return Failure(flightId.error);
    }
    var newPrice := NumberField(rec.newImage.value, "price");
    if newPrice.Failure? {
      return Failure(newPrice.error);
    }
    var response := store.UpdateItem(Key(flightId.value, TOTAL_AGG), Deltas(newPrice.value));
    match response {
      case Failure(code) =>
        r := Failure(ClientError(code));
      case Success(attributes) =>
        r := Success(Response(200, Updated(attributes)));
    }
  }
}
