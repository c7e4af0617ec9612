/**
 * How the two jobs meet on the table: the rows the download job writes
 * reach the stream job as INSERT records of the change feed. These lemmas
 * follow a parsed trip's rows through that feed.
 */
module Pipeline {
  import opened Wrappers
  import opened Store
  import opened Text
  import opened Dates
  import opened Table
  import opened Download
  import opened ChangeFeed
  import opened StreamUtils
  import opened StreamHandler

  /** The insertion of a row keyed by a collection date is a new flight. */
  lemma PriceRowIsNewFlight(item: Item, today: Date)
    requires ValidDate(today) && item.key.sortKey == PriceSortKey(today)
    ensures IsNewFlight(InsertRecord(item)) == Success(true)
  {
    StartsWithContains("cid", "_" + FormatCompact(today));
    assert PriceSortKey(today) == "cid" + ("_" + FormatCompact(today));
  }

  /** The insertion of a route row or of an aggregate row is not. */
  lemma RouteRowsAreNotNewFlights(item: Item)
    requires item.key.sortKey in {DETAILS, TOTAL_AGG}
    ensures IsNewFlight(InsertRecord(item)) == Success(false)
  {
    var sortKey := item.key.sortKey;
    if sortKey == DETAILS {
      ContainsNeedsFirstChar(DETAILS, "cid");
    } else {
      ContainsNeedsFirstChar(TOTAL_AGG, "cid");
    }
    assert !Contains(sortKey, "cid");
  }

  /** The insertion of a price row reaches the handler's update with the row's route and price. */
  lemma PriceRowIsPriceRecord(item: Item, price: int)
    requires item.key.sortKey != DETAILS && item.key.sortKey != TOTAL_AGG
    requires "price" in item.attrs && item.attrs["price"] == N(price)
    ensures PriceRecord(InsertRecord(item), item.key.flightId, price)
  {
    assert ImageOf(item)["price"] == item.attrs["price"];
  }

  /**
   * Of the rows a parsed trip gives, only the price row's insertion is a
   * new flight for `is_new_flight`; the insertion of the route row and of
   * the zeroed aggregate row seeded beside it are not. The price row's
   * record is one the stream handler counts, for the trip's route and price.
   */
  lemma ParsedRowsThroughFilter(trip: Trip, k: TripType, today: Date, isLong: Trip -> bool)
    requires ValidDate(today) && !Rejected(trip, k, isLong)
    ensures var f := ParseTrip(trip, k, today, isLong).value;
      && IsNewFlight(InsertRecord(f.flightDetails)) == Success(true)
      && IsNewFlight(InsertRecord(f.routeDetails)) == Success(false)
      && IsNewFlight(InsertRecord(AggSeed(RouteId(f)))) == Success(false)
      && PriceRecord(InsertRecord(f.flightDetails), RouteKey(trip, k), trip.price)
  {
    var f := ParseTrip(trip, k, today, isLong).value;
    ParseTripRows(trip, k, today, isLong);
    PriceRowIsNewFlight(f.flightDetails, today);
    RouteRowsAreNotNewFlights(f.routeDetails);
    RouteRowsAreNotNewFlights(AggSeed(RouteId(f)));
    PriceRowIsPriceRecord(f.flightDetails, trip.price);
  }

  /**
   * For the three kinds of sort key the download job writes, `is_new_flight`
   * and the stream handler's own test agree: a record is a new flight
   * exactly when the handler does not acknowledge it with 201 and leave the
   * table alone.
   */
  lemma FilterAgreesWithHandler(s: DbState, rec: StreamRecord, today: Date)
    requires ValidDate(today) && rec.eventName == "INSERT" && NewSortKey(rec).Success?
    requires NewSortKey(rec).value in {DETAILS, TOTAL_AGG, PriceSortKey(today)}
    ensures IsNewFlight(rec).Success?
    ensures IsNewFlight(rec).value <==> StreamSpec(s, [rec]) != (s, Success(StreamHandler.Response.Response(201, Message(NOT_A_PRICE))))
  {
    AcknowledgedIff(s, [rec]);
    CidOnlyInPriceKeys(NewSortKey(rec).value, today);
  }

  /** Of the three kinds of sort key the download job writes, only the collection-date key contains `cid`. */
  lemma CidOnlyInPriceKeys(sortKey: string, today: Date)
    requires ValidDate(today) && sortKey in {DETAILS, TOTAL_AGG, PriceSortKey(today)}
    ensures Contains(sortKey, "cid") <==> sortKey !in {DETAILS, TOTAL_AGG}
  {
    if sortKey == PriceSortKey(today) {
      StartsWithContains("cid", "_" + FormatCompact(today));
      assert PriceSortKey(today) == "cid" + ("_" + FormatCompact(today));
      assert sortKey[0] == 'c' && DETAILS[0] == 'd' && TOTAL_AGG[0] == 't';
    } else if sortKey == DETAILS {
      ContainsNeedsFirstChar(DETAILS, "cid");
    } else {
      ContainsNeedsFirstChar(TOTAL_AGG, "cid");
    }
  }

  /**
   * `write_batch` seeds a first-seen route's aggregate row with
   * `count_total` and `price_total`, while the stream handler increments
   * `flights_month_total_price` and `flights_month_count`. So after a batch
   * that writes a new route without store errors, the first price record of
   * that route makes the update raise `ValidationException`, and the table
   * is left as the batch left it.
   */
  lemma NewRouteFirstPriceRaises(t: TableState, items: seq<Flight>, backoff: nat, retries: nat, id: string,
                                 rec: StreamRecord, price: int)
    requires t.db.faults == [] && WellFormedBatch(items) && Key(id, DETAILS) !in t.db.rows
    requires exists i :: 0 <= i < |items| && RouteId(items[i]) == id
    requires PriceRecord(rec, id, price)
    ensures var db := BatchSpec(t, items, backoff, retries).0.db;
      StreamSpec(db, [rec]) == (db, Failure(ClientError(VALIDATION)))
  {
    var db := BatchSpec(t, items, backoff, retries).0.db;
    BatchFaultFree(t, items, backoff, retries);
    BatchSeedsNewRoutes(t, items, backoff, retries, id);
    var agg := Key(id, TOTAL_AGG);
    assert db.rows[agg] == AggSeed(id).attrs;
    assert TOTAL_PRICE in Deltas(price) && TOTAL_PRICE !in AggSeed(id).attrs;
    MissingAggregateFieldsRaise(db, [rec], id, price);
  }
}
