/**
 * The download job: `parse_trip`, which turns one destination returned by
 * the explore API into a route row and a price row (or rejects it), and the
 * job's handler, which collects the parsed trips of the three duration
 * classes and hands the growing list to `write_batch` after each class.
 * The HTTP call (`get_trips`), the distance test (`is_long`), the table's
 * existence check and today's date are parameters.
 */
module Download {
  import opened Wrappers
  import opened Store
  import opened Text
  import opened Dates
  import opened Table
  import opened Seqs

  /** The duration classes, in the order the handler visits them. */
  datatype TripType = BREAK | WEEK | LONG

  function TypeName(k: TripType): string {
    match k
    case BREAK => "BREAK"
    case WEEK => "WEEK"
    case LONG => "LONG"
  }

  /** The handler's `days_ranges`, in insertion order. */
  const CLASSES: seq<TripType> := [BREAK, WEEK, LONG]

  /** The `tripdurationrange` query parameter of each class. */
  function DaysRange(k: TripType): string {
    match k
    case BREAK => "2,4"
    case WEEK => "5,8"
    case LONG => "10,15"
  }

  /** Trips dearer than this are dropped. */
  const MAX_PRICE := 20000

  /** The fields `parse_trip` reads from one destination of the explore API's answer. */
  datatype Trip = Trip(
    originAirport: string,      // trip['originAirportShortName']
    destinationAirport: string, // trip['airport']['shortName']
    city: string,               // trip['city']['name']
    country: string,            // trip['country']['name']
    departd: string,
    returnd: string,
    price: int,                 // trip['flightInfo']['price']
    days: int)

  /** The route's `FlightID`: `"{origin}-{destination}-{trip_type}"`. */
  function RouteKey(trip: Trip, k: TripType): string {
    trip.originAirport + "-" + trip.destinationAirport + "-" + TypeName(k)
  }

  /** The price row's `SortKey` for a collection on `today`: `cid_` and the date as `YYYYMMDD`. */
  function PriceSortKey(today: Date): string
    requires ValidDate(today)
  {
    "cid_" + FormatCompact(today)
  }

  /** When `parse_trip` returns None: no nights, too dear, or a short class whose destination is too far. */
  predicate Rejected(trip: Trip, k: TripType, isLong: Trip -> bool) {
    trip.days == 0 || trip.price > MAX_PRICE || ((k == BREAK || k == WEEK) && isLong(trip))
  }

  /** `parse_trip(trip, trip_type)` with `TODAY` fixed to `today`. */
  function ParseTrip(trip: Trip, k: TripType, today: Date, isLong: Trip -> bool): (r: Option<Flight>)
    requires ValidDate(today)
    ensures r.None? <==> Rejected(trip, k, isLong)
    ensures r.Some? ==> WellFormedFlight(r.value) && RouteId(r.value) == RouteKey(trip, k)
  {
    var key := RouteKey(trip, k);
    if trip.days == 0 || trip.price > MAX_PRICE then None
    else if (k == BREAK || k == WEEK) && isLong(trip) then None
    else
      var routeDetails := map[
        "origin_place_id" := S(trip.originAirport),
        "destination_place_id" := S(trip.destinationAirport),
        "destination_city" := S(trip.city),
        "destination_country" := S(trip.country)];
      var flightDetails := map[
        "collection_date" := S(FormatIso(today)),
        "departure_date" := S(trip.departd),
        "return_date" := S(trip.returnd),
        "price" := N(trip.price),
        "days" := N(trip.days)];
      assert PriceSortKey(today)[..4] == "cid_";
      Some(Flight(Item(Key(key, DETAILS), routeDetails), Item(Key(key, PriceSortKey(today)), flightDetails)))
  }

  /**
   * An accepted trip gives a route row keyed `(FlightID, 'details')` holding
   * the two airports, the city and the country, and a price row keyed
   * `(FlightID, 'cid_YYYYMMDD')` holding today's date and the trip's dates,
   * price and nights unchanged.
   */
  lemma ParseTripRows(trip: Trip, k: TripType, today: Date, isLong: Trip -> bool)
    requires ValidDate(today) && !Rejected(trip, k, isLong)
    ensures var f := ParseTrip(trip, k, today, isLong).value;
      && f.routeDetails.key == Key(RouteKey(trip, k), DETAILS)
      && f.flightDetails.key == Key(RouteKey(trip, k), PriceSortKey(today))
    ensures var route := ParseTrip(trip, k, today, isLong).value.routeDetails.attrs;
      && route.Keys == {"origin_place_id", "destination_place_id", "destination_city", "destination_country"}
      && route["origin_place_id"] == S(trip.originAirport)
      && route["destination_place_id"] == S(trip.destinationAirport)
      && route["destination_city"] == S(trip.city)
      && route["destination_country"] == S(trip.country)
    ensures var price := ParseTrip(trip, k, today, isLong).value.flightDetails.attrs;
      && price.Keys == {"collection_date", "departure_date", "return_date", "price", "days"}
      && price["collection_date"] == S(FormatIso(today))
      && price["departure_date"] == S(trip.departd)
      && price["return_date"] == S(trip.returnd)
      && price["price"] == N(trip.price)
      && price["days"] == N(trip.days)
  {
  }

  /** The price row's `SortKey` is `cid_` followed by its `collection_date` with the dashes deleted. */
  lemma PriceKeyIsCollectionDate(trip: Trip, k: TripType, today: Date, isLong: Trip -> bool)
    requires ValidDate(today) && ParseTrip(trip, k, today, isLong).Some?
    ensures var price := ParseTrip(trip, k, today, isLong).value.flightDetails;
      price.attrs["collection_date"].S? && price.key.sortKey == "cid_" + Without(price.attrs["collection_date"].s, '-')
  {
    ParseTripRows(trip, k, today, isLong);
    CompactIsIsoWithoutDashes(today);
  }

  /** The distance test only ever rejects BREAK and WEEK trips: a LONG trip's fate does not depend on it. */
  lemma LongIgnoresDistance(trip: Trip, today: Date, isLong: Trip -> bool, isLong': Trip -> bool)
    requires ValidDate(today)
    ensures ParseTrip(trip, LONG, today, isLong) == ParseTrip(trip, LONG, today, isLong')
  {
  }

  /** The first index of `c` in `s`, or `|s|` when `c` does not occur. */
  function IndexOf(s: string, c: char): (i: nat)
    ensures i <= |s|
    ensures i < |s| ==> s[i] == c
  {
    if s == [] then 0 else if s[0] == c then 0 else 1 + IndexOf(s[1..], c)
  }

  lemma {:induction false} IndexOfPrefix(a: string, c: char, rest: string)
    requires c !in a
    ensures IndexOf(a + [c] + rest, c) == |a|
    decreases |a|
  {
    var s := a + [c] + rest;
    if a != [] {
      assert s[0] == a[0] && s[1..] == a[1..] + [c] + rest;
      IndexOfPrefix(a[1..], c, rest);
    }
  }

  /** A string with no dash, followed by a dash and a tail, determines both parts. */
  lemma SplitAtDash(a: string, b: string, c: string, d: string)
    requires '-' !in a && '-' !in c
    requires a + "-" + b == c + "-" + d
    ensures a == c && b == d
  {
    var s := a + "-" + b;
    IndexOfPrefix(a, '-', b);
    IndexOfPrefix(c, '-', d);
    assert |a| == |c|;
    assert a == s[..|a|];
    assert c == s[..|c|];
    assert b == s[|a| + 1..];
    assert d == s[|c| + 1..];
  }

  /**
   * The composite `FlightID` identifies the route: for airport codes without
   * dashes, equal keys mean the same origin, destination and duration class.
   */
  lemma RouteKeyInjective(t1: Trip, k1: TripType, t2: Trip, k2: TripType)
    requires '-' !in t1.originAirport && '-' !in t1.destinationAirport
    requires '-' !in t2.originAirport && '-' !in t2.destinationAirport
    requires RouteKey(t1, k1) == RouteKey(t2, k2)
    ensures t1.originAirport == t2.originAirport
    ensures t1.destinationAirport == t2.destinationAirport
    ensures k1 == k2
  {
    var o1, d1, n1 := t1.originAirport, t1.destinationAirport, TypeName(k1);
    var o2, d2, n2 := t2.originAirport, t2.destinationAirport, TypeName(k2);
    assert o1 + "-" + d1 + "-" + n1 == o1 + "-" + (d1 + "-" + n1);
    assert o2 + "-" + d2 + "-" + n2 == o2 + "-" + (d2 + "-" + n2);
    SplitAtDash(o1, d1 + "-" + n1, o2, d2 + "-" + n2);
    SplitAtDash(d1, n1, d2, n2);
  }

  /** The inner loop's result: the flights of the trips that parse, in input order. */
  function ParseAll(trips: seq<Trip>, k: TripType, today: Date, isLong: Trip -> bool): (r: seq<Flight>)
    requires ValidDate(today)
    ensures |r| <= |trips|
    decreases |trips|
  {
    if trips == [] then []
    else
      var init := ParseAll(trips[..|trips| - 1], k, today, isLong);
      match ParseTrip(trips[|trips| - 1], k, today, isLong)
      case None => init
      case Some(f) => init + [f]
  }

  /** One pass of the inner loop: the next trip's flight, if any, goes to the end of the list. */
  lemma ParseAllStep(trips: seq<Trip>, j: nat, k: TripType, today: Date, isLong: Trip -> bool)
    requires ValidDate(today) && j < |trips|
    ensures ParseAll(trips[..j + 1], k, today, isLong) ==
      ParseAll(trips[..j], k, today, isLong) + (match ParseTrip(trips[j], k, today, isLong)
                                               case None => []
                                               case Some(f) => [f])
  {
    TakeTake(trips, j + 1, j);
  }

  /** Parsing two runs of trips in turn gives the two results one after the other. */
  lemma {:induction false} ParseAllConcat(a: seq<Trip>, b: seq<Trip>, k: TripType, today: Date, isLong: Trip -> bool)
    requires ValidDate(today)
    ensures ParseAll(a + b, k, today, isLong) == ParseAll(a, k, today, isLong) + ParseAll(b, k, today, isLong)
    decreases |b|
  {
    if b == [] {
      AppendNothing(a);
      AppendNothing(ParseAll(a, k, today, isLong));
    } else {
      var b' := b[..|b| - 1];
      DropLastOfAppend(a, b);
      ParseAllConcat(a, b', k, today, isLong);
      match ParseTrip(b[|b| - 1], k, today, isLong)
      case None =>
      case Some(f) => AppendAssoc(ParseAll(a, k, today, isLong), ParseAll(b', k, today, isLong), [f]);
    }
  }

  /** Only flights that some trip parses to are kept. */
  lemma {:induction false} ParseAllSound(trips: seq<Trip>, k: TripType, today: Date, isLong: Trip -> bool, j: nat)
    requires ValidDate(today) && j < |ParseAll(trips, k, today, isLong)|
    ensures exists i :: 0 <= i < |trips| && ParseTrip(trips[i], k, today, isLong) == Some(ParseAll(trips, k, today, isLong)[j])
    decreases |trips|
  {
    var init := trips[..|trips| - 1];
    var r := ParseAll(trips, k, today, isLong);
    var r0 := ParseAll(init, k, today, isLong);
    if j < |r0| {
      ParseAllSound(init, k, today, isLong, j);
      var i :| 0 <= i < |init| && ParseTrip(init[i], k, today, isLong) == Some(r0[j]);
      assert trips[i] == init[i];
      assert r[j] == r0[j];
    } else {
      assert ParseTrip(trips[|trips| - 1], k, today, isLong) == Some(r[j]);
    }
  }

  /** Every trip that parses contributes its flight. */
  lemma {:induction false} ParseAllComplete(trips: seq<Trip>, k: TripType, today: Date, isLong: Trip -> bool, i: nat)
    requires ValidDate(today) && i < |trips| && ParseTrip(trips[i], k, today, isLong).Some?
    ensures ParseTrip(trips[i], k, today, isLong).value in ParseAll(trips, k, today, isLong)
    decreases |trips|
  {
    var init := trips[..|trips| - 1];
    var r0 := ParseAll(init, k, today, isLong);
    var f := ParseTrip(trips[i], k, today, isLong).value;
    if i < |trips| - 1 {
      assert trips[i] == init[i];
      ParseAllComplete(init, k, today, isLong, i);
      assert f in r0;
    } else {
      assert ParseAll(trips, k, today, isLong) == r0 + [f];
    }
  }

  /** A run of trips none of which is rejected keeps them all, one flight per trip. */
  lemma {:induction false} ParseAllKeepsAccepted(trips: seq<Trip>, k: TripType, today: Date, isLong: Trip -> bool)
    requires ValidDate(today)
    requires forall i :: 0 <= i < |trips| ==> !Rejected(trips[i], k, isLong)
    ensures |ParseAll(trips, k, today, isLong)| == |trips|
    decreases |trips|
  {
    if trips != [] {
      var init := trips[..|trips| - 1];
      assert forall i :: 0 <= i < |init| ==> init[i] == trips[i];
      ParseAllKeepsAccepted(init, k, today, isLong);
      assert !Rejected(trips[|trips| - 1], k, isLong);
    }
  }

  // ---------------------------------------------------------------------------
  // lambda_handler

  /** `get_trips(origin=..., days_range=...)['destinations']`: what the explore API answers. */
  type Fetch = (string, string) -> seq<Trip>

  /** The trips the handler parses for class `k`. */
  function ClassTrips(origin: string, fetch: Fetch, k: TripType, today: Date, isLong: Trip -> bool): seq<Flight>
    requires ValidDate(today)
  {
    ParseAll(fetch(origin, DaysRange(k)), k, today, isLong)
  }

  /** `trips_parsed` after the first `n` classes: the parsed trips of classes 1..n, in order. */
  function Accumulated(origin: string, fetch: Fetch, today: Date, isLong: Trip -> bool, n: nat): seq<Flight>
    requires ValidDate(today) && n <= |CLASSES|
  {
    if n == 0 then []
    else Accumulated(origin, fetch, today, isLong, n - 1) + ClassTrips(origin, fetch, CLASSES[n - 1], today, isLong)
  }

  /** The list only grows: what was collected for an earlier class is still at its head. */
  lemma {:induction false} AccumulatedGrows(origin: string, fetch: Fetch, today: Date, isLong: Trip -> bool, m: nat, n: nat)
    requires ValidDate(today) && m <= n <= |CLASSES|
    ensures var small, big := Accumulated(origin, fetch, today, isLong, m), Accumulated(origin, fetch, today, isLong, n);
      |small| <= |big| && big[..|small|] == small
    decreases n
  {
    if m < n {
      AccumulatedGrows(origin, fetch, today, isLong, m, n - 1);
      var small := Accumulated(origin, fetch, today, isLong, m);
      var mid := Accumulated(origin, fetch, today, isLong, n - 1);
      var big := Accumulated(origin, fetch, today, isLong, n);
      assert big[..|mid|] == mid;
      assert big[..|small|] == mid[..|small|];
    }
  }

  /** The lists accumulated after class 1, after classes 1..2, ..., after classes 1..n. */
  function AccumulatedLists(origin: string, fetch: Fetch, today: Date, isLong: Trip -> bool, n: nat): (r: seq<seq<Flight>>)
    requires ValidDate(today) && n <= |CLASSES|
    ensures |r| == n
  {
    if n == 0 then [] else AccumulatedLists(origin, fetch, today, isLong, n - 1) + [Accumulated(origin, fetch, today, isLong, n)]
  }

  /** Entry i of the lists is the list accumulated after classes 1..i+1. */
  lemma {:induction false} AccumulatedListsAt(origin: string, fetch: Fetch, today: Date, isLong: Trip -> bool, n: nat, i: nat)
    requires ValidDate(today) && i < n <= |CLASSES|
    ensures AccumulatedLists(origin, fetch, today, isLong, n)[i] == Accumulated(origin, fetch, today, isLong, i + 1)
    decreases n
  {
    if i < n - 1 {
      AccumulatedListsAt(origin, fetch, today, isLong, n - 1, i);
    }
  }

  /**
   * The handler's outer loop over the lists it writes, one per class: each
   * is handed to `write_batch` in turn and the first error stops the loop.
   * The result carries the message of the last `write_batch`, or None
   * before the first.
   */
  function Run(t: TableState, lists: seq<seq<Flight>>): (TableState, Result<Option<string>, string>)
    decreases |lists|
  {
    if lists == [] then (t, Success(None))
    else
      var (t1, r1) := Run(t, lists[..|lists| - 1]);
      if r1.Failure? then (t1, r1)
      else
        var (t2, r2) := WriteBatchSpec(t1, lists[|lists| - 1], 1, 5);
        (t2, if r2.Failure? then Failure(r2.error) else Success(Some(r2.value)))
  }

  /** One pass of the handler's outer loop, after passes that raised nothing. */
  lemma RunStep(t: TableState, lists: seq<seq<Flight>>, n: nat,
                last: Option<string>, ts: TableState, t': TableState, written: Result<string, string>)
    requires n < |lists| && Run(t, lists[..n]) == (ts, Success(last))
    requires (t', written) == WriteBatchSpec(ts, lists[n], 1, 5)
    ensures Run(t, lists[..n + 1]) == (t', if written.Failure? then Failure(written.error) else Success(Some(written.value)))
  {
    TakeFront(lists, n + 1);
  }

  /** Once a write has failed, the later passes change nothing. */
  lemma {:induction false} RunStopsAtFailure(t: TableState, lists: seq<seq<Flight>>, n: nat, m: nat)
    requires n <= m <= |lists| && Run(t, lists[..n]).1.Failure?
    ensures Run(t, lists[..m]) == Run(t, lists[..n])
    decreases m
  {
    if n < m {
      RunStopsAtFailure(t, lists, n, m - 1);
      TakeFront(lists, m);
    }
  }

  /**
   * The batches `write_batch` receives: the lists in order, up to the first
   * whose write fails; all of them when no write fails, and `r` is then set
   * unless there was nothing to write.
   */
  lemma {:induction false} RunLogsLists(t: TableState, lists: seq<seq<Flight>>)
    ensures var (t', r) := Run(t, lists);
      && LogPrefix(t.batches, t'.batches, lists)
      && (r.Success? ==> t'.batches == t.batches + lists)
      && (r.Success? && lists != [] ==> r.value.Some?)
    decreases |lists|
  {
    if lists == [] {
      LogPrefixEmpty(t.batches, lists);
    } else {
      var init, items := lists[..|lists| - 1], lists[|lists| - 1];
      RunLogsLists(t, init);
      var (t1, r1) := Run(t, init);
      if r1.Failure? {
        assert Run(t, lists) == (t1, r1);
        LogPrefixOfFront(t.batches, t1.batches, lists);
      } else {
        var t2 := WriteBatchSpec(t1, items, 1, 5).0;
        assert Run(t, lists).0 == t2;
        WriteBatchLogsOnce(t1, items, 1, 5);
        LogPrefixComplete(t.batches, t1.batches, t2.batches, lists);
      }
    }
  }

  /** Without store errors every list is written and `r` is the message of the last write. */
  lemma {:induction false} RunFaultFree(t: TableState, lists: seq<seq<Flight>>)
    requires t.db.faults == []
    ensures var (t', r) := Run(t, lists);
      && t'.db.faults == [] && t'.batches == t.batches + lists
      && r == Success(if lists == [] then None else Some(UploadMessage(|lists[|lists| - 1]|)))
    decreases |lists|
  {
    if lists != [] {
      var init, items := lists[..|lists| - 1], lists[|lists| - 1];
      RunFaultFree(t, init);
      var t1 := Run(t, init).0;
      BatchFaultFree(t1.(batches := t1.batches + [items]), items, 1, 5);
      WriteBatchLogsOnce(t1, items, 1, 5);
      SplitLast(lists);
    }
  }

  /** What the handler returns: `{'statusCode': 200, 'body': r}`. */
  datatype Response = Response(statusCode: int, body: string)

  /** The handler raises `UnboundLocalError` when `r` was never assigned, or re-raises a store error. */
  datatype HandlerError = UnboundLocalError | StoreError(code: string)

  /** The handler on a table that starts in state `t`, with `tableExists` the answer of `table.exists()`. */
  function DownloadSpec(t: TableState, origin: string, tableExists: bool, fetch: Fetch, today: Date, isLong: Trip -> bool)
    : (TableState, Result<Response, HandlerError>)
    requires ValidDate(today)
  {
    if !tableExists then (t, Failure(UnboundLocalError))
    else
      var (t', r) := Run(t, AccumulatedLists(origin, fetch, today, isLong, |CLASSES|));
      match r
      case Failure(e) => (t', Failure(StoreError(e)))
      case Success(None) => (t', Failure(UnboundLocalError))
      case Success(Some(body)) => (t', Success(Response(200, body)))
  }

  /**
   * On an existing table, `write_batch` receives the list accumulated after
   * class 1, after classes 1..2, and so on, up to the first write that fails.
   */
  lemma DownloadLogsAccumulated(t: TableState, origin: string, fetch: Fetch, today: Date, isLong: Trip -> bool)
    requires ValidDate(today)
    ensures var t' := DownloadSpec(t, origin, true, fetch, today, isLong).0;
      var m := |t'.batches| - |t.batches|;
      && 0 <= m <= |CLASSES| && |t'.batches| == |t.batches| + m
      && (forall j :: |t.batches| <= j < |t'.batches| ==> t'.batches[j] == Accumulated(origin, fetch, today, isLong, j - |t.batches| + 1))
  {
    var lists := AccumulatedLists(origin, fetch, today, isLong, |CLASSES|);
    RunLogsLists(t, lists);
    var t' := Run(t, lists).0;
    var m := |t'.batches| - |t.batches|;
    forall j | |t.batches| <= j < |t'.batches|
      ensures t'.batches[j] == Accumulated(origin, fetch, today, isLong, j - |t.batches| + 1)
    {
      LogPrefixAt(t.batches, t'.batches, lists, j);
      AccumulatedListsAt(origin, fetch, today, isLong, |CLASSES|, j - |t.batches|);
    }
  }

  /** Without store errors, an existing table receives all three accumulated lists and the handler answers 200. */
  lemma DownloadFaultFree(t: TableState, origin: string, fetch: Fetch, today: Date, isLong: Trip -> bool)
    requires ValidDate(today) && t.db.faults == []
    ensures var (t', r) := DownloadSpec(t, origin, true, fetch, today, isLong);
      && r == Success(Response(200, UploadMessage(|Accumulated(origin, fetch, today, isLong, 3)|)))
      && t'.batches == t.batches + [Accumulated(origin, fetch, today, isLong, 1),
                                    Accumulated(origin, fetch, today, isLong, 2),
                                    Accumulated(origin, fetch, today, isLong, 3)]
  {
    var lists := AccumulatedLists(origin, fetch, today, isLong, 3);
    RunFaultFree(t, lists);
    AccumulatedListsAt(origin, fetch, today, isLong, 3, 0);
    AccumulatedListsAt(origin, fetch, today, isLong, 3, 1);
    AccumulatedListsAt(origin, fetch, today, isLong, 3, 2);
    assert lists == [lists[0], lists[1], lists[2]];
  }

  /** A table that does not exist leaves `r` unassigned: the handler raises and writes nothing. */
  lemma MissingTableRaises(t: TableState, origin: string, fetch: Fetch, today: Date, isLong: Trip -> bool)
    requires ValidDate(today)
    ensures DownloadSpec(t, origin, false, fetch, today, isLong) == (t, Failure(UnboundLocalError))
  {
  }

  /** The handler's inner loop: append the flight of every trip that parses, in order. */
  method AppendParsed(tripsParsed: seq<Flight>, trips: seq<Trip>, k: TripType, today: Date, isLong: Trip -> bool)
    returns (r: seq<Flight>)
    requires ValidDate(today)
    ensures r == tripsParsed + ParseAll(trips, k, today, isLong)
  {
    r := tripsParsed;
    var j := 0;
    while j < |trips|
      invariant 0 <= j <= |trips|
      invariant r == tripsParsed + ParseAll(trips[..j], k, today, isLong)
    {
      var parsed := ParseTrip(trips[j], k, today, isLong);
      ParseAllStep(trips, j, k, today, isLong);
      if parsed.Some? {
        AppendAssoc(tripsParsed, ParseAll(trips[..j], k, today, isLong), [parsed.value]);
        r := r + [parsed.value];
      } else {
        assert ParseAll(trips[..j + 1], k, today, isLong) == ParseAll(trips[..j], k, today, isLong) + [];
        AppendNothing(ParseAll(trips[..j], k, today, isLong));
      }
      j := j + 1;
    }
    TakeAll(trips);
  }

  /**
   * One pass of the handler's loop over the duration classes: fetch, parse
   * and append class `n`'s trips, then write the whole accumulated list.
   */
  method RunClass(table: FlightsTable, origin: string, fetch: Fetch, today: Date, isLong: Trip -> bool,
                  tripsParsed: seq<Flight>, n: nat)
    returns (accumulated: seq<Flight>, written: Result<string, string>)
    requires ValidDate(today) && n < |CLASSES| && tripsParsed == Accumulated(origin, fetch, today, isLong, n)
    requires table.backoff == 1 && table.retries == 5
    modifies table, table.store
    ensures accumulated == Accumulated(origin, fetch, today, isLong, n + 1)
    ensures (table.State(), written) == WriteBatchSpec(old(table.State()), accumulated, 1, 5)
  {
    var tripType := CLASSES[n];
    var trips := fetch(origin, DaysRange(tripType));
    accumulated := AppendParsed(tripsParsed, trips, tripType, today, isLong);
    written := table.WriteBatch(accumulated);
  }

  /**
   * The handler's loop over the duration classes: each pass writes the
   * whole accumulated list, and a store error ends the loop. Returns the
   * message of the last write.
   */
  method RunClasses(table: FlightsTable, origin: string, fetch: Fetch, today: Date, isLong: Trip -> bool)
    returns (r: Result<Option<string>, string>)
    requires ValidDate(today) && table.backoff == 1 && table.retries == 5
    modifies table, table.store
    ensures (table.State(), r) == Run(old(table.State()), AccumulatedLists(origin, fetch, today, isLong, |CLASSES|))
  {
    ghost var t0 := table.State();
    ghost var lists := AccumulatedLists(origin, fetch, today, isLong, |CLASSES|);
    var tripsParsed: seq<Flight> := [];
    var last: Option<string> := None;
    var n := 0;
    while n < |CLASSES|
      invariant 0 <= n <= |CLASSES|
      invariant tripsParsed == Accumulated(origin, fetch, today, isLong, n)
      invariant Run(t0, lists[..n]) == (table.State(), Success(last))
    {
      ghost var ts := table.State();
      var written;
      tripsParsed, written := RunClass(table, origin, fetch, today, isLong, tripsParsed, n);
      AccumulatedListsAt(origin, fetch, today, isLong, |CLASSES|, n);
      RunStep(t0, lists, n, last, ts, table.State(), written);
      if written.Failure? {
        RunStopsAtFailure(t0, lists, n + 1, |CLASSES|);
        TakeAll(lists);
        r := Failure(written.error);
        return;
      }
      last := Some(written.value);
      n := n + 1;
    }
    TakeAll(lists);
    r := Success(last);
  }

  /**
   * `lambda_handler(event, context)` for `event['origin'] == origin`: a
   * `FlightsTable` with the default back-off over `store` (returned, so that
   * its logs can be inspected), the loop over the three classes, and the
   * response or the error raised.
   */
  method HandleDownload(store: Store, origin: string, tableExists: bool, fetch: Fetch, today: Date, isLong: Trip -> bool)
    returns (table: FlightsTable, r: Result<Response, HandlerError>)
    requires ValidDate(today)
    modifies store
    ensures fresh(table) && table.store == store
    ensures (table.State(), r) == DownloadSpec(TableState(old(store.State()), [], []), origin, tableExists, fetch, today, isLong)
  {
    table := new FlightsTable(store);
    if !tableExists {
      r := Failure(UnboundLocalError);
      return;
    }
    var outcome := RunClasses(table, origin, fetch, today, isLong);
    match outcome
    case Failure(e) =>
      r := Failure(StoreError(e));
    case Success(None) =>
      r := Failure(UnboundLocalError);
    case Success(Some(body)) =>
      r := Success(Response(200, body));
  }
}
