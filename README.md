# Flight price tracker: a Dafny model of its table writers and stream handler

The system collects flight prices from the Kayak explore API and
stores them, one price row per route and collection day, in a DynamoDB table named `flights`. A change-feed (DynamoDB
Streams) job then keeps a per-route running aggregate. This project models
the following parts and proves properties about them:

- **download job** (`flights-download`):
  - `parse_trip` turns one destination of the API answer into a route row
    and a price row, or rejects it.
  - The handler walks the three duration classes `BREAK`, `WEEK` and `LONG`.
    It appends every accepted trip to one growing list and hands the whole
    list to `write_batch` after each class.
- **the job's table wrapper** (`FlightsTable`):
  - `write_item` retries a put on `ProvisionedThroughputExceededException`,
    at most `retries` times, sleeping `backoff * 2 ** i` before retry `i`.
    Any other error is raised at once.
  - `write_batch` seeds a route's `details` row and a zeroed `total_agg` row
    the first time the route is seen, and always writes the price row.
  - `query_items` concatenates the pages of a paginated query.
- **stream job** (`flights-updateOnStream`):
  - The handler reads the first record of a change-feed batch. It
    acknowledges route and aggregate rows with 201. For a price row it adds
    the price to `flights_month_total_price` and one to
    `flights_month_count` on the route's `total_agg` row, with a single
    `update_item`.
  - The helpers are `is_new_flight` and `flight_to_text`, which renders one
    line of the notification.

The modules:

- `Store` (`store.dfy`) models the DynamoDB table. It is a `class` whose
  fields are:
  - `rows`, a map from `(FlightID, SortKey)` to attributes;
  - `faults`, a queue of error codes that the next write attempts raise;
  - ghost logs of put attempts and written items.
- `Table` (`table.dfy`) models `FlightsTable` as a class over a `Store`:
  - ghost logs of the delays slept and of the batches received;
  - `WriteItem`, `WriteFlight`, `WriteBatch` and `QueryItems` are methods
    proved equal to closed-form or recursive specification functions.
- `Download` (`download.dfy`): `ParseTrip`, the handler's two loops, and
  their specification: `Accumulated` for `trips_parsed`, `Run` for the
  writes of the accumulated lists, and `DownloadSpec`.
- `ChangeFeed` (`changefeed.dfy`): the stream records, and the `KeyError`s
  raised when they are read.
- `StreamUtils` (`stream_utils.dfy`): `is_new_flight` and `flight_to_text`.
- `StreamHandler` (`stream_handler.dfy`): the stream handler.
- `Pipeline` (`pipeline.dfy`): lemmas that follow the download job's rows
  through the change feed into the stream job.
- `Text`, `Dates`, `Seqs` and `Wrappers`: string, date, sequence and
  option/result helpers.

Parameters stand in for I/O:

- the explore API's answer for each `days_range`;
- the distance test `is_long`;
- the answer of `table.exists()`;
- today's date.

Store errors come from the `faults` queue. `time.sleep` is replaced by a
ghost log of the delays.

Where the documented behaviour of the system and the code differ, the
model follows the code:

- **No deduplication of deliveries.** `ReplayCountsEveryDelivery` shows
  that a record delivered `n` times counts `n` flights.
- **Class names.** The shortest duration class is called `BREAK`, not
  `SHORT`.
- **Aggregate field names.** `write_batch` seeds the aggregate row with
  `count_total` and `price_total`. The stream job increments
  `flights_month_total_price` and `flights_month_count`. So the first price
  record of a new route makes the update raise `ValidationException`
  (`Pipeline.NewRouteFirstPriceRaises`).
- **No check of `eventName`.** The stream handler does not look at it.
  A malformed record is not skipped: it raises `KeyError`.
- **Retry count.** `retries = 5` means up to six put attempts.
- **Puts overwrite.** A put replaces an existing row.

## Model

| member | source | states |
|---|---|---|
| Store.Increment | flights-updateOnStream/lambda_function.py:27-31 | `SET f = f + :v` fails with ValidationException exactly when the row or one of the incremented numeric attributes is missing; otherwise each named attribute grows by its delta and every other attribute is kept |
| Store.Update | flights-updateOnStream/lambda_function.py:27-31 | without a pending store error, `update_item` fails exactly when `Increment` does; on success the row at the key becomes the `Increment`ed row, the answer (`ReturnValues=UPDATED_NEW`) is exactly the updated attributes with their new values, and no other row changes |
| Store.Store.UpdateItem | flights-updateOnStream/lambda_function.py:27-31 | the table's new state and answer are those of `Update` on the old state |
| Store.Store.PutItem | flights-download/table.py:145 | one put attempt: raise the next pending error, or replace the row at the item's key and log the item |
| Store.Store.GetItem | flights-download/table.py:87-101 | `get_item` returns the row at the key, or nothing when it is absent |
| Dates.FormatCompact | flights-download/lambda_function.py:65 | `strftime('%Y%m%d')` gives eight digits |
| Dates.FormatIso | flights-download/lambda_function.py:66 | `strftime('%Y-%m-%d')` gives ten characters |
| Dates.CompactToIso | flights-updateOnStream/utils.py:15-16 | `strptime(s, '%Y%m%d').date().isoformat()` inserts dashes after the year and the month; deleting them gives the input back |
| Dates.IsoOfCompact | flights-updateOnStream/utils.py:15-16 | for an eight-digit date, `isoformat` gives its year, month and day digits separated by dashes, and deleting the dashes gives the input back |
| Dates.CompactIsIsoWithoutDashes | flights-download/lambda_function.py:65-66 | the price row's compact date is its ISO `collection_date` with the dashes removed |
| Dates.CompactRoundTrip | flights-updateOnStream/utils.py:15 | the compact form of a valid date parses back to that date |
| Text.NatToStringValue | flights-download/table.py:177 | `str(n)` is a run of decimal digits that reads back as `n` |
| Text.ContainsIff | flights-updateOnStream/utils.py:29 | `needle in hay` holds exactly when the needle occurs at some position |
| Text.RepeatBlock | flights-updateOnStream/utils.py:11 | block `i` of `s * n` is `s` |
| Table.LeadingThrottlesSpec | flights-download/table.py:148 | the throttling errors counted at the head of the faults are all throughput errors, and the next fault is not |
| Table.WriteItemStopsAt | flights-download/table.py:141-162 | after `i` throttled attempts, `write_item` writes once when no fault is left, and re-raises the next fault when it is another error or the retries are used up |
| Table.TriesBounded | flights-download/table.py:142-157 | `write_item` makes at least one and at most `retries + 1` put attempts, and sleeps once before each attempt but the first |
| Table.PersistentThrottlingGivesUp | flights-download/table.py:148-157 | throughput errors on all of the first `retries + 1` attempts re-raise that error after exactly `retries + 1` put attempts and the `retries` delays `backoff * 2 ** i`, writing nothing |
| Table.OtherErrorsAreNotRetried | flights-download/table.py:148-162 | any other error code met on attempt `j + 1` is re-raised there: exactly `j + 1` put attempts and `j` delays, no retry, nothing written |
| Table.SuccessfulWriteIsSingle | flights-download/table.py:145-146 | a put that goes through ends `write_item`: the item is written once at its key and no other row changes |
| Table.RetryStep | flights-download/table.py:148-156 | a throughput error within the leading run of them leaves room for one more attempt, after one more delay of `backoff * 2 ** i` |
| Table.BackoffAt | flights-download/table.py:154-156 | the delay before retry `i` is `backoff * 2 ** i` |
| Table.BackoffsDouble | flights-download/table.py:154 | each delay is twice the previous one, so they strictly increase for a positive back-off |
| Table.UploadMessageCounts | flights-download/table.py:177 | the returned message is `"Successfully uploaded <digits> items"`, quotes included, with digits that read back as `len(items)` |
| Table.WriteItemFaultFree | flights-download/table.py:145-146 | without store errors `write_item` is a single put of the item and sleeps nothing |
| Table.SeedStepFaultFree | flights-download/table.py:168-175 | without store errors, a route with no `details` row gets its details row, then the zeroed `total_agg` row, then the price row, in that order |
| Table.PriceStepFaultFree | flights-download/table.py:169-175 | without store errors, a route whose `details` row exists gets only its price row |
| Table.ItemStepFaultFree | flights-download/table.py:167-175 | without store errors, one pass writes the price row, raises nothing and removes no row |
| Table.BatchFaultFree | flights-download/table.py:165-177 | without store errors, `write_batch` writes every price row of the batch and raises nothing |
| Table.WriteItemFrame | flights-download/table.py:145 | `write_item` changes no row other than the item's |
| Table.ItemStepFrame | flights-download/table.py:168-175 | one pass changes only the flight's route row, aggregate row and price row |
| Table.BatchFrame | flights-download/table.py:165-177 | a row that no flight of the batch can write is left as it was, whatever the store raises |
| Table.BatchKeepsLog | flights-download/table.py:167-175 | the item loop does not add to the log of batches |
| Table.ItemStepKeepsRows | flights-download/table.py:167-175 | one pass removes no row |
| Table.BatchNeverReseeds | flights-download/table.py:169-174 | a route whose `details` row exists keeps its `total_agg` row unchanged, whatever the store raises |
| Table.BatchSeedsNewRoutes | flights-download/table.py:171-174 | without store errors, a first-seen route of the batch ends with a `details` row and the zeroed `total_agg` row |
| Table.WriteBatchLogsOnce | flights-download/lambda_function.py:87 | every call of `write_batch` records its list once, whatever it raises |
| Table.CollectConcatenatesPages | flights-download/table.py:112-129 | when page `n` is the first without `LastEvaluatedKey`, `query_items` returns the items of pages 0..n concatenated in order |
| Table.CollectPropagatesError | flights-download/table.py:124-127 | a query that raises after pages with continuation keys re-raises that error |
| Table.FlightsTable.constructor | flights-download/table.py:135-138 | the table starts with the given back-off and retries, 1 and 5 by default |
| Table.FlightsTable.WriteItem | flights-download/table.py:141-162 | the retry loop leaves the table, the sleep log and the error exactly as `WriteItemSpec` says |
| Table.FlightsTable.WriteFlight | flights-download/table.py:168-175 | one pass of `write_batch`'s loop: check the `details` row, seed if it is absent, write the price row, and stop at the first error |
| Table.FlightsTable.WriteBatch | flights-download/table.py:165-177 | `write_batch` goes through the items in order, stops at the first error, and otherwise returns the upload message |
| Table.FlightsTable.QueryItems | flights-download/table.py:103-129 | the pagination loop returns what `Collect` says about the query's responses |
| Download.ParseTrip | flights-download/lambda_function.py:49-72 | a trip is rejected exactly when it has no nights, costs over 20000, or is a BREAK or WEEK trip that `is_long` flags; an accepted trip gives a `details` route row and a price row, both on the route `"{origin}-{destination}-{class}"`, the price row keyed neither `details` nor `total_agg` |
| Download.ParseTripRows | flights-download/lambda_function.py:55-71 | the route row is keyed `(FlightID, 'details')` and holds exactly the two airports, the city and the country; the price row is keyed `(FlightID, 'cid_YYYYMMDD')` and holds exactly today's date and the trip's dates, price and nights |
| Download.PriceKeyIsCollectionDate | flights-download/lambda_function.py:65-66 | the price row's SortKey is `cid_` and its `collection_date` with the dashes removed |
| Download.LongIgnoresDistance | flights-download/lambda_function.py:53-54 | the distance test never decides the fate of a LONG trip |
| Download.RouteKeyInjective | flights-download/lambda_function.py:50 | for airport codes without dashes, equal FlightIDs mean the same origin, destination and class |
| Download.ParseAllStep | flights-download/lambda_function.py:83-86 | one pass of the inner loop appends the next trip's flight when it parses, and nothing otherwise |
| Download.ParseAllConcat | flights-download/lambda_function.py:83-86 | parsing two runs of trips in turn gives the two results one after the other |
| Download.ParseAllSound | flights-download/lambda_function.py:84-86 | every kept flight is what some trip parses to |
| Download.ParseAllComplete | flights-download/lambda_function.py:84-86 | every trip that parses contributes its flight |
| Download.ParseAllKeepsAccepted | flights-download/lambda_function.py:83-86 | when no trip is rejected, there is one flight per trip |
| Download.AccumulatedGrows | flights-download/lambda_function.py:80-86 | `trips_parsed` only grows: the list after an earlier class is a prefix of the list after a later one |
| Download.AccumulatedListsAt | flights-download/lambda_function.py:81-87 | the `i`-th list handed to `write_batch` is the list accumulated over classes 1..i+1 |
| Download.RunStep | flights-download/lambda_function.py:81-87 | one pass of the outer loop writes the accumulated list and keeps the write's message as `r` |
| Download.RunStopsAtFailure | flights-download/lambda_function.py:87 | once a write raises, the later classes change nothing |
| Download.RunLogsLists | flights-download/lambda_function.py:81-87 | `write_batch` receives the lists in order, up to the first whose write raises; all of them when none raises, and `r` is then set |
| Download.RunFaultFree | flights-download/lambda_function.py:81-87 | without store errors every list is written, the store still raises nothing, and `r` is the message of the last write |
| Download.DownloadLogsAccumulated | flights-download/lambda_function.py:79-87 | on an existing table, the lists `write_batch` receives are, in order, the list accumulated after class 1, after classes 1..2, and so on, at most three of them |
| Download.DownloadFaultFree | flights-download/lambda_function.py:75-91 | without store errors the handler writes the three accumulated lists and answers 200 with the message of the last write |
| Download.MissingTableRaises | flights-download/lambda_function.py:79-91 | when the table does not exist, `r` is never assigned: the handler raises and writes nothing |
| Download.AppendParsed | flights-download/lambda_function.py:83-86 | the inner loop appends to `trips_parsed` the flights of the trips that parse, in order |
| Download.RunClass | flights-download/lambda_function.py:82-87 | one pass of the outer loop appends the class's parsed trips to `trips_parsed` and writes the whole list |
| Download.RunClasses | flights-download/lambda_function.py:80-87 | the outer loop leaves the table and `r` as the specification `Run` says |
| Download.HandleDownload | flights-download/lambda_function.py:75-91 | the handler's table, answer or raised error are those of `DownloadSpec` |
| ChangeFeed.NewSortKey | flights-updateOnStream/lambda_function.py:18 | `record['dynamodb']['NewImage']['SortKey']['S']` succeeds exactly when the new image exists and holds a string SortKey |
| ChangeFeed.StringField | flights-updateOnStream/lambda_function.py:24 | `image[name]['S']` is the string stored there; otherwise it is a KeyError on the name or on `'S'` |
| ChangeFeed.NumberField | flights-updateOnStream/lambda_function.py:25 | `image[name]['N']` is the number stored there; otherwise it is a KeyError on the name or on `'N'` |
| StreamUtils.IsNewFlight | flights-updateOnStream/utils.py:26-31 | false for any event other than INSERT; for an INSERT, the result is whether `cid` occurs in the new SortKey, and a KeyError when there is none |
| StreamUtils.FlightToText | flights-updateOnStream/utils.py:10-23 | the line opens with the fire marker repeated `level` times and a space, and closes with the `<a href=...>LINK</a>` to the route's Kayak search on the converted dates |
| StreamUtils.IsNewFlightIff | flights-updateOnStream/utils.py:29 | for an INSERT, `is_new_flight` holds exactly when `cid` occurs at some position of the sort key |
| StreamUtils.FireMarkerLeads | flights-updateOnStream/utils.py:11-21 | the line starts with the fire marker repeated `level` times, none for a level of zero or less, then a space |
| StreamUtils.FieldsInOrder | flights-updateOnStream/utils.py:12-23 | origin, destination, "city, country", nights and current price appear in that order without overlapping |
| StreamUtils.MedianFollowsPrice | flights-updateOnStream/utils.py:18-22 | the already formatted median price appears in the line after the current price, without overlapping it |
| StreamUtils.DatesShownIso | flights-updateOnStream/utils.py:15-22 | the line shows "Od" and "do" followed by the departure and return dates converted to `YYYY-MM-DD` |
| StreamUtils.LinkUsesConvertedDates | flights-updateOnStream/utils.py:20-23 | the line ends with the link to the Kayak search for the route, with both converted dates and a three-day window |
| StreamHandler.Deltas | flights-updateOnStream/lambda_function.py:29-30 | the update adds the new price to the total and 1 to the count, and touches nothing else |
| StreamHandler.OnlyFirstRecordCounts | flights-updateOnStream/lambda_function.py:16-17 | only the first record of the batch is read |
| StreamHandler.EmptyBatchRaises | flights-updateOnStream/lambda_function.py:17 | an empty batch raises IndexError and changes nothing |
| StreamHandler.NonPriceRowIgnored | flights-updateOnStream/lambda_function.py:18-22 | a `details` or `total_agg` row is answered with 201 and the table is left as it was |
| StreamHandler.AcknowledgedIff | flights-updateOnStream/lambda_function.py:18-22 | the handler answers 201 and leaves the table alone exactly for a `details` or `total_agg` row |
| StreamHandler.PriceRecordIncrements | flights-updateOnStream/lambda_function.py:23-43 | a price row adds its price to the total and exactly one to the count, keeps the row's other attributes, and answers 200 with the two new values |
| StreamHandler.OnlyAggregateRowChanges | flights-updateOnStream/lambda_function.py:27-31 | no row other than `(FlightID, 'total_agg')` changes, whatever the record |
| StreamHandler.MissingAggregateFieldsRaise | flights-updateOnStream/lambda_function.py:32-38 | an aggregate row that is missing or lacks a numeric field makes the update raise ValidationException, and the table is left as it was |
| StreamHandler.ReplayCountsEveryDelivery | flights-updateOnStream/lambda_function.py:12-43 | a price record delivered `n` times counts `n` flights and adds its price `n` times |
| StreamHandler.HandleStream | flights-updateOnStream/lambda_function.py:12-43 | the handler's new table and its answer or raised error are those of `StreamSpec` |
| Pipeline.PriceRowIsNewFlight | flights-updateOnStream/utils.py:29 | the insertion of a `cid_YYYYMMDD` row is a new flight |
| Pipeline.RouteRowsAreNotNewFlights | flights-updateOnStream/utils.py:29 | the insertion of a `details` or a `total_agg` row is not a new flight |
| Pipeline.PriceRowIsPriceRecord | flights-updateOnStream/lambda_function.py:24-25 | the insertion of a price row reaches the update with the row's FlightID and price |
| Pipeline.ParsedRowsThroughFilter | flights-download/lambda_function.py:55-71 | of a parsed trip's rows, and the aggregate seeded beside them, only the price row is a new flight; its record is counted for the trip's route and price |
| Pipeline.CidOnlyInPriceKeys | flights-updateOnStream/utils.py:29 | of the sort keys `details`, `total_agg` and `cid_YYYYMMDD`, only the last contains `cid` |
| Pipeline.FilterAgreesWithHandler | flights-updateOnStream/utils.py:26-31 | for the sort keys the download job writes, `is_new_flight` holds exactly when the stream handler does not acknowledge the record with 201 |
| Pipeline.NewRouteFirstPriceRaises | flights-download/table.py:173 | after a fault-free batch seeds a new route with `count_total`/`price_total`, the first price record of that route makes the stream's update raise ValidationException |

## Left out

- HTTP: `get_trips`, the URL template and its headers are not modelled. The `destinations` list of each answer is a parameter (`Fetch`). A missing `destinations` key and malformed trips are not modelled.
- `is_long` (from `flights-download/utils.py`) is a parameter. Its distance table and the `origin_map` of the stream utilities are not modelled.
- `DynamoDBTable.exists` is a parameter, `tableExists`. Errors other than `ResourceNotFoundException` are not modelled.
- `DynamoDBTable.add_item` is not modelled: the core does not call it. The same holds for the base-class `write_batch`, which `FlightsTable.write_batch` overrides.
- `get_item` is modelled as never failing. Store errors are modelled only on put and update attempts.
- `batch_writer` is not modelled: its buffering, chunking and own retries are left out. Each `put_item` stands for one immediate write attempt.
- `time.sleep` is replaced by a ghost log of delays, for `write_item`. The fixed 0.25 s pause between query pages is not logged.
- Logging is left out.
- `json.dumps`/`Decimal` conversion of items and `Decimal(str(...))` of the price are left out. Numbers are unbounded integers, so float prices are not modelled.
- The anomaly detector, the notification batcher and the e-mail sender (the rest of the stream job) are not part of this model.
- `StreamUtils.FlightToText`: the median price appears as an already formatted string, because `{median_price:.2f}` is floating-point formatting.
- `StreamUtils.FlightToText` requires eight-digit calendar dates. The dates that `strptime` accepts leniently, and the `ValueError` it raises on others, are not modelled.
- `Table.FlightsTable.QueryItems`: the `ProjectionExpression` is not applied. The method requires the last scripted response to end the query, so the endless loop of `query_items` when every page carries a `LastEvaluatedKey` is not modelled. A `fields=None` call, which raises `TypeError` in `','.join`, is not modelled. The successive answers of the query, `LastEvaluatedKey` included, are given as a list.
- An event without a `Records` key, and a record without a `dynamodb` part, are not modelled.
- `TODAY` is a parameter of `ParseTrip` and of the handler, fixed for the whole run as in the module-level constant.
- `Download.RunClasses`, `Download.RunClass`, `Download.AppendParsed` and `Table.FlightsTable.WriteFlight` are the handler's outer loop, one pass of it, its inner loop and one pass of `write_batch`'s loop. They are separated out as methods so that each proof stays small.
