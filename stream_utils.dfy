/**
 * The stream job's helpers: `is_new_flight`, the filter that keeps the
 * insertions of price rows, and `flight_to_text`, which renders one flagged
 * flight as a line of the HTML digest.
 */
module StreamUtils {
  import opened Wrappers
  import opened Store
  import opened Text
  import opened Dates
  import opened ChangeFeed
  import opened Seqs

  // ---------------------------------------------------------------------------
  // is_new_flight

  /** `is_new_flight(record)`: an insertion whose new `SortKey` contains `cid`. */
  function IsNewFlight(rec: StreamRecord): (r: Result<bool, Failure>)
    ensures rec.eventName != "INSERT" ==> r == Success(false)
    ensures rec.eventName == "INSERT" ==>
      (r.Success? <==> NewSortKey(rec).Success?)
      && (r.Success? ==> r.value == Contains(NewSortKey(rec).value, "cid"))
      && (r.Failure? ==> r.error.KeyError?)
  {
    if rec.eventName != "INSERT" then Success(false)
    else
      match NewSortKey(rec)
      case Failure(e) => Failure(e)
      case Success(sortKey) => Success(Contains(sortKey, "cid"))
  }

  /** For an insertion, `is_new_flight` holds exactly when `cid` occurs somewhere in the sort key. */
  lemma IsNewFlightIff(rec: StreamRecord)
    requires rec.eventName == "INSERT" && NewSortKey(rec).Success?
    ensures IsNewFlight(rec) == Success(exists i :: OccursAt(NewSortKey(rec).value, "cid", i))
  {
    ContainsIff(NewSortKey(rec).value, "cid");
  }

  // ---------------------------------------------------------------------------
  // flight_to_text

  /** `flight['flight_info']`: the route row's fields. */
  datatype FlightInfo = FlightInfo(originPlaceId: string, destinationPlaceId: string,
                                   destinationCity: string, destinationCountry: string)

  /** `flight['flight_details']`: the price row's fields (dates as `YYYYMMDD`). */
  datatype FlightDetails = FlightDetails(departureDate: string, returnDate: string, days: int, price: int)

  /**
   * A flight flagged by the anomaly detector: its severity `level`, its rows
   * and the median price, already rendered with two decimals.
   */
  datatype FlaggedFlight = FlaggedFlight(level: int, info: FlightInfo, details: FlightDetails, medianPrice: string)

  /** The HTML entity of the fire emoji. */
  const FIRE := "&#128293;"

  /** `https://www.kayak.pl/flights/{origin}-{destination}/{dep}-flexible-3days/{ret}-flexible-3days?sort=bestflight_a`. */
  function KayakUrl(origin: string, destination: string, departure: string, ret: string): string {
    "https://www.kayak.pl/flights/" + origin + "-" + destination + "/" + departure
      + "-flexible-3days/" + ret + "-flexible-3days?sort=bestflight_a"
  }

  /** The values `flight_to_text` substitutes into its f-string, already converted to text. */
  datatype LineFields = LineFields(marker: string, origin: string, destination: string, name: string,
                                   departure: string, ret: string, days: string, price: string,
                                   median: string, url: string)

  /** The substituted values of a flagged flight: dates in ISO form, numbers as decimal digits. */
  function Fields(f: FlaggedFlight): LineFields
    requires IsCompactDate(f.details.departureDate) && IsCompactDate(f.details.returnDate)
  {
    var departure := CompactToIso(f.details.departureDate);
    var ret := CompactToIso(f.details.returnDate);
    LineFields(Repeat(FIRE, f.level), f.info.originPlaceId, f.info.destinationPlaceId,
               f.info.destinationCity + ", " + f.info.destinationCountry, departure, ret,
               IntToString(f.details.days), IntToString(f.details.price), f.medianPrice,
               KayakUrl(f.info.originPlaceId, f.info.destinationPlaceId, departure, ret))
  }

  /** The parts of `flight_to_text`'s f-string, literal text and substituted values alternating. */
  function Parts(v: LineFields): seq<string> {
    [ v.marker, " ", v.origin, " - ", v.destination, " (", v.name, "): ",
      "Od ", v.departure, " do ", v.ret, " (", v.days, " dni) za <b>",
      v.price, " z\U{0142}</b> (Mediana: ", v.median, " z\U{0142}) ",
      "<a href=\"", v.url, "\">LINK</a>" ]
  }

  /**
   * `flight_to_text(flight)` for a flight whose dates `strptime(..., '%Y%m%d')`
   * accepts: the line opens with the fire markers and a space, and closes
   * with the HTML link to the route's Kayak search.
   */
  function FlightToText(f: FlaggedFlight): (line: string)
    requires IsCompactDate(f.details.departureDate) && IsCompactDate(f.details.returnDate)
    ensures var marker := Repeat(FIRE, f.level);
      |marker| < |line| && line[..|marker|] == marker && line[|marker|] == ' '
    ensures var url := KayakUrl(f.info.originPlaceId, f.info.destinationPlaceId,
        CompactToIso(f.details.departureDate), CompactToIso(f.details.returnDate));
      var link := "<a href=\"" + url + "\">LINK</a>";
      |link| <= |line| && line[|line| - |link|..] == link
  {
    var v := Fields(f);
    LineEnds(v);
    Concat(Parts(v))
  }

  lemma {:induction false} ConcatAppend(parts: seq<string>, i: nat)
    requires i < |parts|
    ensures Concat(parts[..i + 1]) == Concat(parts[..i]) + parts[i]
  {
    assert parts[..i + 1][..i] == parts[..i];
  }

  /** Part `i` of an f-string sits right after the parts before it. */
  lemma {:induction false} ConcatPrefix(parts: seq<string>, i: nat)
    requires i <= |parts|
    ensures |Concat(parts[..i])| <= |Concat(parts)|
    ensures Concat(parts)[..|Concat(parts[..i])|] == Concat(parts[..i])
    decreases |parts| - i
  {
    if i == |parts| {
      assert parts[..i] == parts;
    } else {
      ConcatPrefix(parts, i + 1);
      ConcatAppend(parts, i);
      var whole, longer, shorter := Concat(parts), Concat(parts[..i + 1]), Concat(parts[..i]);
      assert longer[..|shorter|] == shorter;
      assert whole[..|shorter|] == longer[..|shorter|];
    }
  }

  /** The position of part `i` in the rendered string. */
  function Offset(parts: seq<string>, i: nat): nat
    requires i <= |parts|
  {
    |Concat(parts[..i])|
  }

  lemma PartOccurs(parts: seq<string>, i: nat)
    requires i < |parts|
    ensures OccursAt(Concat(parts), parts[i], Offset(parts, i))
    ensures Offset(parts, i) + |parts[i]| == Offset(parts, i + 1)
  {
    ConcatAppend(parts, i);
    ConcatPrefix(parts, i + 1);
    var whole, longer, shorter := Concat(parts), Concat(parts[..i + 1]), Concat(parts[..i]);
    assert whole[|shorter|..|longer|] == longer[|shorter|..];
  }

  /** Part offsets grow with the index. */
  lemma {:induction false} OffsetMonotone(parts: seq<string>, i: nat, j: nat)
    requires i <= j <= |parts|
    ensures Offset(parts, i) <= Offset(parts, j)
    decreases j - i
  {
    if i < j {
      PartOccurs(parts, i);
      OffsetMonotone(parts, i + 1, j);
    }
  }

  /** The first part of an f-string starts it, and the second follows right after. */
  lemma LeadingParts(parts: seq<string>)
    requires 2 <= |parts|
    ensures |parts[0]| < |Concat(parts)| || parts[1] == ""
    ensures |parts[0]| + |parts[1]| <= |Concat(parts)|
    ensures Concat(parts)[..|parts[0]|] == parts[0]
    ensures OccursAt(Concat(parts), parts[1], |parts[0]|)
  {
    ConcatAppend(parts, 0);
    assert parts[..0] == [];
    PartOccurs(parts, 0);
    PartOccurs(parts, 1);
    ConcatPrefix(parts, 1);
  }

  /** A line that starts with `level` fire markers and a space has each marker in its own block. */
  lemma MarkerBlocks(line: string, level: int)
    requires |Repeat(FIRE, level)| < |line| && line[..|Repeat(FIRE, level)|] == Repeat(FIRE, level)
    requires line[|Repeat(FIRE, level)|] == ' '
    ensures var n := if level <= 0 then 0 else level;
      && n * |FIRE| < |line|
      && line[..n * |FIRE|] == Repeat(FIRE, level)
      && (forall i :: 0 <= i < n ==> line[i * |FIRE|..(i + 1) * |FIRE|] == FIRE)
      && line[n * |FIRE|] == ' '
  {
    var marker := Repeat(FIRE, level);
    var n := if level <= 0 then 0 else level;
    RepeatLength(FIRE, level);
    assert |marker| == n * |FIRE|;
    forall i | 0 <= i < n
      ensures line[i * |FIRE|..(i + 1) * |FIRE|] == FIRE
    {
      RepeatBlock(FIRE, level, i);
      assert line[i * |FIRE|..(i + 1) * |FIRE|] == marker[i * |FIRE|..(i + 1) * |FIRE|];
    }
  }

  /**
   * The line starts with the fire marker repeated `level` times (none for a
   * level of zero or less), then a space.
   */
  lemma FireMarkerLeads(f: FlaggedFlight)
    requires IsCompactDate(f.details.departureDate) && IsCompactDate(f.details.returnDate)
    ensures var line, n := FlightToText(f), if f.level <= 0 then 0 else f.level;
      && n * |FIRE| < |line|
      && line[..n * |FIRE|] == Repeat(FIRE, f.level)
      && (forall i :: 0 <= i < n ==> line[i * |FIRE|..(i + 1) * |FIRE|] == FIRE)
      && line[n * |FIRE|] == ' '
  {
    MarkerBlocks(FlightToText(f), f.level);
  }

  /**
   * The origin, the destination, "city, country", the number of nights and
   * the current price appear in the line in that order, without overlapping.
   */
  lemma FieldsInOrder(f: FlaggedFlight)
    requires IsCompactDate(f.details.departureDate) && IsCompactDate(f.details.returnDate)
    ensures exists p1, p2, p3, p4, p5 ::
      var line := FlightToText(f);
      && OccursAt(line, f.info.originPlaceId, p1)
      && p1 + |f.info.originPlaceId| <= p2 && OccursAt(line, f.info.destinationPlaceId, p2)
      && p2 + |f.info.destinationPlaceId| <= p3
      && OccursAt(line, f.info.destinationCity + ", " + f.info.destinationCountry, p3)
      && p3 + |f.info.destinationCity + ", " + f.info.destinationCountry| <= p4
      && OccursAt(line, IntToString(f.details.days), p4)
      && p4 + |IntToString(f.details.days)| <= p5 && OccursAt(line, IntToString(f.details.price), p5)
  {
    var v := Fields(f);
    var p1, p2, p3, p4, p5, p6 := LineOrder(v);
    assert FlightToText(f) == Concat(Parts(v));
  }

  /** The median price, already formatted, follows the current price in the line. */
  lemma MedianFollowsPrice(f: FlaggedFlight)
    requires IsCompactDate(f.details.departureDate) && IsCompactDate(f.details.returnDate)
    ensures exists p5, p6 ::
      var line := FlightToText(f);
      && OccursAt(line, IntToString(f.details.price), p5)
      && p5 + |IntToString(f.details.price)| <= p6 && OccursAt(line, f.medianPrice, p6)
  {
    var v := Fields(f);
    var p1, p2, p3, p4, p5, p6 := LineOrder(v);
    assert FlightToText(f) == Concat(Parts(v));
  }

  /** Two neighbouring parts of an f-string appear together, the second right after the first. */
  lemma NeighbourParts(parts: seq<string>, i: nat)
    requires i + 1 < |parts|
    ensures OccursAt(Concat(parts), parts[i] + parts[i + 1], Offset(parts, i))
  {
    var line, a, b := Concat(parts), parts[i], parts[i + 1];
    var p, q := Offset(parts, i), Offset(parts, i + 1);
    PartOccurs(parts, i);
    PartOccurs(parts, i + 1);
    assert OccursAt(line, a, p) && OccursAt(line, b, q) && q == p + |a|;
    OccursTogether(line, a, b, p);
  }

  /**
   * Both dates are shown after their labels as `YYYY-MM-DD`: the digits of
   * the `YYYYMMDD` input with dashes after the year and the month, so that
   * deleting the dashes gives the input back.
   */
  lemma DatesShownIso(f: FlaggedFlight)
    requires IsCompactDate(f.details.departureDate) && IsCompactDate(f.details.returnDate)
    ensures var dep, ret := f.details.departureDate, f.details.returnDate;
      var isoDep, isoRet := dep[..4] + "-" + dep[4..6] + "-" + dep[6..], ret[..4] + "-" + ret[4..6] + "-" + ret[6..];
      && Without(isoDep, '-') == dep && Without(isoRet, '-') == ret
      && (exists p :: OccursAt(FlightToText(f), "Od " + isoDep, p))
      && (exists q :: OccursAt(FlightToText(f), " do " + isoRet, q))
  {
    var v := Fields(f);
    var p, q := LineDates(v);
    assert FlightToText(f) == Concat(Parts(v));
  }

  /** An f-string ends with its last three parts. */
  lemma TrailingParts(parts: seq<string>)
    requires 3 <= |parts|
    ensures var n := |parts|;
      var tail := parts[n - 3] + parts[n - 2] + parts[n - 1];
      |tail| <= |Concat(parts)| && Concat(parts)[|Concat(parts)| - |tail|..] == tail
  {
    var n := |parts|;
    assert parts[..n] == parts;
    ConcatAppend(parts, n - 1);
    ConcatAppend(parts, n - 2);
    ConcatAppend(parts, n - 3);
    var pre := Concat(parts[..n - 3]);
    var tail := parts[n - 3] + parts[n - 2] + parts[n - 1];
    assert Concat(parts) == pre + tail;
  }

  /**
   * The line ends with the link, whose address is the Kayak search for the
   * route with both dates converted to `YYYY-MM-DD` and a three-day window.
   */
  lemma LinkUsesConvertedDates(f: FlaggedFlight)
    requires IsCompactDate(f.details.departureDate) && IsCompactDate(f.details.returnDate)
    ensures var dep, ret := f.details.departureDate, f.details.returnDate;
      var url := "https://www.kayak.pl/flights/" + f.info.originPlaceId + "-" + f.info.destinationPlaceId + "/"
        + (dep[..4] + "-" + dep[4..6] + "-" + dep[6..]) + "-flexible-3days/"
        + (ret[..4] + "-" + ret[4..6] + "-" + ret[6..]) + "-flexible-3days?sort=bestflight_a";
      var link := "<a href=\"" + url + "\">LINK</a>";
      var line := FlightToText(f);
      |link| <= |line| && line[|line| - |link|..] == link
  {
  }

  /** The rendered line starts with the marker and a space, and ends with the HTML link. */
  lemma LineEnds(v: LineFields)
    ensures var line := Concat(Parts(v));
      && |v.marker| < |line| && line[..|v.marker|] == v.marker && line[|v.marker|] == ' '
    ensures var line, link := Concat(Parts(v)), "<a href=\"" + v.url + "\">LINK</a>";
      |link| <= |line| && line[|line| - |link|..] == link
  {
    var parts := Parts(v);
    LeadingParts(parts);
    TrailingParts(parts);
  }

  /** Where origin, destination, "city, country", nights, price and median sit in the rendered line, in order. */
  lemma LineOrder(v: LineFields) returns (p1: nat, p2: nat, p3: nat, p4: nat, p5: nat, p6: nat)
    ensures var line := Concat(Parts(v));
      && OccursAt(line, v.origin, p1)
      && p1 + |v.origin| <= p2 && OccursAt(line, v.destination, p2)
      && p2 + |v.destination| <= p3 && OccursAt(line, v.name, p3)
      && p3 + |v.name| <= p4 && OccursAt(line, v.days, p4)
      && p4 + |v.days| <= p5 && OccursAt(line, v.price, p5)
      && p5 + |v.price| <= p6 && OccursAt(line, v.median, p6)
  {
    var parts := Parts(v);
    assert parts[2] == v.origin && parts[4] == v.destination && parts[6] == v.name;
    assert parts[13] == v.days && parts[15] == v.price && parts[17] == v.median;
    p1, p2 := PartsInOrder(parts, 2, 4);
    p2, p3 := PartsInOrder(parts, 4, 6);
    p3, p4 := PartsInOrder(parts, 6, 13);
    p4, p5 := PartsInOrder(parts, 13, 15);
    p5, p6 := PartsInOrder(parts, 15, 17);
  }

  /** Part `i` of an f-string ends before part `j` starts, for `i < j`. */
  lemma PartsInOrder(parts: seq<string>, i: nat, j: nat) returns (p: nat, q: nat)
    requires i < j < |parts|
    ensures p == Offset(parts, i) && q == Offset(parts, j)
    ensures OccursAt(Concat(parts), parts[i], p) && OccursAt(Concat(parts), parts[j], q)
    ensures p + |parts[i]| <= q
  {
    PartOccurs(parts, i);
    PartOccurs(parts, j);
    OffsetMonotone(parts, i + 1, j);
    p, q := Offset(parts, i), Offset(parts, j);
  }

  /** Where the two labelled dates sit in the rendered line. */
  lemma LineDates(v: LineFields) returns (p: nat, q: nat)
    ensures OccursAt(Concat(Parts(v)), "Od " + v.departure, p)
    ensures OccursAt(Concat(Parts(v)), " do " + v.ret, q)
  {
    var parts := Parts(v);
    NeighbourParts(parts, 8);
    NeighbourParts(parts, 10);
    p, q := Offset(parts, 8), Offset(parts, 10);
  }
}
