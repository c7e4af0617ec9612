/**
 * The parts of a DynamoDB Streams record that the stream lambda and its
 * helpers read: the event name and, under `dynamodb`, the key attributes
 * (`Keys`) and the full new item (`NewImage`, absent for a removal). Images
 * hold every attribute of the item, key attributes included, in the typed
 * form `{'S': ...}` or `{'N': ...}`.
 */
module ChangeFeed {
  import opened Wrappers
  import opened Store

  datatype StreamRecord = StreamRecord(eventName: string, keys: Attrs, newImage: Option<Attrs>)

  /** What reading a record or updating the table can raise. */
  datatype Failure = KeyError(key: string) | IndexError | ClientError(code: string)

  /** `record['dynamodb']['NewImage']`. */
  function NewImage(rec: StreamRecord): (r: Result<Attrs, Failure>)
    ensures r.Success? <==> rec.newImage.Some?
    ensures r.Success? ==> r.value == rec.newImage.value
    ensures r.Failure? ==> r.error == KeyError("NewImage")
  {
    if rec.newImage.None? then Failure(KeyError("NewImage")) else Success(rec.newImage.value)
  }

  /** `image[name]['S']`: a KeyError when the attribute is absent or is not a string. */
  function StringField(image: Attrs, name: string): (r: Result<string, Failure>)
    ensures r.Success? <==> name in image && image[name].S?
    ensures r.Success? ==> image[name] == S(r.value)
    ensures name !in image ==> r == Failure(KeyError(name))
    ensures name in image && !image[name].S? ==> r == Failure(KeyError("S"))
  {
    if name !in image then Failure(KeyError(name))
    else if !image[name].S? then Failure(KeyError("S"))
    else Success(image[name].s)
  }

  /** `image[name]['N']`: a KeyError when the attribute is absent or is not a number. */
  function NumberField(image: Attrs, name: string): (r: Result<int, Failure>)
    ensures r.Success? <==> name in image && image[name].N?
    ensures r.Success? ==> image[name] == N(r.value)
    ensures name !in image ==> r == Failure(KeyError(name))
    ensures name in image && !image[name].N? ==> r == Failure(KeyError("N"))
  {
    if name !in image then Failure(KeyError(name))
    else if !image[name].N? then Failure(KeyError("N"))
    else Success(image[name].n)
  }

  /** `record['dynamodb']['NewImage']['SortKey']['S']`. */
  function NewSortKey(rec: StreamRecord): (r: Result<string, Failure>)
    ensures r.Success? <==> rec.newImage.Some? && "SortKey" in rec.newImage.value && rec.newImage.value["SortKey"].S?
    ensures r.Success? ==> rec.newImage.value["SortKey"] == S(r.value)
  {
    match NewImage(rec)
    case Failure(e) => Failure(e)
    case Success(image) => StringField(image, "SortKey")
  }

  /** The full image of a stored item: its attributes and its two key attributes. */
  function ImageOf(item: Item): (image: Attrs)
    ensures "FlightID" in image && "SortKey" in image
    ensures image["FlightID"] == S(item.key.flightId) && image["SortKey"] == S(item.key.sortKey)
  {
    item.attrs["FlightID" := S(item.key.flightId)]["SortKey" := S(item.key.sortKey)]
  }

  /** The record the stream delivers when `put_item` creates the row of `item`. */
  function InsertRecord(item: Item): (rec: StreamRecord)
    ensures rec.eventName == "INSERT" && rec.newImage.Some?
    ensures NewSortKey(rec) == Success(item.key.sortKey)
    ensures StringField(rec.keys, "FlightID") == Success(item.key.flightId)
  {
    StreamRecord("INSERT", map["FlightID" := S(item.key.flightId), "SortKey" := S(item.key.sortKey)], Some(ImageOf(item)))
  }
}
