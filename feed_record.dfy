/**
 * One entry of the flight-tracking "zones feed" snapshot: the record filter,
 * the positional decoder and the validity test of the KML handler
 * (index.js:57-75).
 */
module FeedRecord {
  import opened Js
  import opened Wrappers

  /** An entry whose value is shorter than this is skipped. */
  const MinRecordLength: nat := 13

  /** The fields the handler reads from a record array, by position. */
  datatype Record = Record(
    lat: Value,           // position 0
    lon: Value,           // position 1
    alt: Value,           // position 2
    speed: Value,         // position 3
    callsign: Value,      // position 4
    aircraftType: Value,  // position 5
    heading: Value)       // position 12

  /**
   * The array test and the destructuring: an entry value that is not an array,
   * or is an array of fewer than 13 elements, decodes to nothing; otherwise the
   * fields are taken strictly by position and positions 6 to 11 (and anything
   * past 12) are ignored.
   */
  function Decode(value: Value): (r: Option<Record>)
    ensures r.Some? <==> value.Arr? && |value.items| >= MinRecordLength
    ensures r.Some? ==>
      && r.value.lat == value.items[0]
      && r.value.lon == value.items[1]
      && r.value.alt == value.items[2]
      && r.value.speed == value.items[3]
      && r.value.callsign == value.items[4]
      && r.value.aircraftType == value.items[5]
      && r.value.heading == value.items[12]
  {
    if !value.Arr? || |value.items| < MinRecordLength then None
    else
      var items := value.items;
      Some(Record(items[0], items[1], items[2], items[3], items[4], items[5], items[12]))
  }

  /** The validity test `!lat || !lon || !alt` negated: all three are truthy. */
  predicate HasPosition(rec: Record) {
    Truthy(rec.lat) && Truthy(rec.lon) && Truthy(rec.alt)
  }

  /**
   * Every field a Placemark interpolates converts to text without throwing.
   * Falsy fields always do, so this only constrains the truthy ones.
   */
  predicate RecordPrintable(rec: Record) {
    && Printable(rec.lat) && Printable(rec.lon) && Printable(rec.alt)
    && Printable(rec.speed) && Printable(rec.callsign)
    && Printable(rec.aircraftType) && Printable(rec.heading)
  }

  /** Both filters: the decoded record when the entry yields a Placemark, None when it is skipped. */
  function Accept(value: Value): (r: Option<Record>)
    ensures r.Some? <==>
      && value.Arr? && |value.items| >= MinRecordLength
      && Truthy(value.items[0]) && Truthy(value.items[1]) && Truthy(value.items[2])
    ensures r.Some? ==> Decode(value) == r && HasPosition(r.value)
  {
    match Decode(value)
    case None => None
    case Some(rec) => if HasPosition(rec) then Some(rec) else None
  }

  /** Two record arrays that agree on positions 0-5 and 12 decode alike: the other positions are never read. */
  lemma DecodeReadsOnlyItsPositions(a: seq<Value>, b: seq<Value>)
    requires |a| >= MinRecordLength && |b| >= MinRecordLength
    requires forall k :: 0 <= k < 6 ==> a[k] == b[k]
    requires a[12] == b[12]
    ensures Decode(Arr(a)) == Decode(Arr(b))
    ensures Accept(Arr(a)) == Accept(Arr(b))
  {
    assert a[0] == b[0] && a[1] == b[1] && a[2] == b[2];
    assert a[3] == b[3] && a[4] == b[4] && a[5] == b[5];
  }

  /** A literal 0 latitude, longitude or altitude is falsy, so the record is dropped like a missing one. */
  lemma ZeroPositionRejected(items: seq<Value>, k: nat)
    requires k < 3 && k < |items|
    requires items[k] == Num(Zero) || items[k] == Null
    ensures Accept(Arr(items)) == None
  {
  }
}
