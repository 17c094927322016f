# openflight: flight snapshot to KML, modelled in Dafny

The `/flightradar.kml` endpoint of openflight takes one snapshot of the
flight-tracking "zones feed" and returns a KML document. The snapshot is an
object that maps keys to record arrays. The endpoint gives one map Placemark
for each aircraft record that has a usable position. This project models that
transformation, from the snapshot's `(key, value)` entries to the element tree
handed to the XML builder, and proves what the tree looks like.

- `js.dfy` (`Js`): JavaScript values, with truthiness (`!x`, `x || y`) and
  template-literal string conversion. The value type covers more than JSON
  can produce: it also has `undefined` and `NaN`. Numbers are opaque. Each is
  NaN, zero, or a non-zero number carried with its printed text. Conversion
  throws a TypeError for a parsed object with its own `toString` key, and for
  an array holding such an object; `Printable` says when it does not.
- `feed_record.dfy` (`FeedRecord`): the array-and-length filter, the
  positional decoder (0 lat, 1 lon, 2 alt, 3 speed, 4 callsign, 5 type,
  12 heading) and the falsy-position test.
- `placemark.dfy` (`Placemark`): a Placemark's name, four-line description,
  inline icon style and point.
- `kml.dfy` (`Kml`): the document skeleton (`kml` root with the KML 2.2
  namespace, `Document`, title `name`), the set of surviving entries, and the
  handler's loop as the method `BuildKml`. The loop is a `for` loop with the
  same two `continue`s as the handler. It ends in a document, or in a
  TypeError when an accepted record holds a field that cannot be converted
  to text. That error aborts the whole response, as the handler's `catch`
  does (index.js:116-118).
- `xml.dfy` (`Xml`): the element tree. `text.dfy` (`Text`): split and join
  at a separator. A KML consumer reads the coordinates and the description
  this way.
- `snapshot_example.dfy` (`SnapshotExample`): a worked five-entry snapshot.

The snapshot is modelled as a sequence of `(key, value)` pairs in the order
`Object.entries` yields them.

The model follows index.js as written:
- the callsign is not trimmed;
- a record whose altitude is falsy is dropped, not kept with altitude 0;
- the style's heading is the raw field, not rounded;
- there is no shared style and no `Folder`.

## Model

| member | source | states |
|---|---|---|
| Js.PrimitiveTextHasNo | index.js:84-87 | a scalar value converts without throwing, and its text holds no comma or newline unless its own string or number text does |
| Js.ArrayTextSplits | index.js:107 | an array interpolated into a template literal prints as its elements joined by commas, `null` and `undefined` giving empty fields; when no element text has a comma, splitting at commas gives back exactly the element texts |
| Js.UnprintableInside | index.js:84-87 | an object with its own `toString` key anywhere inside nested arrays makes the outer value unconvertible |
| Js.FalsyPrintable | index.js:84-87 | every falsy value converts without throwing, so a fallback is only ever taken for a value that could have been printed |
| Js.ShadowedToString | index.js:84-87 | an object with its own `toString` key, at any key position, cannot be converted, either by itself or as an element at any index of an array |
| FeedRecord.Decode | index.js:57-73 | a value gives a record exactly when it is an array of at least 13 elements; the fields are then elements 0, 1, 2, 3, 4, 5 and 12 |
| FeedRecord.Accept | index.js:57-75 | an entry is kept exactly when it is an array of at least 13 elements whose elements 0, 1 and 2 are all truthy; a kept record is the decoded one and has a position |
| FeedRecord.DecodeReadsOnlyItsPositions | index.js:59-73 | two record arrays that agree on positions 0-5 and 12 decode and filter alike, so positions 6-11 and everything past 12 are ignored |
| FeedRecord.ZeroPositionRejected | index.js:75 | a literal `0` (or `null`) latitude, longitude or altitude drops the record |
| Placemark.Name | index.js:79-80 | the name is the callsign's text when the callsign is truthy, and otherwise the entry key unchanged |
| Placemark.DescriptionLines | index.js:82-88 | read line by line, the description is exactly four lines: `Tipo:` with the `Desconhecido` fallback, `Altitude: … ft`, `Velocidade: … kt` with no fallback, and `Proa: …°` with the `N/A` fallback; there is no trailing newline |
| Placemark.Coordinates | index.js:75-107 | for every record that passed the validity test the coordinates text is exactly longitude, comma, latitude, comma, altitude; the zero fallback on the altitude never applies |
| Placemark.CoordinatesFields | index.js:105-107 | for an accepted record the coordinates text splits at commas into exactly longitude, latitude, altitude; the zero fallback on the altitude never applies |
| Placemark.ScalarDescriptionLines | index.js:82-88 | when the type, altitude, speed and heading are scalars whose own text has no newline, the description reads as exactly the four lines above |
| Placemark.NumericCoordinatesFields | index.js:105-107 | when longitude, latitude and altitude are numbers whose printed text has no comma, as in the feed, the coordinates text splits into exactly those three fields |
| Placemark.StyleElement | index.js:90-104 | the inline style is `Style/IconStyle` holding `heading` (the heading when truthy, else `0`), `scale` `1.1` and `Icon/href` with the airports icon |
| Placemark.PlacemarkShape | index.js:77-110 | a Placemark has no attributes and has the children name, description, Style and Point in that order; it has exactly one Point, which holds exactly one `coordinates` element with one text |
| Kml.Kept | index.js:57-75 | an entry contributes nothing exactly when it is rejected, and otherwise its key and decoded record |
| Kml.Survivors | index.js:56-75 | at most one survivor per entry, and every survivor has a truthy latitude, longitude and altitude |
| Kml.BuildKml | index.js:49-118 | a document comes out exactly when every surviving record converts to text; it is then the skeleton with one Placemark per surviving entry, in order, and `Document` holds exactly as many Placemark elements as there are survivors; otherwise the outcome is a TypeError and no document |
| Kml.UnprintableSurvivor | index.js:77-118 | one accepted record that cannot be converted makes the whole snapshot fail, wherever it stands |
| Kml.SurvivorsSnoc | index.js:56-111 | handling one more entry appends exactly what that entry contributes to what the earlier entries gave |
| Kml.SurvivorsConcat | index.js:56-111 | the survivors of a concatenated snapshot are the survivors of each part, concatenated, so each entry is handled independently of the others |
| Kml.SkipRejected | index.js:57-75 | a rejected entry anywhere in the snapshot leaves the other entries' Placemarks unchanged and does not stop the batch |
| Kml.SurvivorsAreFilter | index.js:56-111 | the survivors are the accepted entries, in strictly increasing snapshot order; a position counts exactly when its entry passes both filters, with no sorting and no deduplication |
| Kml.DocumentShape | index.js:49-54 | the document is XML 1.0 in UTF-8 with one `kml` root carrying only the KML 2.2 namespace; the root holds one `Document`, whose first child is the title `name` and whose other children are exactly the Placemarks |
| SnapshotExample.ExampleSurvivors | index.js:56-75 | in the worked snapshot the metadata number, the equator record and the short array are skipped; the two good records survive in order |
| SnapshotExample.ExampleGoodPlacemark | index.js:77-107 | the good record is named by its callsign, and its coordinates text gives longitude first |
| SnapshotExample.ExampleShadowedToString | index.js:57-118 | a record whose speed is an object with its own `toString` key passes both filters, and adding it to the worked snapshot makes the whole document fail |
| SnapshotExample.ExampleFallbacks | index.js:80-93 | a record with an empty callsign is named by its key; its description uses `Desconhecido`, a `null` speed and `N/A`; its style heading is `0` |

## Left out

- Fetching the snapshot: the headless-browser launch, the user agent, the in-page `fetch` and the JSON parsing (index.js:20-43). These are I/O through a foreign browser. The model starts from the parsed entries.
- HTTP serving: the Express setup, the route, the response headers, the 500 error path, `app.listen` and console logging. These are server plumbing.
- Configuration: `dotenv`, `PORT`, `BOUNDS` and `FLIGHTRADAR_URL`. They only feed the fetcher.
- Serialisation: the bytes xmlbuilder2 writes, with escaping and pretty-printing. That library is not part of this model. The model stops at the element tree and the XML declaration it is given.
- Number formatting: JavaScript's number-to-string conversion. Each non-zero number carries its printed text instead.
- Text conversion of non-strings in `.txt(…)`: for `heading || 0` and a non-string callsign, the builder is assumed to convert the value with JavaScript's `String`, as `Js.ToString` does. That includes throwing for an object with its own `toString` key.
- Which field throws first: the outcome says only that the response fails, not which field or record the error message names.
- Key order: `Object.entries` puts integer-like keys first, in ascending order. The model takes the entries in whatever order they are given.
- Field positions: the model uses the positions the handler uses. It does not check them against the provider's real feed layout, which is not part of this repository.
- Other snapshot kinds: a snapshot that is not an object (for example `null`, which makes `Object.entries` throw) belongs to the fetch and error path above.
- Placemark.DescriptionLines: states the four-line reading only when no interpolated value contains a newline. A string field can contain one, and then the text has more lines. `Placemark.ScalarDescriptionLines` discharges the condition for scalar fields.
- Placemark.CoordinatesFields: states the three-field reading only when no interpolated value contains a comma. An array value prints with commas, and so can a string. The exact text `lon,lat,alt` and the unused zero fallback hold for every accepted record; `Placemark.Coordinates` states them. `Placemark.NumericCoordinatesFields` discharges the comma condition for number fields.
