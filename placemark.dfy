/**
 * The Placemark built for one accepted record (index.js:77-110): its name,
 * its four-line description, its inline icon style and its point.
 */
module Placemark {
  import opened Js
  import opened Xml
  import opened Text
  import opened FeedRecord

  const UnknownType := "Desconhecido"
  const NotAvailable := "N/A"
  const DegreeSign := "\U{00B0}"
  const IconScale := "1.1"
  const IconHref := "http://maps.google.com/mapfiles/kml/shapes/airports.png"

  /** `callsign || key`, as text. */
  function Name(key: string, rec: Record): (r: string)
    requires Printable(rec.callsign)
    ensures Truthy(rec.callsign) ==> r == ToString(rec.callsign)
    ensures !Truthy(rec.callsign) ==> r == key
  {
    ToString(Or(rec.callsign, Str(key)))
  }

  /** The description template: four lines joined by '\n', with no trailing newline. */
  function Description(rec: Record): string
    requires Printable(rec.aircraftType) && Printable(rec.alt)
    requires Printable(rec.speed) && Printable(rec.heading)
  {
    DescriptionTemplate(
      ToString(Or(rec.aircraftType, Str(UnknownType))),
      ToString(rec.alt),
      ToString(rec.speed),
      ToString(Or(rec.heading, Str(NotAvailable))))
  }

  /** The template literal of the description, on the four interpolated texts. */
  function DescriptionTemplate(kind: string, alt: string, speed: string, heading: string): string {
    "Tipo: " + kind + "\n"
    + "Altitude: " + alt + " ft\n"
    + "Velocidade: " + speed + " kt\n"
    + "Proa: " + heading + DegreeSign
  }

  /**
   * The `coordinates` text: longitude, latitude, then `alt || 0`.  For a
   * record that passed the validity test the fallback never applies.
   */
  function Coordinates(rec: Record): (r: string)
    requires Printable(rec.lon) && Printable(rec.lat) && Printable(rec.alt)
    ensures HasPosition(rec) ==> r == ToString(rec.lon) + "," + ToString(rec.lat) + "," + ToString(rec.alt)
  {
    ToString(rec.lon) + "," + ToString(rec.lat) + "," + ToString(Or(rec.alt, Num(Zero)))
  }

  /** The inline `Style/IconStyle` element with `heading || 0`, the fixed scale and the fixed icon. */
  function StyleElement(rec: Record): (r: Node)
    requires Printable(rec.heading)
    ensures r == Elem("Style", [], [Elem("IconStyle", [], [
                  Leaf("heading", if Truthy(rec.heading) then ToString(rec.heading) else "0"),
                  Leaf("scale", "1.1"),
                  Elem("Icon", [], [Leaf("href", "http://maps.google.com/mapfiles/kml/shapes/airports.png")])])])
  {
    Elem("Style", [], [Elem("IconStyle", [], [
      Leaf("heading", ToString(Or(rec.heading, Num(Zero)))),
      Leaf("scale", IconScale),
      Elem("Icon", [], [Leaf("href", IconHref)])])])
  }

  function PlacemarkElement(key: string, rec: Record): Node
    requires RecordPrintable(rec)
  {
    Elem("Placemark", [], [
      Leaf("name", Name(key, rec)),
      Leaf("description", Description(rec)),
      StyleElement(rec),
      Elem("Point", [], [Leaf("coordinates", Coordinates(rec))])])
  }

  /** The tags of a list of nodes, text nodes giving "". */
  function Tags(nodes: seq<Node>): seq<string> {
    seq(|nodes|, i requires 0 <= i < |nodes| => if nodes[i].Elem? then nodes[i].tag else "")
  }

  /**
   * Read back line by line (when no interpolated value itself holds a newline),
   * the description is exactly four lines, with the "Desconhecido" fallback on
   * the type, none on the speed, and the "N/A" fallback on the heading.
   */
  lemma DescriptionLines(rec: Record)
    requires Printable(rec.aircraftType) && Printable(rec.alt)
    requires Printable(rec.speed) && Printable(rec.heading)
    requires '\n' !in ToString(rec.aircraftType)
    requires '\n' !in ToString(rec.alt)
    requires '\n' !in ToString(rec.speed)
    requires '\n' !in ToString(rec.heading)
    ensures Split(Description(rec), '\n') == [
      "Tipo: " + (if Truthy(rec.aircraftType) then ToString(rec.aircraftType) else "Desconhecido"),
      "Altitude: " + ToString(rec.alt) + " ft",
      "Velocidade: " + ToString(rec.speed) + " kt",
      "Proa: " + (if Truthy(rec.heading) then ToString(rec.heading) else "N/A") + "\U{00B0}"]
  {
    var kind := ToString(Or(rec.aircraftType, Str(UnknownType)));
    var heading := ToString(Or(rec.heading, Str(NotAvailable)));
    assert kind == if Truthy(rec.aircraftType) then ToString(rec.aircraftType) else "Desconhecido";
    assert heading == if Truthy(rec.heading) then ToString(rec.heading) else "N/A";
    assert '\n' !in kind && '\n' !in heading;
    var lines := [
      "Tipo: " + kind,
      "Altitude: " + ToString(rec.alt) + " ft",
      "Velocidade: " + ToString(rec.speed) + " kt",
      "Proa: " + heading + DegreeSign];
    TemplateIsJoin(kind, ToString(rec.alt), ToString(rec.speed), heading);
    SplitJoin(lines, '\n');
  }

  /** A scalar field, as the feed sends them: not an array or object, and no newline in its text. */
  predicate PlainLine(v: Value) {
    && !v.Arr? && !v.Obj?
    && (v.Str? ==> '\n' !in v.s)
    && (v.Num? && v.n.NonZero? ==> '\n' !in v.n.text)
  }

  /**
   * When the four interpolated fields are scalars whose own text holds no
   * newline, the four-line reading needs no further condition.
   */
  lemma ScalarDescriptionLines(rec: Record)
    requires PlainLine(rec.aircraftType) && PlainLine(rec.alt)
    requires PlainLine(rec.speed) && PlainLine(rec.heading)
    ensures Printable(rec.aircraftType) && Printable(rec.alt)
    ensures Printable(rec.speed) && Printable(rec.heading)
    ensures Split(Description(rec), '\n') == [
      "Tipo: " + (if Truthy(rec.aircraftType) then ToString(rec.aircraftType) else "Desconhecido"),
      "Altitude: " + ToString(rec.alt) + " ft",
      "Velocidade: " + ToString(rec.speed) + " kt",
      "Proa: " + (if Truthy(rec.heading) then ToString(rec.heading) else "N/A") + "\U{00B0}"]
  {
    PrimitiveTextHasNo(rec.aircraftType, '\n');
    PrimitiveTextHasNo(rec.alt, '\n');
    PrimitiveTextHasNo(rec.speed, '\n');
    PrimitiveTextHasNo(rec.heading, '\n');
    DescriptionLines(rec);
  }

  lemma TemplateIsJoin(kind: string, alt: string, speed: string, heading: string)
    ensures DescriptionTemplate(kind, alt, speed, heading) == Join([
      "Tipo: " + kind,
      "Altitude: " + alt + " ft",
      "Velocidade: " + speed + " kt",
      "Proa: " + heading + DegreeSign], '\n')
  {
    var l0, l1, l2, l3 := "Tipo: " + kind, "Altitude: " + alt + " ft",
      "Velocidade: " + speed + " kt", "Proa: " + heading + DegreeSign;
    JoinCons(l2, [l3], '\n');
    JoinCons(l1, [l2, l3], '\n');
    JoinCons(l0, [l1, l2, l3], '\n');
    assert [l0, l1, l2, l3] == [l0] + [l1, l2, l3];
    assert [l1, l2, l3] == [l1] + [l2, l3];
    assert [l2, l3] == [l2] + [l3];
  }

  /**
   * For an accepted record whose interpolated values hold no comma, the
   * coordinates text has exactly three comma-separated fields, longitude
   * first; the `alt || 0` fallback never applies because the altitude was
   * required to be truthy.
   */
  lemma CoordinatesFields(rec: Record)
    requires HasPosition(rec)
    requires Printable(rec.lon) && Printable(rec.lat) && Printable(rec.alt)
    requires ',' !in ToString(rec.lon)
    requires ',' !in ToString(rec.lat)
    requires ',' !in ToString(rec.alt)
    ensures Split(Coordinates(rec), ',') == [ToString(rec.lon), ToString(rec.lat), ToString(rec.alt)]
  {
    var fields := [ToString(rec.lon), ToString(rec.lat), ToString(rec.alt)];
    JoinCons(fields[1], [fields[2]], ',');
    JoinCons(fields[0], [fields[1], fields[2]], ',');
    assert fields == [fields[0], fields[1], fields[2]];
    assert Join(fields, ',') == Coordinates(rec);
    SplitJoin(fields, ',');
  }

  /**
   * When latitude, longitude and altitude are numbers, as the feed sends
   * them, the three-field reading needs no further condition: the printed
   * text of a number holds no comma.
   */
  lemma NumericCoordinatesFields(rec: Record)
    requires HasPosition(rec)
    requires rec.lon.Num? && rec.lat.Num? && rec.alt.Num?
    requires ',' !in rec.lon.n.text && ',' !in rec.lat.n.text && ',' !in rec.alt.n.text
    ensures Printable(rec.lon) && Printable(rec.lat) && Printable(rec.alt)
    ensures Split(Coordinates(rec), ',') == [ToString(rec.lon), ToString(rec.lat), ToString(rec.alt)]
  {
    PrimitiveTextHasNo(rec.lon, ',');
    PrimitiveTextHasNo(rec.lat, ',');
    PrimitiveTextHasNo(rec.alt, ',');
    CoordinatesFields(rec);
  }

  /**
   * The shape of every Placemark: name, description, Style, Point in that
   * order, exactly one Point, and that Point holds exactly one `coordinates`
   * element with one text node.
   */
  lemma PlacemarkShape(key: string, rec: Record)
    requires RecordPrintable(rec)
    ensures var p := PlacemarkElement(key, rec);
      && p.Elem? && p.tag == "Placemark" && p.attrs == []
      && Tags(p.children) == ["name", "description", "Style", "Point"]
      && CountTag(p.children, "Point") == 1
      && p.children[0] == Leaf("name", Name(key, rec))
      && p.children[1] == Leaf("description", Description(rec))
      && p.children[2] == StyleElement(rec)
      && p.children[3] == Elem("Point", [], [Elem("coordinates", [], [Text(Coordinates(rec))])])
  {
    var p := PlacemarkElement(key, rec);
    var c := p.children;
    assert c[1..] == [c[1], c[2], c[3]] && c[2..] == [c[2], c[3]] && c[3..] == [c[3]] && c[4..] == [];
    assert CountTag(c[3..], "Point") == 1;
    assert CountTag(c[2..], "Point") == 1;
    assert CountTag(c[1..], "Point") == 1;
  }
}
