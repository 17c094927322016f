/**
 * The `/flightradar.kml` handler's document: the skeleton (index.js:49-54),
 * the loop over the snapshot's entries (index.js:56-111), and what the
 * assembled tree looks like.
 *
 * A snapshot is the sequence of `(key, value)` pairs that `Object.entries`
 * gives for the parsed feed object, in that order.
 */
module Kml {
  import opened Js
  import opened Wrappers
  import opened Xml
  import opened FeedRecord
  import opened Placemark

  const KmlNamespace := "http://www.opengis.net/kml/2.2"
  const Title := "FlightRadar24 - Tr\U{00E1}fego A\U{00E9}reo no Brasil"

  type Entry = (string, Value)

  /**
   * What the handler ends with: the finished document, or the TypeError that a
   * field's string conversion throws, which aborts the whole response (the
   * catch then answers 500 and no KML is sent).
   */
  datatype Outcome = Built(doc: XmlDocument) | TypeError

  /** `name` with the fixed title, the first child of `Document`. */
  function TitleElement(): Node {
    Leaf("name", Title)
  }

  /** What one entry contributes: its key and decoded record when accepted, nothing otherwise. */
  function Kept(e: Entry): (r: seq<(string, Record)>)
    ensures |r| <= 1
    ensures r == [] <==> Accept(e.1).None?
    ensures r != [] ==> r[0].0 == e.0 && Accept(e.1) == Some(r[0].1)
  {
    match Accept(e.1)
    case None => []
    case Some(rec) => [(e.0, rec)]
  }

  /** The entries passing both filters, with their records, in snapshot order. */
  function Survivors(entries: seq<Entry>): (r: seq<(string, Record)>)
    ensures |r| <= |entries|
    ensures forall i :: 0 <= i < |r| ==> HasPosition(r[i].1)
  {
    if |entries| == 0 then [] else Kept(entries[0]) + Survivors(entries[1..])
  }

  /** Every survivor's interpolated fields convert to text without throwing. */
  predicate AllPrintable(survivors: seq<(string, Record)>) {
    forall i :: 0 <= i < |survivors| ==> RecordPrintable(survivors[i].1)
  }

  /** One Placemark per survivor, in the same order. */
  function Placemarks(survivors: seq<(string, Record)>): (r: seq<Node>)
    requires AllPrintable(survivors)
    ensures |r| == |survivors|
    ensures forall i :: 0 <= i < |r| ==> r[i] == PlacemarkElement(survivors[i].0, survivors[i].1)
  {
    seq(|survivors|, i requires 0 <= i < |survivors| => PlacemarkElement(survivors[i].0, survivors[i].1))
  }

  /** The document skeleton with the given Placemarks appended to `Document`. */
  function KmlDocument(placemarks: seq<Node>): XmlDocument {
    XmlDocument("1.0", "UTF-8",
      Elem("kml", [("xmlns", KmlNamespace)], [Elem("Document", [], [TitleElement()] + placemarks)]))
  }

  /** The `Document` element of a document whose root holds one. */
  function DocumentElement(d: XmlDocument): Node
    requires d.root.Elem? && |d.root.children| == 1
  {
    d.root.children[0]
  }

  /**
   * The handler's loop: skip entries that are not arrays of 13 or more
   * elements, skip records without a truthy latitude, longitude and
   * altitude, and append one Placemark for every other entry.  Building a
   * Placemark converts its fields to text; when that throws, the whole
   * response fails.
   */
  method BuildKml(entries: seq<Entry>) returns (r: Outcome)
    ensures r.Built? <==> AllPrintable(Survivors(entries))
    ensures r.Built? ==> r.doc == KmlDocument(Placemarks(Survivors(entries)))
    ensures r.Built? ==> r.doc.root.Elem? && |r.doc.root.children| == 1
    ensures r.Built? ==> CountTag(DocumentElement(r.doc).children, "Placemark") == |Survivors(entries)|
  {
    var children := [TitleElement()];
    for i := 0 to |entries|
      invariant AllPrintable(Survivors(entries[..i]))
      invariant children == [TitleElement()] + Placemarks(Survivors(entries[..i]))
    {
      SurvivorsSnoc(entries, i);
      var (key, value) := entries[i];
      var decoded := Decode(value);
      if decoded.None? {
        continue;
      }
      var rec := decoded.value;
      if !Truthy(rec.lat) || !Truthy(rec.lon) || !Truthy(rec.alt) {
        continue;
      }
      if !RecordPrintable(rec) {
        UnprintableSurvivor(entries, i);
        return TypeError;
      }
      children := children + [PlacemarkElement(key, rec)];
    }
    assert entries[..|entries|] == entries;
    r := Built(XmlDocument("1.0", "UTF-8", Elem("kml", [("xmlns", KmlNamespace)], [Elem("Document", [], children)])));
    DocumentShape(entries);
  }

  /**
   * An accepted entry whose fields cannot be converted spoils the whole
   * snapshot, wherever it stands: a rejected entry never reaches conversion,
   * an accepted one always does.
   */
  lemma UnprintableSurvivor(entries: seq<Entry>, i: nat)
    requires i < |entries|
    requires Accept(entries[i].1).Some? && !RecordPrintable(Accept(entries[i].1).value)
    ensures !AllPrintable(Survivors(entries))
  {
    SurvivorsSnoc(entries, i);
    assert entries == entries[..i + 1] + entries[i + 1..];
    SurvivorsConcat(entries[..i + 1], entries[i + 1..]);
    var k := |Survivors(entries[..i])|;
    assert Survivors(entries)[k] == Kept(entries[i])[0];
  }

  /** Snapshots concatenate: what one part of a snapshot yields does not depend on the other part. */
  lemma {:induction false} SurvivorsConcat(a: seq<Entry>, b: seq<Entry>)
    ensures Survivors(a + b) == Survivors(a) + Survivors(b)
  {
    if |a| == 0 {
      assert a + b == b;
    } else {
      assert (a + b)[0] == a[0];
      assert (a + b)[1..] == a[1..] + b;
      SurvivorsConcat(a[1..], b);
    }
  }

  /** A one-entry snapshot yields what its entry contributes. */
  lemma SurvivorsSingle(e: Entry)
    ensures Survivors([e]) == Kept(e)
  {
    assert [e][1..] == [];
  }

  /** Extending a prefix of the snapshot by one entry adds what that entry contributes. */
  lemma SurvivorsSnoc(entries: seq<Entry>, i: nat)
    requires i < |entries|
    ensures Survivors(entries[..i + 1]) == Survivors(entries[..i]) + Kept(entries[i])
  {
    assert entries[..i + 1] == entries[..i] + [entries[i]];
    SurvivorsConcat(entries[..i], [entries[i]]);
    SurvivorsSingle(entries[i]);
  }

  /** A rejected entry anywhere in the snapshot changes nothing for the other entries. */
  lemma SkipRejected(a: seq<Entry>, e: Entry, b: seq<Entry>)
    requires Accept(e.1).None?
    ensures Survivors(a + [e] + b) == Survivors(a + b)
  {
    SurvivorsSingle(e);
    SurvivorsConcat(a + [e], b);
    SurvivorsConcat(a, [e]);
    assert Survivors(a + [e]) == Survivors(a);
    SurvivorsConcat(a, b);
  }

  /** The positions in the snapshot of the entries that yield a Placemark, in increasing order. */
  function AcceptedPositions(entries: seq<Entry>): seq<nat> {
    if |entries| == 0 then []
    else
      var n := |entries| - 1;
      AcceptedPositions(entries[..n]) + (if Accept(entries[n].1).Some? then [n] else [])
  }

  /**
   * Survivors is exactly the order-preserving filter of the snapshot: the i-th
   * survivor is the entry at the i-th accepted position, the positions
   * increase strictly, and a position is accepted exactly when its entry
   * passes both filters.  Nothing is sorted, merged or deduplicated.
   */
  lemma SurvivorsAreFilter(entries: seq<Entry>)
    ensures var r, pos := Survivors(entries), AcceptedPositions(entries);
      && |pos| == |r|
      && (forall i :: 0 <= i < |pos| ==>
            pos[i] < |entries| && r[i].0 == entries[pos[i]].0 && Accept(entries[pos[i]].1) == Some(r[i].1))
      && (forall i, j :: 0 <= i < j < |pos| ==> pos[i] < pos[j])
      && (forall k :: 0 <= k < |entries| ==> (k in pos <==> Accept(entries[k].1).Some?))
  {
    SurvivorsAtPositions(entries);
    PositionsOrdered(entries);
  }

  /** The i-th survivor is the entry at the i-th accepted position. */
  lemma {:induction false} SurvivorsAtPositions(entries: seq<Entry>)
    ensures var r, pos := Survivors(entries), AcceptedPositions(entries);
      && |pos| == |r|
      && (forall i :: 0 <= i < |pos| ==>
            pos[i] < |entries| && r[i].0 == entries[pos[i]].0 && Accept(entries[pos[i]].1) == Some(r[i].1))
  {
    if |entries| > 0 {
      var n := |entries| - 1;
      var front := entries[..n];
      SurvivorsAtPositions(front);
      SurvivorsSnoc(entries, n);
      assert entries[..n + 1] == entries;
      var r, pos := Survivors(entries), AcceptedPositions(entries);
      var r', pos' := Survivors(front), AcceptedPositions(front);
      var tail := if Accept(entries[n].1).Some? then [n] else [];
      assert r == r' + Kept(entries[n]);
      assert pos == pos' + tail;
      forall i | 0 <= i < |pos|
        ensures pos[i] < |entries| && r[i].0 == entries[pos[i]].0 && Accept(entries[pos[i]].1) == Some(r[i].1)
      {
        if i < |pos'| {
          assert pos[i] == pos'[i] && r[i] == r'[i];
          assert front[pos'[i]] == entries[pos'[i]];
        } else {
          assert pos[i] == n && r[i] == Kept(entries[n])[0];
        }
      }
    }
  }

  /** The accepted positions increase strictly and are exactly the accepted entries. */
  lemma {:induction false} PositionsOrdered(entries: seq<Entry>)
    ensures var pos := AcceptedPositions(entries);
      && (forall i :: 0 <= i < |pos| ==> pos[i] < |entries|)
      && (forall i, j :: 0 <= i < j < |pos| ==> pos[i] < pos[j])
      && (forall k :: 0 <= k < |entries| ==> (k in pos <==> Accept(entries[k].1).Some?))
  {
    if |entries| > 0 {
      var n := |entries| - 1;
      var front := entries[..n];
      PositionsOrdered(front);
      var pos, pos' := AcceptedPositions(entries), AcceptedPositions(front);
      var tail := if Accept(entries[n].1).Some? then [n] else [];
      assert pos == pos' + tail;
      forall k | 0 <= k < |entries|
        ensures k in pos <==> Accept(entries[k].1).Some?
      {
        if k < n {
          assert front[k] == entries[k];
          assert k in pos <==> k in pos';
        } else {
          assert k !in pos';
        }
      }
    }
  }

  /**
   * The document's shape: one `kml` root carrying only the KML 2.2 namespace,
   * holding one `Document`, whose first child is the title `name` and whose
   * other children are exactly the Placemarks, one per surviving entry.
   */
  lemma DocumentShape(entries: seq<Entry>)
    requires AllPrintable(Survivors(entries))
    ensures var d := KmlDocument(Placemarks(Survivors(entries)));
      && d.version == "1.0" && d.encoding == "UTF-8"
      && d.root.Elem? && d.root.tag == "kml"
      && d.root.attrs == [("xmlns", "http://www.opengis.net/kml/2.2")]
      && |d.root.children| == 1
      && var doc := DocumentElement(d);
      && doc.Elem? && doc.tag == "Document" && doc.attrs == []
      && |doc.children| == |Survivors(entries)| + 1
      && doc.children[0] == Leaf("name", "FlightRadar24 - Tr\U{00E1}fego A\U{00E9}reo no Brasil")
      && (forall i :: 1 <= i < |doc.children| ==> doc.children[i].Elem? && doc.children[i].tag == "Placemark")
      && doc.children[1..] == Placemarks(Survivors(entries))
      && CountTag(doc.children, "Placemark") == |Survivors(entries)|
      && CountTag(doc.children, "name") == 1
  {
    var ps := Placemarks(Survivors(entries));
    var children := [TitleElement()] + ps;
    assert children[1..] == ps;
    CountTagAll(ps, "Placemark");
    CountTagNone(ps, "name");
    CountTagConcat([TitleElement()], ps, "Placemark");
    CountTagConcat([TitleElement()], ps, "name");
  }
}
