/**
 * A small worked snapshot: a scalar metadata entry, a good record, a record
 * on the equator (latitude 0), a short array, and a second good record whose
 * callsign is empty.  Only the two good records become Placemarks, in
 * snapshot order, and the second is named by its key.  A record whose speed
 * is an object with its own `toString` key passes both filters, and adding it
 * makes the whole document fail.
 */
module SnapshotExample {
  import opened Js
  import opened Xml
  import opened Text
  import opened FeedRecord
  import opened Placemark
  import opened Kml

  const Good: Value := Arr([Num(NonZero("-23.43")), Num(NonZero("-46.47")), Num(NonZero("3500")),
    Num(NonZero("250")), Str("TAM3456"), Str("A320"), Null, Null, Null, Null, Null, Null, Num(NonZero("90"))])

  const OnEquator: Value := Arr([Num(Zero), Num(NonZero("-46.47")), Num(NonZero("3500")),
    Num(NonZero("250")), Str("GLO1234"), Str("B738"), Null, Null, Null, Null, Null, Null, Num(NonZero("180"))])

  const NoCallsign: Value := Arr([Num(NonZero("-22.9")), Num(NonZero("-43.2")), Num(NonZero("1200")),
    Null, Str(""), Null, Null, Null, Null, Null, Null, Null, Num(Zero)])

  const ShadowedSpeed: Value := Arr([Num(NonZero("1")), Num(NonZero("1")), Num(NonZero("1")),
    Obj([("toString", Num(NonZero("1")))]), Str("X"), Str("Y"), Num(Zero), Num(Zero), Num(Zero),
    Num(Zero), Num(Zero), Num(Zero), Num(Zero)])

  const Snapshot: seq<Entry> := [
    ("full_count", Num(NonZero("1234"))),
    ("2f1a3b4c", Good),
    ("2f1a3b4d", OnEquator),
    ("stats", Arr([Str("x"), Str("y")])),
    ("2f1a3b4e", NoCallsign)]

  lemma MetadataSkipped() ensures Kept(Snapshot[0]) == [] {}
  lemma GoodKept() ensures Kept(Snapshot[1]) == [("2f1a3b4c", Accept(Good).value)] {}
  lemma EquatorSkipped() ensures Kept(Snapshot[2]) == [] {}
  lemma ShortSkipped() ensures Kept(Snapshot[3]) == [] {}
  lemma NoCallsignKept() ensures Kept(Snapshot[4]) == [("2f1a3b4e", Accept(NoCallsign).value)] {}

  /** A five-entry snapshot whose entries 0, 2 and 3 are skipped keeps entries 1 and 4. */
  lemma FiveEntries(s: seq<Entry>)
    requires |s| == 5
    requires Kept(s[0]) == [] && Kept(s[2]) == [] && Kept(s[3]) == []
    ensures Survivors(s) == Kept(s[1]) + Kept(s[4])
  {
    var k1, k4 := Kept(s[1]), Kept(s[4]);
    assert Survivors(s[4..]) == k4 by { assert s[4..][1..] == []; assert s[4..][0] == s[4]; }
    assert Survivors(s[3..]) == k4 by { assert s[3..][1..] == s[4..]; assert s[3..][0] == s[3]; }
    assert Survivors(s[2..]) == k4 by { assert s[2..][1..] == s[3..]; assert s[2..][0] == s[2]; }
    assert Survivors(s[1..]) == k1 + k4 by { assert s[1..][1..] == s[2..]; assert s[1..][0] == s[1]; }
  }

  lemma ExampleSurvivors()
    ensures Survivors(Snapshot) == [("2f1a3b4c", Accept(Good).value), ("2f1a3b4e", Accept(NoCallsign).value)]
  {
    MetadataSkipped();
    GoodKept();
    EquatorSkipped();
    ShortSkipped();
    NoCallsignKept();
    FiveEntries(Snapshot);
  }

  lemma ExampleGoodPlacemark()
    ensures var g := Accept(Good);
      g.Some? && Name("2f1a3b4c", g.value) == "TAM3456"
      && Coordinates(g.value) == "-46.47,-23.43,3500"
  {
  }

  /** Falsy callsign, type and heading take their fallbacks; the speed has none. */
  lemma ExampleFallbacks()
    ensures var n := Accept(NoCallsign);
      n.Some? && Name("2f1a3b4e", n.value) == "2f1a3b4e"
      && Description(n.value) == DescriptionTemplate("Desconhecido", "1200", "null", "N/A")
      && StyleElement(n.value).children[0].children[0] == Leaf("heading", "0")
  {
  }

  /** The shadowed-`toString` record is accepted, so reaching it aborts the batch it is in. */
  lemma ExampleShadowedToString()
    ensures Accept(ShadowedSpeed).Some?
    ensures !AllPrintable(Survivors(Snapshot + [("k", ShadowedSpeed)]))
  {
    var rec := Accept(ShadowedSpeed).value;
    ShadowedToString([("toString", Num(NonZero("1")))], 0, [rec.speed], 0);
    assert !Printable(rec.speed);
    var s := Snapshot + [("k", ShadowedSpeed)];
    assert s[|Snapshot|] == ("k", ShadowedSpeed);
    UnprintableSurvivor(s, |Snapshot|);
  }
}
