/**
 * The earlier script: for every interesting list, in the order of the interest
 * table, a folder of placemarks whose description names the list and the street
 * address. A list the table names but the account lacks stops the run.
 */
module Fsq2Gmaps {
  import opened Wrappers
  import opened Failures
  import opened Seqs
  import opened Dicts
  import opened Strings
  import opened Colour
  import opened Foursquare
  import opened Kml

  /** Every configured list has a colour here; `red` serves two lists. */
  const Interesting: Interest := [
    ("my saved places", Some("red")),
    ("my liked places", Some("pink")),
    ("london", Some("blue")),
    ("london-todo", Some("red"))
  ]

  /** What a venue without a street address shows instead. */
  const NoAddress: string := "NO ADDRESS!"

  /** A venue flattened for the KML: its list's display name, and the venue's own fields. */
  datatype Place = Place(lst: string, name: string, address: string, lat: Coord, lon: Coord)

  /** The `Place` that `gen_places` yields for one venue of list `l`. */
  function ToPlace(l: FsqList, v: Venue): Place
  {
    var address := match v.location.address
      case Some(a) => a
      case None => NoAddress;
    Place(l.name, v.name, address, v.location.lat, v.location.lng)
  }

  /** `gen_places(lst)`: the places of the list's items; `venues` stands for the items of `api.lists(id)`. */
  function GenPlaces(l: FsqList, venues: seq<Venue>): seq<Place>
  {
    if venues == [] then [] else [ToPlace(l, venues[0])] + GenPlaces(l, venues[1..])
  }

  /**
   * One place per item, in item order: the list's display name, the venue's name, its street
   * address or `NO ADDRESS!` when it has none, and its coordinates.
   */
  lemma {:induction false} GenPlacesAt(l: FsqList, venues: seq<Venue>, i: nat)
    requires i < |venues|
    ensures |GenPlaces(l, venues)| == |venues|
    ensures GenPlaces(l, venues)[i].lst == l.name && GenPlaces(l, venues)[i].name == venues[i].name
    ensures GenPlaces(l, venues)[i].address ==
      match venues[i].location.address case Some(a) => a case None => NoAddress
    ensures GenPlaces(l, venues)[i].lat == venues[i].location.lat
    ensures GenPlaces(l, venues)[i].lon == venues[i].location.lng
  {
    if i > 0 {
      GenPlacesAt(l, venues[1..], i - 1);
    } else if |venues| > 1 {
      GenPlacesAt(l, venues[1..], 0);
    }
  }

  /** `f"List: {lname}\n{p.address}"`. */
  function Description(lname: string, p: Place): string
  {
    "List: " + lname + "\n" + p.address
  }

  /** The description splits into the list line and the address line when neither holds a line break. */
  lemma DescriptionLines(lname: string, p: Place)
    requires NoLineBreak(lname) && NoLineBreak(p.address) && p.address != ""
    ensures SplitLines(Description(lname, p)) == ["List: " + lname, p.address]
  {
    var list := "List: " + lname;
    ListLineNoBreak(lname);
    SplitLinesOfLines(list, p.address);
    SplitLinesOneLine(p.address);
  }

  /** A placemark of the folder for `lname`: id and name are the venue's, the point is (longitude, latitude). */
  function Mark(lname: string, p: Place, url: Option<string>): Placemark
  {
    Placemark(p.name, p.name, Description(lname, p), url, Point(p.lon, p.lat))
  }

  /** The placemarks of one list, in item order, all with the list's style URL. */
  function MarksOf(lname: string, places: seq<Place>, url: Option<string>): seq<Placemark>
    decreases |places|
  {
    if places == [] then [] else MarksOf(lname, places[..|places| - 1], url) + [Mark(lname, places[|places| - 1], url)]
  }

  /** One placemark per place, in order, each for its place and with the given style URL. */
  lemma {:induction false} MarksOfAt(lname: string, places: seq<Place>, url: Option<string>, j: nat)
    requires j < |places|
    ensures |MarksOf(lname, places, url)| == |places|
    ensures MarksOf(lname, places, url)[j] == Mark(lname, places[j], url)
    decreases |places|
  {
    var init := places[..|places| - 1];
    if j < |init| {
      MarksOfAt(lname, init, url, j);
    } else if init != [] {
      MarksOfAt(lname, init, url, 0);
    }
  }

  lemma MarksOfSnoc(lname: string, places: seq<Place>, p: Place, url: Option<string>)
    ensures MarksOf(lname, places + [p], url) == MarksOf(lname, places, url) + [Mark(lname, p, url)]
  {
    assert (places + [p])[..|places|] == places;
  }

  /** The `marks.append(...)` loop over `gen_places(lmap[lname])`. */
  method Marks(lname: string, places: seq<Place>, url: Option<string>) returns (marks: seq<Placemark>)
    ensures marks == MarksOf(lname, places, url)
  {
    marks := [];
    for j := 0 to |places|
      invariant marks == MarksOf(lname, places[..j], url)
    {
      MarksOfSnoc(lname, places[..j], places[j], url);
      assert places[..j + 1] == places[..j] + [places[j]];
      marks := marks + [Mark(lname, places[j], url)];
    }
    assert places[..|places|] == places;
  }

  /**
   * The folder of one interest entry: named after the entry, holding the placemarks of its
   * list's items. `fetch` stands for `api.lists(id)`; an entry without a list never gets a folder.
   */
  function EntryFolder(lmap: Dict<string, FsqList>, fetch: string -> seq<Venue>, e: (string, Option<string>)): Folder
  {
    match Get(lmap, e.0)
    case Some(l) => Folder(e.0, e.0, MarksOf(e.0, GenPlaces(l, fetch(l.id)), UrlFor(e.1)))
    case None => Folder(e.0, e.0, [])
  }

  /**
   * What stops the loop at one entry: its colour is looked up first (`make_icon_style`),
   * its list second (`lmap[lname]`).
   */
  function EntryError(table: ColourTable, lmap: Dict<string, FsqList>, e: (string, Option<string>)): Option<Error>
  {
    if e.1.Some? && e.1.value !in table then Some(UnknownColour(e.1.value))
    else if Get(lmap, e.0).None? then Some(MissingList(e.0))
    else None
  }

  /** The error of the first entry that has one. */
  function BuildError(table: ColourTable, lmap: Dict<string, FsqList>, interest: Interest): Option<Error>
    decreases |interest|
  {
    if interest == [] then None
    else
      var first := BuildError(table, lmap, interest[..|interest| - 1]);
      if first.Some? then first else EntryError(table, lmap, interest[|interest| - 1])
  }

  /** There is no error exactly when no entry has one; an error is the error of some entry, and every entry before it has none. */
  lemma {:induction false} BuildErrorMeans(table: ColourTable, lmap: Dict<string, FsqList>, interest: Interest)
    ensures BuildError(table, lmap, interest).None? <==>
      forall i :: 0 <= i < |interest| ==> EntryError(table, lmap, interest[i]).None?
    ensures BuildError(table, lmap, interest).Some? ==>
      exists i :: 0 <= i < |interest| && BuildError(table, lmap, interest) == EntryError(table, lmap, interest[i])
        && forall k :: 0 <= k < i ==> EntryError(table, lmap, interest[k]).None?
    decreases |interest|
  {
    if interest != [] {
      var p := interest[..|interest| - 1];
      BuildErrorMeans(table, lmap, p);
      assert forall i :: 0 <= i < |p| ==> p[i] == interest[i];
    }
  }

  /** An error in a prefix is the error of the whole. */
  lemma {:induction false} BuildErrorAppend(table: ColourTable, lmap: Dict<string, FsqList>, a: Interest, b: Interest)
    requires BuildError(table, lmap, a).Some?
    ensures BuildError(table, lmap, a + b) == BuildError(table, lmap, a)
    decreases |b|
  {
    if b == [] {
      assert a + b == a;
    } else {
      BuildErrorAppend(table, lmap, a, b[..|b| - 1]);
      assert (a + b)[..|a + b| - 1] == a + b[..|b| - 1];
    }
  }

  /** A missing list is an error, not a list skipped: no document comes out. */
  lemma MissingListFails(table: ColourTable, lmap: Dict<string, FsqList>, interest: Interest, i: nat)
    requires i < |interest| && interest[i].0 !in Keys(lmap)
    ensures BuildError(table, lmap, interest).Some?
  {
    assert Get(lmap, interest[i].0).None?;
    assert EntryError(table, lmap, interest[i]).Some?;
    BuildErrorMeans(table, lmap, interest);
  }

  /** The colours of the entries that have one, in table order. */
  function InterestColours(interest: Interest): seq<string>
    decreases |interest|
  {
    if interest == [] then []
    else
      var last := interest[|interest| - 1].1;
      InterestColours(interest[..|interest| - 1]) + (if last.Some? then [last.value] else [])
  }

  lemma InterestPrefix(table: ColourTable, lmap: Dict<string, FsqList>, interest: Interest, i: nat)
    requires i < |interest|
    ensures InterestColours(interest[..i + 1]) ==
      InterestColours(interest[..i]) + (if interest[i].1.Some? then [interest[i].1.value] else [])
    ensures BuildError(table, lmap, interest[..i + 1]) ==
      if BuildError(table, lmap, interest[..i]).Some? then BuildError(table, lmap, interest[..i])
      else EntryError(table, lmap, interest[i])
  {
    assert interest[..i + 1][..i] == interest[..i];
  }

  /** The entry that fails first decides the error. */
  lemma EntryErrorStops(table: ColourTable, lmap: Dict<string, FsqList>, interest: Interest, i: nat)
    requires i < |interest|
    requires BuildError(table, lmap, interest[..i]).None?
    requires EntryError(table, lmap, interest[i]).Some?
    ensures BuildError(table, lmap, interest) == EntryError(table, lmap, interest[i])
  {
    InterestPrefix(table, lmap, interest, i);
    assert interest == interest[..i + 1] + interest[i + 1..];
    BuildErrorAppend(table, lmap, interest[..i + 1], interest[i + 1..]);
  }

  /** The folders of the entries, in table order. */
  function Folders(lmap: Dict<string, FsqList>, fetch: string -> seq<Venue>, interest: Interest): (fs: seq<Folder>)
    ensures |fs| == |interest|
    decreases |interest|
  {
    if interest == [] then []
    else Folders(lmap, fetch, interest[..|interest| - 1]) + [EntryFolder(lmap, fetch, interest[|interest| - 1])]
  }

  /** One folder per entry, in table order. */
  lemma {:induction false} FoldersAt(lmap: Dict<string, FsqList>, fetch: string -> seq<Venue>, interest: Interest, i: nat)
    requires i < |interest|
    ensures |Folders(lmap, fetch, interest)| == |interest|
    ensures Folders(lmap, fetch, interest)[i] == EntryFolder(lmap, fetch, interest[i])
    decreases |interest|
  {
    var init := interest[..|interest| - 1];
    if i < |init| {
      FoldersAt(lmap, fetch, init, i);
    } else if init != [] {
      FoldersAt(lmap, fetch, init, 0);
    }
  }

  /** Without an error every entry's list exists, so each folder is named after its entry and holds that list's placemarks. */
  lemma NoErrorFolders(table: ColourTable, lmap: Dict<string, FsqList>, fetch: string -> seq<Venue>, interest: Interest, i: nat)
    requires BuildError(table, lmap, interest).None? && i < |interest|
    ensures Get(lmap, interest[i].0).Some?
    ensures |Folders(lmap, fetch, interest)| == |interest|
    ensures Folders(lmap, fetch, interest)[i].id == interest[i].0 && Folders(lmap, fetch, interest)[i].name == interest[i].0
    ensures Folders(lmap, fetch, interest)[i].features ==
      var l := Get(lmap, interest[i].0).value;
      MarksOf(interest[i].0, GenPlaces(l, fetch(l.id)), UrlFor(interest[i].1))
  {
    BuildErrorMeans(table, lmap, interest);
    assert EntryError(table, lmap, interest[i]).None?;
    FoldersAt(lmap, fetch, interest, i);
  }

  /**
   * Placemark `j` of the folder of entry `i` is for item `j` of that entry's list: id and name are the
   * venue's name, the description names the entry and the street address, the point is longitude first,
   * and the style URL is that of the entry's colour, absent when the entry has none.
   */
  lemma FolderPlacemark(table: ColourTable, lmap: Dict<string, FsqList>, fetch: string -> seq<Venue>,
                        interest: Interest, i: nat, j: nat)
    requires BuildError(table, lmap, interest).None? && i < |interest|
    requires Get(lmap, interest[i].0).Some? && j < |fetch(Get(lmap, interest[i].0).value.id)|
    ensures |Folders(lmap, fetch, interest)[i].features| == |fetch(Get(lmap, interest[i].0).value.id)|
    ensures var m, v := Folders(lmap, fetch, interest)[i].features[j], fetch(Get(lmap, interest[i].0).value.id)[j];
      && m.id == v.name && m.name == v.name
      && m.description == "List: " + interest[i].0 + "\n" +
                          (match v.location.address case Some(a) => a case None => NoAddress)
      && m.geometry == Point(v.location.lng, v.location.lat)
      && (m.styleUrl.None? <==> interest[i].1.None?)
      && (interest[i].1.Some? ==> m.styleUrl == Some(StyleUrl(interest[i].1.value)))
  {
    var l := Get(lmap, interest[i].0).value;
    NoErrorFolders(table, lmap, fetch, interest, i);
    GenPlacesAt(l, fetch(l.id), j);
    MarksOfAt(interest[i].0, GenPlaces(l, fetch(l.id)), UrlFor(interest[i].1), j);
  }

  /** A step of the loop on an entry that does not fail. */
  lemma EntryStep(table: ColourTable, lmap: Dict<string, FsqList>, fetch: string -> seq<Venue>, interest: Interest, i: nat,
                  requested: seq<string>, requested': seq<string>, folders: seq<Folder>)
    requires i < |interest|
    requires BuildError(table, lmap, interest[..i]).None? && EntryError(table, lmap, interest[i]).None?
    requires requested == Dedup(InterestColours(interest[..i]))
    requires requested' ==
      if interest[i].1.Some? && interest[i].1.value in table then Remember(requested, interest[i].1.value) else requested
    requires folders == Folders(lmap, fetch, interest[..i])
    ensures BuildError(table, lmap, interest[..i + 1]).None?
    ensures requested' == Dedup(InterestColours(interest[..i + 1]))
    ensures folders + [EntryFolder(lmap, fetch, interest[i])] == Folders(lmap, fetch, interest[..i + 1])
  {
    InterestPrefix(table, lmap, interest, i);
    assert interest[..i + 1][..i] == interest[..i];
    var before := InterestColours(interest[..i]);
    if interest[i].1.Some? {
      DedupSnoc(before, interest[i].1.value);
      assert InterestColours(interest[..i + 1]) == before + [interest[i].1.value];
    } else {
      assert InterestColours(interest[..i + 1]) == before;
    }
  }

  /**
   * `build_kml`: for each entry of the interest table, in order, its style URL (registered
   * on first use of the colour), then a folder named after the entry of the placemarks of its list.
   */
  method BuildKml(table: ColourTable, today: string, lmap: Dict<string, FsqList>, interest: Interest,
                  fetch: string -> seq<Venue>)
    returns (r: Result<Document, Error>)
    ensures BuildError(table, lmap, interest) == if r.Err? then Some(r.error) else None
    ensures r.Ok? ==> (AllKnown(table, Dedup(InterestColours(interest)))
                       && r.value.styles == StylesFor(table, Dedup(InterestColours(interest))))
    ensures r.Ok? ==> r.value.folders == Folders(lmap, fetch, interest)
    ensures r.Ok? ==> r.value.id == "docid" && r.value.name == "foursquare-" + today
  {
    var kml := new KmlMaker(table, today);
    for i := 0 to |interest|
      invariant kml.Valid() && kml.table == table
      invariant BuildError(table, lmap, interest[..i]).None?
      invariant kml.requested == Dedup(InterestColours(interest[..i]))
      invariant kml.folders == Folders(lmap, fetch, interest[..i])
    {
      ghost var requested := kml.requested;
      ghost var folders := kml.folders;
      var failed := AddEntry(kml, lmap, fetch, interest[i]);
      if failed.Some? {
        EntryErrorStops(table, lmap, interest, i);
        return Err(failed.value);
      }
      EntryStep(table, lmap, fetch, interest, i, requested, kml.requested, folders);
    }
    assert interest[..|interest|] == interest;
    r := Ok(kml.Doc());
  }

  /**
   * One pass of `build_kml`'s loop: the entry's style URL, then `lmap[lname]` and the
   * folder of the list's places. A known colour is registered even when the list then turns out missing.
   */
  method AddEntry(kml: KmlMaker, lmap: Dict<string, FsqList>, fetch: string -> seq<Venue>, e: (string, Option<string>))
    returns (failed: Option<Error>)
    requires kml.Valid()
    modifies kml
    ensures kml.Valid()
    ensures failed == EntryError(kml.table, lmap, e)
    ensures failed.None? ==> kml.folders == old(kml.folders) + [EntryFolder(lmap, fetch, e)]
    ensures kml.requested ==
      if e.1.Some? && e.1.value in kml.table then Remember(old(kml.requested), e.1.value) else old(kml.requested)
  {
    var (lname, colour) := e;
    var styleUrl: Option<string> := None;
    if colour.Some? {
      var made := kml.MakeIconStyle(colour.value);
      if made.Err? {
        return Some(made.error);
      }
      styleUrl := Some(made.value);
    }
    var lst := Get(lmap, lname);
    if lst.None? {
      return Some(MissingList(lname));
    }
    var places := GenPlaces(lst.value, fetch(lst.value.id));
    var marks := Marks(lname, places, styleUrl);
    kml.AddFolder(lname, marks);
    failed := None;
  }

  /**
   * `get_kml`: the list map of the response (`get_4sq_data`), the document `build_kml`
   * makes from it with the configured table, then the XML declaration and the serialised document.
   */
  method GetKml(table: ColourTable, today: string, serialize: Document -> string,
                groups: seq<ListGroup>, fetch: string -> seq<Venue>)
    returns (r: Result<KmlFile, Error>)
    ensures ListMap(groups).Err? ==> r == Err(MissingGroup(|groups|))
    ensures ListMap(groups).Ok? ==>
      BuildError(table, ListMap(groups).value, Interesting) == if r.Err? then Some(r.error) else None
    ensures r.Ok? ==> r.value.text == KmlText(serialize, r.value.doc)
    ensures r.Ok? ==> r.value.doc.id == "docid" && r.value.doc.name == "foursquare-" + today
    ensures r.Ok? ==> r.value.doc.folders == Folders(ListMap(groups).value, fetch, Interesting)
    ensures r.Ok? ==> (AllKnown(table, ["red", "pink", "blue"])
                       && r.value.doc.styles == StylesFor(table, ["red", "pink", "blue"]))
    ensures r.Ok? ==> |r.value.doc.folders| == 4 && |r.value.doc.styles| == 6
  {
    var lmap := ListMap(groups);
    if lmap.Err? {
      return Err(lmap.error);
    }
    var built := BuildKml(table, today, lmap.value, Interesting, fetch);
    if built.Err? {
      return Err(built.error);
    }
    ConfiguredStyles();
    r := Ok(KmlFile(built.value, KmlText(serialize, built.value)));
  }

  lemma InterestColoursSnoc(interest: Interest, e: (string, Option<string>))
    ensures InterestColours(interest + [e]) == InterestColours(interest) + (if e.1.Some? then [e.1.value] else [])
  {
    assert (interest + [e])[..|interest|] == interest;
  }

  /** The configured table asks for red, pink, blue and red again. */
  lemma ConfiguredColours()
    ensures InterestColours(Interesting) == ["red", "pink", "blue", "red"]
  {
    var e0, e1, e2, e3 := Interesting[0], Interesting[1], Interesting[2], Interesting[3];
    InterestColoursSnoc([], e0);
    assert [] + [e0] == [e0];
    InterestColoursSnoc([e0], e1);
    assert [e0] + [e1] == [e0, e1];
    InterestColoursSnoc([e0, e1], e2);
    assert [e0, e1] + [e2] == [e0, e1, e2];
    InterestColoursSnoc([e0, e1, e2], e3);
    assert [e0, e1, e2] + [e3] == Interesting;
  }

  /** A colour asked for again after two others is registered once. */
  lemma DedupRepeatFirst(a: string, b: string, c: string)
    requires a != b && a != c && b != c
    ensures Dedup([a, b, c, a]) == [a, b, c]
  {
    DedupSnoc([], a);
    assert [] + [a] == [a];
    DedupSnoc([a], b);
    assert [a] + [b] == [a, b];
    DedupSnoc([a, b], c);
    assert [a, b] + [c] == [a, b, c];
    DedupSnoc([a, b, c], a);
    assert [a, b, c] + [a] == [a, b, c, a];
  }

  /** Red is asked for twice but registered once: three style pairs, all of them CSS3 colours. */
  lemma ConfiguredStyles()
    ensures Dedup(InterestColours(Interesting)) == ["red", "pink", "blue"]
    ensures AllKnown(Css3Colours, Dedup(InterestColours(Interesting)))
  {
    ConfiguredColours();
    assert "red" != "pink" && "red" != "blue" && "pink" != "blue" by {
      assert "red"[0] != "pink"[0] && "red"[0] != "blue"[0] && "pink"[0] != "blue"[0];
    }
    DedupRepeatFirst("red", "pink", "blue");
  }
}
