/**
 * The later script: places of the interesting lists (each list with a colour
 * or none), a KML document with one folder per list, and the strings of the
 * HTML map (marker tooltips and popups, the legend).
 */
module FavsMap {
  import opened Wrappers
  import opened Failures
  import opened Seqs
  import opened Dicts
  import opened Strings
  import opened Colour
  import opened Foursquare
  import opened Kml

  const Interesting: Interest := [
    ("my saved places", Some("red")),
    ("my liked places", Some("pink")),
    ("london-food", None),
    ("london", Some("blue")),
    ("london-todo", Some("red"))
  ]

  /** A venue of a list, with the list's display name and colour. */
  datatype Place = Place(lst: string, venue: Venue, colour: Option<string>)

  function Name(p: Place): string
  {
    p.venue.name
  }

  function Lat(p: Place): Coord
  {
    p.venue.location.lat
  }

  function Lng(p: Place): Coord
  {
    p.venue.location.lng
  }

  /** The lines of `formattedAddress` joined by single spaces; empty when the field is missing. */
  function Address(p: Place): string
  {
    var lines := match p.venue.location.formattedAddress
      case Some(ls) => ls
      case None => [];
    Join(" ", lines)
  }

  /** The address is empty without `formattedAddress`, and shows each of its lines otherwise. */
  lemma AddressShowsLines(p: Place)
    ensures p.venue.location.formattedAddress.None? ==> Address(p) == ""
    ensures p.venue.location.formattedAddress.Some? ==>
      forall i :: 0 <= i < |p.venue.location.formattedAddress.value| ==>
        IsSubstring(p.venue.location.formattedAddress.value[i], Address(p))
  {
    if p.venue.location.formattedAddress.Some? {
      JoinContainsParts(" ", p.venue.location.formattedAddress.value);
    }
  }

  function Description(p: Place): string
  {
    Name(p) + "\n" + Address(p) + "\nList: " + p.lst
  }

  /** The description's three lines come back out of `splitlines` when none of its parts holds a line break. */
  lemma DescriptionLines(p: Place)
    requires NoLineBreak(Name(p)) && NoLineBreak(Address(p)) && NoLineBreak(p.lst)
    ensures SplitLines(Description(p)) == [Name(p), Address(p), "List: " + p.lst]
  {
    var list := "List: " + p.lst;
    ListLineNoBreak(p.lst);
    assert Description(p) == Name(p) + "\n" + (Address(p) + "\n" + list);
    SplitLinesOfLines(Name(p), Address(p) + "\n" + list);
    SplitLinesOfLines(Address(p), list);
    SplitLinesOneLine(list);
  }

  // ---------------------------------------------------------------- places

  /** One place per venue of list `l`, in item order. */
  function PlacesOf(l: FsqList, colour: Option<string>, venues: seq<Venue>): (ps: seq<Place>)
    ensures |ps| == |venues|
    ensures forall i :: 0 <= i < |venues| ==> ps[i] == Place(l.name, venues[i], colour)
  {
    if venues == [] then [] else [Place(l.name, venues[0], colour)] + PlacesOf(l, colour, venues[1..])
  }

  /** The places one entry of the list map contributes: none when its key is not interesting. */
  function EntryPlaces(interest: Interest, fetch: string -> seq<Venue>, e: (string, FsqList)): seq<Place>
  {
    match Get(interest, e.0)
    case None => []
    case Some(colour) => PlacesOf(e.1, colour, fetch(e.1.id))
  }

  /**
   * `gen_places`: for each list of the list map, in its order, the places of its
   * items when its key is interesting. `fetch` stands for `api.lists(id)`.
   */
  function GenPlaces(lmap: Dict<string, FsqList>, interest: Interest, fetch: string -> seq<Venue>): seq<Place>
  {
    if lmap == [] then [] else EntryPlaces(interest, fetch, lmap[0]) + GenPlaces(lmap[1..], interest, fetch)
  }

  /** Generating the places of two parts of the list map one after the other gives the places of the whole. */
  lemma {:induction false} GenPlacesAppend(d1: Dict<string, FsqList>, d2: Dict<string, FsqList>,
                                           interest: Interest, fetch: string -> seq<Venue>)
    ensures GenPlaces(d1 + d2, interest, fetch) == GenPlaces(d1, interest, fetch) + GenPlaces(d2, interest, fetch)
  {
    if d1 == [] {
      assert d1 + d2 == d2;
    } else {
      assert (d1 + d2)[0] == d1[0] && (d1 + d2)[1..] == d1[1..] + d2;
      GenPlacesAppend(d1[1..], d2, interest, fetch);
    }
  }

  /** Place `p` comes from item `j` of the `i`-th list of the list map, an interesting one. */
  ghost predicate Yields(lmap: Dict<string, FsqList>, interest: Interest, fetch: string -> seq<Venue>,
                         p: Place, i: nat, j: nat)
  {
    && i < |lmap|
    && Get(interest, lmap[i].0).Some?
    && j < |fetch(lmap[i].1.id)|
    && p == Place(lmap[i].1.name, fetch(lmap[i].1.id)[j], Get(interest, lmap[i].0).value)
  }

  /** A place is generated exactly when it is an item of an interesting list, named and coloured after that list. */
  lemma {:induction false} GenPlacesMember(lmap: Dict<string, FsqList>, interest: Interest,
                                           fetch: string -> seq<Venue>, p: Place)
    ensures p in GenPlaces(lmap, interest, fetch) <==> exists i: nat, j: nat :: Yields(lmap, interest, fetch, p, i, j)
  {
    if lmap != [] {
      var rest := lmap[1..];
      GenPlacesMember(rest, interest, fetch, p);
      var here := EntryPlaces(interest, fetch, lmap[0]);
      assert GenPlaces(lmap, interest, fetch) == here + GenPlaces(rest, interest, fetch);
      if p in here {
        var j :| 0 <= j < |here| && here[j] == p;
        assert Yields(lmap, interest, fetch, p, 0, j);
      } else if p in GenPlaces(rest, interest, fetch) {
        var i: nat, j: nat :| Yields(rest, interest, fetch, p, i, j);
        assert Yields(lmap, interest, fetch, p, i + 1, j);
      }
      if exists i: nat, j: nat :: Yields(lmap, interest, fetch, p, i, j) {
        var i: nat, j: nat :| Yields(lmap, interest, fetch, p, i, j);
        if i == 0 {
          assert here[j] == p;
        } else {
          assert Yields(rest, interest, fetch, p, i - 1, j);
        }
      }
    }
  }

  /**
   * `gen_places` as a whole: the list map of the response (`get_4sq_lists`), then the places
   * of its interesting lists. A response with fewer than two groups stops it.
   */
  function FetchPlaces(groups: seq<ListGroup>, interest: Interest, fetch: string -> seq<Venue>): (r: Result<seq<Place>, Error>)
    ensures r.Err? <==> |groups| < 2
    ensures r.Err? ==> r.error == MissingGroup(|groups|)
  {
    match ListMap(groups)
    case Err(e) => Err(e)
    case Ok(lmap) => Ok(GenPlaces(lmap, interest, fetch))
  }

  /** From a full response, a place comes out exactly when it is an item of an interesting list of the list map. */
  lemma FetchPlacesMember(groups: seq<ListGroup>, interest: Interest, fetch: string -> seq<Venue>, p: Place)
    requires |groups| >= 2
    ensures FetchPlaces(groups, interest, fetch).Ok?
    ensures p in FetchPlaces(groups, interest, fetch).value <==>
      exists i: nat, j: nat :: Yields(ListMap(groups).value, interest, fetch, p, i, j)
  {
    GenPlacesMember(ListMap(groups).value, interest, fetch, p);
  }

  /** Lists whose key is not interesting contribute nothing. */
  lemma SkipsUninteresting(e: (string, FsqList), lmap: Dict<string, FsqList>, interest: Interest,
                           fetch: string -> seq<Venue>)
    requires Get(interest, e.0).None?
    ensures GenPlaces([e] + lmap, interest, fetch) == GenPlaces(lmap, interest, fetch)
  {
    assert ([e] + lmap)[1..] == lmap;
  }

  // ---------------------------------------------------------------- KML

  /** A placemark: id and name are the venue's name, the point is (longitude, latitude). */
  function Mark(p: Place, url: Option<string>): Placemark
  {
    Placemark(Name(p), Name(p), Description(p), url, Point(Lng(p), Lat(p)))
  }

  /** A group's colour is its first place's. */
  function GroupColour(g: (string, seq<Place>)): Option<string>
  {
    if g.1 == [] then None else g.1[0].colour
  }

  /** The colours the groups ask styles for, in group order. */
  function GroupColours(groups: seq<(string, seq<Place>)>): seq<string>
    decreases |groups|
  {
    if groups == [] then []
    else
      var last := GroupColour(groups[|groups| - 1]);
      GroupColours(groups[..|groups| - 1]) + (if last.Some? then [last.value] else [])
  }

  function Flatten(groups: seq<(string, seq<Place>)>): seq<Place>
  {
    if groups == [] then [] else groups[0].1 + Flatten(groups[1..])
  }

  /** What `group_by_key(items, key=lambda p: p.lst)` returns: non-empty groups of one list each, holding every item once. */
  ghost predicate IsGrouping(items: seq<Place>, groups: seq<(string, seq<Place>)>)
  {
    && (forall i, j :: 0 <= i < j < |groups| ==> groups[i].0 != groups[j].0)
    && (forall i :: 0 <= i < |groups| ==> groups[i].1 != [])
    && (forall i, q :: 0 <= i < |groups| && q in groups[i].1 ==> q.lst == groups[i].0)
    && multiset(Flatten(groups)) == multiset(items)
  }

  /** The placemarks of one group, in order, all with the group's style URL. */
  function MarksOf(places: seq<Place>, url: Option<string>): seq<Placemark>
    decreases |places|
  {
    if places == [] then [] else MarksOf(places[..|places| - 1], url) + [Mark(places[|places| - 1], url)]
  }

  /** One placemark per place, in order, each for its place and with the given style URL. */
  lemma {:induction false} MarksOfAt(places: seq<Place>, url: Option<string>, j: nat)
    requires j < |places|
    ensures |MarksOf(places, url)| == |places|
    ensures MarksOf(places, url)[j] == Mark(places[j], url)
    decreases |places|
  {
    var init := places[..|places| - 1];
    if j < |init| {
      MarksOfAt(init, url, j);
    } else if init != [] {
      MarksOfAt(init, url, 0);
    }
  }

  /** The folder `_get_kml` makes for one group. */
  function GroupFolder(g: (string, seq<Place>)): Folder
  {
    Folder(g.0, g.0, MarksOf(g.1, UrlFor(GroupColour(g))))
  }

  /** The folders of the groups, in group order. */
  function GroupFolders(groups: seq<(string, seq<Place>)>): (fs: seq<Folder>)
    ensures |fs| == |groups|
    decreases |groups|
  {
    if groups == [] then [] else GroupFolders(groups[..|groups| - 1]) + [GroupFolder(groups[|groups| - 1])]
  }

  /** Folder `i` is named after group `i` and holds its placemarks, all with the style of the group's colour. */
  lemma {:induction false} GroupFoldersAt(groups: seq<(string, seq<Place>)>, i: nat)
    requires i < |groups|
    ensures GroupFolders(groups)[i] == GroupFolder(groups[i])
    ensures GroupFolders(groups)[i].name == groups[i].0
    ensures GroupFolders(groups)[i].features == MarksOf(groups[i].1, UrlFor(GroupColour(groups[i])))
    decreases |groups|
  {
    var init := groups[..|groups| - 1];
    if i < |init| {
      GroupFoldersAt(init, i);
    }
  }

  /**
   * Placemark `j` of folder `i` is for place `j` of group `i`: id and name are the venue's name,
   * the point is longitude first, and the style URL is absent exactly when the group's first place has no colour.
   */
  lemma FolderPlacemark(groups: seq<(string, seq<Place>)>, i: nat, j: nat)
    requires i < |groups| && j < |groups[i].1|
    ensures |GroupFolders(groups)[i].features| == |groups[i].1|
    ensures var m, p := GroupFolders(groups)[i].features[j], groups[i].1[j];
      && m.id == Name(p) && m.name == Name(p) && m.description == Description(p)
      && m.geometry == Point(Lng(p), Lat(p))
      && (m.styleUrl.None? <==> groups[i].1[0].colour.None?)
      && (groups[i].1[0].colour.Some? ==> m.styleUrl == Some(StyleUrl(groups[i].1[0].colour.value)))
  {
    GroupFoldersAt(groups, i);
    MarksOfAt(groups[i].1, UrlFor(GroupColour(groups[i])), j);
  }

  /** A step of the loop on a group whose colour is known or absent. */
  lemma GroupStep(table: ColourTable, groups: seq<(string, seq<Place>)>, i: nat,
                  requested: seq<string>, requested': seq<string>, folders: seq<Folder>)
    requires i < |groups|
    requires FirstUnknown(table, GroupColours(groups[..i])).None?
    requires GroupColour(groups[i]).Some? ==> GroupColour(groups[i]).value in table
    requires requested == Dedup(GroupColours(groups[..i]))
    requires requested' ==
      if GroupColour(groups[i]).Some? then Remember(requested, GroupColour(groups[i]).value) else requested
    requires folders == GroupFolders(groups[..i])
    ensures FirstUnknown(table, GroupColours(groups[..i + 1])).None?
    ensures requested' == Dedup(GroupColours(groups[..i + 1]))
    ensures folders + [GroupFolder(groups[i])] == GroupFolders(groups[..i + 1])
  {
    GroupColoursPrefix(groups, i);
    assert groups[..i + 1][..i] == groups[..i];
    var before := GroupColours(groups[..i]);
    var c := GroupColour(groups[i]);
    if c.Some? {
      DedupSnoc(before, c.value);
      FirstUnknownSnoc(table, before, c.value);
      assert GroupColours(groups[..i + 1]) == before + [c.value];
    } else {
      assert GroupColours(groups[..i + 1]) == before;
    }
  }

  /**
   * `_get_kml`: per group, the style URL of its colour (registered on first use),
   * then a folder of its placemarks. An unknown colour name aborts the run.
   */
  method GetKml(table: ColourTable, today: string, serialize: Document -> string,
                items: seq<Place>, groups: seq<(string, seq<Place>)>)
    returns (r: Result<KmlFile, Error>)
    requires IsGrouping(items, groups)
    ensures r.Err? <==> FirstUnknown(table, GroupColours(groups)).Some?
    ensures r.Err? ==> r.error == UnknownColour(FirstUnknown(table, GroupColours(groups)).value)
    ensures r.Ok? ==> r.value.text == KmlText(serialize, r.value.doc)
    ensures r.Ok? ==> (AllKnown(table, Dedup(GroupColours(groups)))
                       && r.value.doc.styles == StylesFor(table, Dedup(GroupColours(groups))))
    ensures r.Ok? ==> r.value.doc.folders == GroupFolders(groups)
    ensures r.Ok? ==> r.value.doc.id == "docid" && r.value.doc.name == "foursquare-" + today
  {
    var kml := new KmlMaker(table, today);
    for i := 0 to |groups|
      invariant kml.Valid() && kml.table == table
      invariant FirstUnknown(table, GroupColours(groups[..i])).None?
      invariant kml.requested == Dedup(GroupColours(groups[..i]))
      invariant kml.folders == GroupFolders(groups[..i])
    {
      ghost var requested := kml.requested;
      ghost var folders := kml.folders;
      assert groups[i].1 != [];
      var added := AddGroup(kml, groups[i]);
      if added.Err? {
        UnknownColourStops(table, groups, i);
        return Err(added.error);
      }
      GroupStep(table, groups, i, requested, kml.requested, folders);
    }
    assert groups[..|groups|] == groups;
    var doc := kml.Doc();
    r := Ok(KmlFile(doc, KmlText(serialize, doc)));
  }

  /** One pass of `_get_kml`'s loop: the group's style URL (from its first place's colour), then its folder. */
  method AddGroup(kml: KmlMaker, g: (string, seq<Place>)) returns (r: Result<(), Error>)
    requires kml.Valid() && g.1 != []
    modifies kml
    ensures kml.Valid()
    ensures r.Err? <==> GroupColour(g).Some? && GroupColour(g).value !in kml.table
    ensures r.Err? ==> r.error == UnknownColour(GroupColour(g).value)
    ensures r.Ok? ==> kml.folders == old(kml.folders) + [GroupFolder(g)]
    ensures kml.requested ==
      if r.Ok? && GroupColour(g).Some? then Remember(old(kml.requested), GroupColour(g).value) else old(kml.requested)
  {
    var (lname, places) := g;
    var colour := places[0].colour;
    var styleUrl: Option<string> := None;
    if colour.Some? {
      var made := kml.MakeIconStyle(colour.value);
      if made.Err? {
        return Err(made.error);
      }
      styleUrl := Some(made.value);
    }
    var marks := Marks(places, styleUrl);
    kml.AddFolder(lname, marks);
    r := Ok(());
  }

  /** The first group whose colour the table does not know decides the error. */
  lemma UnknownColourStops(table: ColourTable, groups: seq<(string, seq<Place>)>, i: nat)
    requires i < |groups|
    requires FirstUnknown(table, GroupColours(groups[..i])).None?
    requires GroupColour(groups[i]).Some? && GroupColour(groups[i]).value !in table
    ensures FirstUnknown(table, GroupColours(groups)) == GroupColour(groups[i])
  {
    GroupColoursPrefix(groups, i);
    var a := GroupColours(groups[..i + 1]);
    assert groups == groups[..i + 1] + groups[i + 1..];
    GroupColoursAppend(groups[..i + 1], groups[i + 1..]);
    FirstUnknownAppend(table, a, GroupColours(groups[i + 1..]));
  }

  lemma {:induction false} GroupColoursAppend(g1: seq<(string, seq<Place>)>, g2: seq<(string, seq<Place>)>)
    ensures GroupColours(g1 + g2) == GroupColours(g1) + GroupColours(g2)
    decreases |g2|
  {
    if g2 != [] {
      var p := g2[..|g2| - 1];
      GroupColoursAppend(g1, p);
      assert (g1 + g2)[..|g1 + g2| - 1] == g1 + p;
    } else {
      assert g1 + g2 == g1;
    }
  }

  /** The `marks.append(...)` loop of one group. */
  method Marks(places: seq<Place>, url: Option<string>) returns (marks: seq<Placemark>)
    ensures marks == MarksOf(places, url)
  {
    marks := [];
    for j := 0 to |places|
      invariant marks == MarksOf(places[..j], url)
    {
      MarksOfSnoc(places[..j], places[j], url);
      assert places[..j + 1] == places[..j] + [places[j]];
      marks := marks + [Mark(places[j], url)];
    }
    assert places[..|places|] == places;
  }

  lemma MarksOfSnoc(places: seq<Place>, p: Place, url: Option<string>)
    ensures MarksOf(places + [p], url) == MarksOf(places, url) + [Mark(p, url)]
  {
    assert (places + [p])[..|places|] == places;
  }

  lemma GroupColoursPrefix(groups: seq<(string, seq<Place>)>, i: nat)
    requires i < |groups|
    ensures GroupColours(groups[..i + 1]) ==
      GroupColours(groups[..i]) + (if GroupColour(groups[i]).Some? then [GroupColour(groups[i]).value] else [])
  {
    assert groups[..i + 1][..i] == groups[..i];
  }

  /** `p in Flatten(groups)` exactly when some group holds `p`. */
  lemma {:induction false} FlattenMember(groups: seq<(string, seq<Place>)>, p: Place)
    ensures p in Flatten(groups) <==> exists i :: 0 <= i < |groups| && p in groups[i].1
  {
    if groups != [] {
      FlattenMember(groups[1..], p);
      assert Flatten(groups) == groups[0].1 + Flatten(groups[1..]);
      if exists i :: 0 <= i < |groups| && p in groups[i].1 {
        var i :| 0 <= i < |groups| && p in groups[i].1;
        if i > 0 {
          assert groups[1..][i - 1] == groups[i];
        }
      }
    }
  }

  /**
   * Each distinct `lst` of the places gets one folder, named after it: every place's
   * list names a folder, no two folders share a name, and every folder names the list of some place.
   */
  lemma OneFolderPerList(items: seq<Place>, groups: seq<(string, seq<Place>)>)
    requires IsGrouping(items, groups)
    ensures forall p :: p in items ==> exists i :: 0 <= i < |groups| && GroupFolder(groups[i]).name == p.lst
    ensures forall i, j :: 0 <= i < j < |groups| ==> GroupFolder(groups[i]).name != GroupFolder(groups[j]).name
    ensures forall i :: 0 <= i < |groups| ==> exists p :: p in items && p.lst == GroupFolder(groups[i]).name
  {
    forall p | p in items
      ensures exists i :: 0 <= i < |groups| && GroupFolder(groups[i]).name == p.lst
    {
      assert p in multiset(items);
      assert p in multiset(Flatten(groups));
      FlattenMember(groups, p);
      var i :| 0 <= i < |groups| && p in groups[i].1;
      assert GroupFolder(groups[i]).name == p.lst;
    }
    forall i | 0 <= i < |groups|
      ensures exists p :: p in items && p.lst == GroupFolder(groups[i]).name
    {
      var p := groups[i].1[0];
      FlattenMember(groups, p);
      assert p in multiset(Flatten(groups));
      assert p in multiset(items);
      assert p in items && p.lst == GroupFolder(groups[i]).name;
    }
  }

  // ---------------------------------------------------------------- HTML map

  /** `style_list`: the list name, wrapped in a span of its colour when it has one. */
  function StyleList(lname: string, colour: Option<string>): string
  {
    match colour
    case None => lname
    case Some(c) => "<span style=\"color:" + c + "\">" + lname + "</span>"
  }

  /** The list name always shows, and so does the colour when there is one. */
  lemma StyleListShows(lname: string, colour: Option<string>)
    ensures colour.None? ==> StyleList(lname, colour) == lname
    ensures IsSubstring(lname, StyleList(lname, colour))
    ensures colour.Some? ==> IsSubstring(colour.value, StyleList(lname, colour))
  {
    var s := StyleList(lname, colour);
    if colour.None? {
      assert Occurs(lname, s, 0);
    } else {
      var pre := "<span style=\"color:" + colour.value + "\">";
      assert s == pre + lname + "</span>";
      assert s[|pre|..|pre| + |lname|] == lname;
      assert Occurs(lname, s, |pre|);
      assert s[19..19 + |colour.value|] == colour.value;
      assert Occurs(colour.value, s, 19);
    }
  }

  /** The permanent label of a marker: the venue's name, then its list. */
  function Tooltip(p: Place): string
  {
    Name(p) + " " + StyleList(p.lst, p.colour)
  }

  /** The tooltip starts with the venue's name and shows the list name. */
  lemma TooltipShowsList(p: Place)
    ensures |Tooltip(p)| > |Name(p)| && Tooltip(p)[..|Name(p)| + 1] == Name(p) + " "
    ensures IsSubstring(p.lst, Tooltip(p))
  {
    var t := Tooltip(p);
    var pre := Name(p) + " ";
    var sl := StyleList(p.lst, p.colour);
    assert t == pre + sl;
    StyleListShows(p.lst, p.colour);
    assert t[|pre|..] == sl;
    assert Occurs(sl, t, |pre|);
    SubstringTrans(p.lst, sl, t);
  }

  /** The popup: the description's lines, joined by HTML line breaks. */
  function Popup(p: Place): string
  {
    Join("<br>", SplitLines(Description(p)))
  }

  /** When name, address and list name hold no line break, the popup is the three lines with `<br>` between them. */
  lemma PopupLines(p: Place)
    requires NoLineBreak(Name(p)) && NoLineBreak(Address(p)) && NoLineBreak(p.lst)
    ensures Popup(p) == Name(p) + "<br>" + Address(p) + "<br>" + "List: " + p.lst
  {
    DescriptionLines(p);
    var lines := [Name(p), Address(p), "List: " + p.lst];
    assert lines[1..] == [Address(p), "List: " + p.lst] && lines[1..][1..] == ["List: " + p.lst];
    assert Join("<br>", lines[1..][1..]) == "List: " + p.lst;
    assert Join("<br>", lines[1..]) == Address(p) + "<br>" + ("List: " + p.lst);
  }

  /** One row of the marker cluster's data: `[p.lat, p.lng, p.color, tooltip, popup]`. */
  datatype MarkerRow = MarkerRow(lat: Coord, lng: Coord, colour: Option<string>, tooltip: string, popup: string)

  function Row(p: Place): MarkerRow
  {
    MarkerRow(Lat(p), Lng(p), p.colour, Tooltip(p), Popup(p))
  }

  /** The rows of the places, in order. */
  function Rows(places: seq<Place>): (rows: seq<MarkerRow>)
    ensures |rows| == |places|
    decreases |places|
  {
    if places == [] then [] else Rows(places[..|places| - 1]) + [Row(places[|places| - 1])]
  }

  lemma {:induction false} RowsAt(places: seq<Place>, i: nat)
    requires i < |places|
    ensures Rows(places)[i] == Row(places[i])
    ensures var r, p := Rows(places)[i], places[i];
      r.lat == p.venue.location.lat && r.lng == p.venue.location.lng && r.colour == p.colour
      && r.tooltip == Tooltip(p) && r.popup == Popup(p)
    decreases |places|
  {
    if i < |places| - 1 {
      RowsAt(places[..|places| - 1], i);
    }
  }

  /** The `params.append(...)` loop of `_get_map`: one row per place, in order. */
  method MarkerRows(places: seq<Place>) returns (rows: seq<MarkerRow>)
    ensures |rows| == |places|
    ensures forall i :: 0 <= i < |places| ==> rows[i] == Row(places[i])
  {
    rows := [];
    for i := 0 to |places|
      invariant rows == Rows(places[..i])
    {
      var p := places[i];
      assert places[..i + 1][..i] == places[..i];
      rows := rows + [MarkerRow(Lat(p), Lng(p), p.colour, Tooltip(p), Popup(p))];
    }
    assert places[..|places|] == places;
    forall i | 0 <= i < |places|
      ensures rows[i] == Row(places[i])
    {
      RowsAt(places, i);
    }
  }

  /** The legend's parts: each key of the interest table styled with its colour, in table order. */
  function LegendParts(interest: Interest): seq<string>
    decreases |interest|
  {
    if interest == [] then []
    else
      var last := interest[|interest| - 1];
      LegendParts(interest[..|interest| - 1]) + [StyleList(last.0, last.1)]
  }

  /** One part per entry of the table, in order. */
  lemma {:induction false} LegendPartsAt(interest: Interest, i: nat)
    requires i < |interest|
    ensures |LegendParts(interest)| == |interest|
    ensures LegendParts(interest)[i] == StyleList(interest[i].0, interest[i].1)
    decreases |interest|
  {
    var init := interest[..|interest| - 1];
    if i < |init| {
      LegendPartsAt(init, i);
    } else if init != [] {
      LegendPartsAt(init, 0);
    }
  }

  /** The legend names every interesting list. */
  lemma LegendNamesLists(interest: Interest)
    ensures forall i :: 0 <= i < |interest| ==> IsSubstring(interest[i].0, Join(" ", LegendParts(interest)))
  {
    var parts := LegendParts(interest);
    JoinContainsParts(" ", parts);
    forall i | 0 <= i < |interest|
      ensures IsSubstring(interest[i].0, Join(" ", parts))
    {
      LegendPartsAt(interest, i);
      StyleListShows(interest[i].0, interest[i].1);
      SubstringTrans(interest[i].0, parts[i], Join(" ", parts));
    }
  }

  /**
   * The `legend_parts` loop and `' '.join(legend_parts)`: the legend's text depends on
   * the interest table only, and names every interesting list.
   */
  method Legend(interest: Interest) returns (text: string)
    ensures text == Join(" ", LegendParts(interest))
    ensures forall i :: 0 <= i < |interest| ==> IsSubstring(interest[i].0, text)
  {
    var parts: seq<string> := [];
    for i := 0 to |interest|
      invariant parts == LegendParts(interest[..i])
    {
      var (lname, colour) := interest[i];
      assert interest[..i + 1][..i] == interest[..i];
      parts := parts + [StyleList(lname, colour)];
    }
    assert interest[..|interest|] == interest;
    text := Join(" ", parts);
    LegendNamesLists(interest);
  }

  /** The configured legend: five parts in table order; `london-food` has no colour and shows bare. */
  lemma ConfiguredLegend()
    ensures |LegendParts(Interesting)| == 5
    ensures LegendParts(Interesting)[0] == StyleList("my saved places", Some("red"))
    ensures LegendParts(Interesting)[2] == "london-food"
    ensures LegendParts(Interesting)[3] == StyleList("london", Some("blue"))
  {
    var e0, e2, e3 := Interesting[0], Interesting[2], Interesting[3];
    assert e0 == ("my saved places", Some("red")) && e2 == ("london-food", None) && e3 == ("london", Some("blue"));
    LegendPartsAt(Interesting, 0);
    LegendPartsAt(Interesting, 2);
    LegendPartsAt(Interesting, 3);
  }

  // ---------------------------------------------------------------- test place

  /** The place of `get_test_places`: no colour, three address lines. */
  const TestPlace: Place :=
    Place("whatever", Venue("Some place", Location(11.123, 0.4, None, Some(["London", "UK", "Shoreditch"]))), None)

  lemma TestPlaceAddress()
    ensures Address(TestPlace) == "London UK Shoreditch"
  {
    var lines := ["London", "UK", "Shoreditch"];
    assert lines[1..] == ["UK", "Shoreditch"] && lines[1..][1..] == ["Shoreditch"];
    assert Join(" ", lines) == "London" + " " + ("UK" + " " + "Shoreditch");
  }

  lemma TestPlaceDescription()
    ensures Description(TestPlace) == "Some place" + "\n" + "London UK Shoreditch" + "\nList: " + "whatever"
  {
    TestPlaceAddress();
  }

  /** `test_get_kml`: the test place makes one folder, "whatever", of one unstyled placemark at (0.4, 11.123). */
  method TestGetKml(table: ColourTable, today: string, serialize: Document -> string) returns (r: Result<KmlFile, Error>)
    ensures r.Ok? && r.value.doc.styles == []
    ensures r.value.doc.folders ==
      [Folder("whatever", "whatever", [Placemark("Some place", "Some place", Description(TestPlace), None, Point(0.4, 11.123))])]
  {
    var groups := [("whatever", [TestPlace])];
    assert Flatten(groups) == [TestPlace];
    assert GroupColours(groups) == [];
    r := GetKml(table, today, serialize, [TestPlace], groups);
    assert MarksOf([TestPlace], None) == [Mark(TestPlace, None)];
  }

  /** The test place's marker is labelled with its name and its uncoloured list. */
  lemma TestPlaceTooltip()
    ensures Tooltip(TestPlace) == "Some place whatever"
  {
    assert "Some place" + " " + "whatever" == "Some place whatever";
  }

  /** The test place's popup is its three description lines. */
  lemma TestPlacePopup()
    ensures Popup(TestPlace) == "Some place" + "<br>" + "London UK Shoreditch" + "<br>" + "List: " + "whatever"
  {
    TestPlaceAddress();
    TestPlaceHasNoBreaks();
    PopupLines(TestPlace);
  }

  lemma TestPlaceHasNoBreaks()
    ensures NoLineBreak(Name(TestPlace)) && NoLineBreak(TestPlace.lst)
    ensures NoLineBreak("London UK Shoreditch")
  {
  }
}
