# favsmap in Dafny

A model of the two scripts of favsmap that turn a user's saved Foursquare lists into
map material:

- `fsq2gmaps/__main__.py`, the earlier script, writes a KML file for Google My Maps. It has
  one folder per list named in its interest table, in table order, and one placemark per venue.
- `favsmap/__init__.py`, the later script, writes the same kind of KML file from a stream of
  places. It also holds the strings of an HTML map: marker tooltips, popups and the legend.

Both scripts share the same `KmlMaker`. It is a KML document plus the `color2style` table
that gives every colour one `Style` and one `StyleMap`, registered on first request. The two
copies (favsmap/__init__.py:113-193 and fsq2gmaps/__main__.py:78-158) are identical, so
they are modelled once as `Kml.KmlMaker`.

Modules, in dependency order:

| module | file | what it holds |
|---|---|---|
| `Wrappers`, `Failures` | wrappers.dfy | `Option`, `Result`; `Error`, the exceptions that abort a run |
| `Seqs` | seqs.dfy | `Dedup`: distinct elements in order of first occurrence |
| `Dicts` | dicts.dfy | Python's insertion-ordered `dict` as a sequence of entries; comprehensions; `get` |
| `Strings` | strings.dfy | `lower` (ASCII), `join`, `splitlines` (Python's line boundaries), substrings |
| `Colour` | colour.dfy | `webcolors.name_to_rgb` as a table; the `aabbggrr` encoding of `_get_color` and its decoder |
| `Foursquare` | foursquare.dfy | the API records; the list map `{l['name'].lower(): l ...}` |
| `Kml` | kml.dfy | the fastkml document as datatypes; `KmlMaker` as a class with its registry invariant |
| `FavsMap` | favsmap.dfy | `Place`, `gen_places`, `_get_kml`, and the string parts of `_get_map` |
| `Fsq2Gmaps` | fsq2gmaps.dfy | `Place`, `gen_places`, `build_kml`, `get_kml` |

The stateful parts keep the source's form:

- `KmlMaker` is a class whose methods update `styles`, `folders` and `color2style`.
- The loops of `_get_kml`, `build_kml`, the `marks` lists, `add_folder`, the marker rows and
  the legend are methods with loop invariants.
- Each method is proved against a function of its inputs: `GroupFolders`, `Folders`,
  `MarksOf`, `StylesFor`, `BuildError`, `Rows` and `LegendParts`. The lemmas beside those functions
  state what the source promises.

The Python exceptions that end a run are modelled as `Err` results, so callers see them:

- `ValueError` from `name_to_rgb` becomes `UnknownColour`;
- `KeyError` from `lmap[lname]` becomes `MissingList`;
- `IndexError` on the groups of the lists response becomes `MissingGroup`.

An exception ends the run. So after an `Err` the model makes no claim about the half-built
document.

## Model

| member | source | states |
|---|---|---|
| Colour.Css3Colours | fsq2gmaps/__main__.py:68-74 | webcolors' CSS3 triples for the names the configured tables use: red, pink and blue; `ConfiguredStyles` shows they cover the configured colours and `BlueIsFfff0000` encodes blue |
| Colour.HexDigit | favsmap/__init__.py:150 | the lowercase digit `{:02x}` prints for a value below 16; `HexValue` reads each such digit back to its value |
| Colour.Hex2 | favsmap/__init__.py:150 | `{:02x}` gives exactly two characters |
| Colour.HexValue | favsmap/__init__.py:150 | a lowercase hex digit reads as a value below 16 that prints back as that digit |
| Colour.Hex2RoundTrip | favsmap/__init__.py:150 | reading the two hex digits of a byte gives the byte back |
| Colour.ParseHex2RoundTrip | favsmap/__init__.py:150 | every two-digit lowercase hex string is the `{:02x}` form of the byte it reads as |
| Colour.AbgrLayout | favsmap/__init__.py:147-150 | the icon colour is 8 characters: `ff`, then the blue, green and red bytes as two hex digits each |
| Colour.Abgr | favsmap/__init__.py:150 | the format string `"ff{:02x}{:02x}{:02x}"` applied to `(bb, gg, rr)`; its layout and round trip are in `AbgrLayout`, `AbgrRoundTrip` and `ParseAbgrRoundTrip` |
| Colour.AbgrRoundTrip | favsmap/__init__.py:147-150 | decoding characters 2..8 of the icon colour gives back `(bb, gg, rr)`, so the triple is recovered |
| Colour.ParseAbgrRoundTrip | favsmap/__init__.py:147-150 | every string that decodes as an opaque `aabbggrr` colour is the encoding of that colour |
| Colour.KmlColour | favsmap/__init__.py:147-150 | `_get_color` fails with the unknown name exactly when `name_to_rgb` does not know it |
| Colour.KmlColourDecodes | favsmap/__init__.py:147-150 | a known colour encodes to a string that decodes to its table triple |
| Colour.FirstUnknown | favsmap/__init__.py:200-202 | the result is a name the table does not know and every name before it is known; there is no result exactly when every name is known |
| Colour.BlueIsFfff0000 | fsq2gmaps/__main__.py:112-115 | web blue `(0, 0, 255)` encodes as `ffff0000`, blue byte first |
| Kml.StyleIdInjective | favsmap/__init__.py:153-154 | two colours with the same style id are the same colour |
| Kml.StyleId | favsmap/__init__.py:153 | the style id `style-<colour>`; no two colours share one, as `StyleIdInjective` states |
| Kml.StyleUrl | favsmap/__init__.py:154 | the style URL `#style-<colour>`, the id behind a `#`; the URL each placemark and style map uses, as `UrlFor` and `StylesForAt` state |
| Kml.StylePair | favsmap/__init__.py:155-171 | the `Style` and `StyleMap` that `_add_style` appends for one colour; their ids, icon, colour and URLs are stated by `StylesForAt` |
| Kml.IconHref | favsmap/__init__.py:159 | the blank pin icon URL of every `Style`, as `StylesForAt` states |
| Kml.StylesFor | favsmap/__init__.py:165-172 | two style entries per requested colour |
| Kml.StylesForAt | favsmap/__init__.py:155-172 | entry `2k` is the `Style` with id `style-<c>` and the blank pin icon in colour `c`; entry `2k+1` is the `StyleMap` with the same id whose normal and highlight are both `#style-<c>` |
| Kml.OneStylePerColour | favsmap/__init__.py:152-179 | with no colour requested twice, no two `Style` entries share an id |
| Kml.UrlFor | favsmap/__init__.py:202 | the style URL is absent exactly when the colour is `None`, and otherwise it is `#style-<colour>` |
| Kml.XmlDeclaration | favsmap/__init__.py:219 | the `<?xml version="1.0" encoding="UTF-8"?>` line and its newline, the prefix of the output as `KmlText` states |
| Kml.KmlText | favsmap/__init__.py:218-219 | the output starts with `<?xml version="1.0" encoding="UTF-8"?>` and a newline |
| Kml.RegisterKeepsRegistry | favsmap/__init__.py:152-174 | registering a new known colour keeps the invariant: `color2style` holds exactly the requested colours, each mapped to its URL, and the style list holds one pair per colour in request order |
| Kml.KmlMaker.constructor | favsmap/__init__.py:116-125 | a document `docid` named `foursquare-<date>`, with no styles, no folders and an empty `color2style` |
| Kml.KmlMaker.Doc | favsmap/__init__.py:118-123 | `self.doc` as built so far: id `docid`, the dated name, the styles and the folders; its id and name after a run are stated by `FavsMap.GetKml` and `Fsq2Gmaps.BuildKml` |
| Kml.KmlMaker.AddStyle | favsmap/__init__.py:152-174 | a known colour appends its `Style` then its `StyleMap` and records `#style-<c>`; an unknown colour fails and changes nothing |
| Kml.KmlMaker.MakeIconStyle | favsmap/__init__.py:176-179 | returns `#style-<c>` for a known colour; only the first request changes the styles; a repeated request or an unknown colour leaves styles and `color2style` unchanged; the invariant is kept |
| Kml.KmlMaker.AddFolder | favsmap/__init__.py:181-188 | appends one folder with id and name `name`, holding the items in order; the styles are untouched |
| Kml.MakeIconStyleTwice | favsmap/__init__.py:176-179 | two requests for one colour give the same URL and register exactly one style pair |
| Seqs.DedupMember | favsmap/__init__.py:177-178 | a colour is registered exactly when it has been requested |
| Seqs.DedupNoDup | favsmap/__init__.py:177-178 | no colour is registered twice |
| Seqs.DedupFirstSeenOrder | favsmap/__init__.py:177-178 | registered colours are in the order of their first request |
| Seqs.DedupLength | favsmap/__init__.py:177-178 | there are no more registered colours than requests |
| Seqs.Dedup | favsmap/__init__.py:177-178 | the colours `color2style` holds after a run of requests: each requested colour once, in order of first request, as `DedupMember`, `DedupNoDup` and `DedupFirstSeenOrder` state |
| Dicts.Keys | favsmap/__init__.py:40 | the result has one key per entry, and key `i` is the key of entry `i`, in iteration order |
| Dicts.Get | fsq2gmaps/__main__.py:168 | a lookup finds a value exactly when the key is present |
| Dicts.PutKeys | favsmap/__init__.py:40 | assigning to an existing key keeps its place; a new key goes last |
| Dicts.PutGet | favsmap/__init__.py:40 | after `d[k] = v`, `d[k]` is `v` and no other key changes |
| Dicts.FromPairsKeys | favsmap/__init__.py:40 | a comprehension's keys are the distinct keys in order of first insertion |
| Dicts.FromPairsGet | favsmap/__init__.py:40 | a comprehension maps each key to the value of its last pair |
| Dicts.FromPairsNoDup | favsmap/__init__.py:40 | a comprehension has each key once |
| Dicts.Put | favsmap/__init__.py:40 | one assignment `d[k] = v` of the comprehension; its keys and values are stated by `PutKeys` and `PutGet` |
| Dicts.FromPairs | favsmap/__init__.py:40 | the dictionary comprehension, one assignment per pair; its keys and values are stated by `FromPairsKeys`, `FromPairsGet` and `FromPairsNoDup` |
| Strings.LowerChar | favsmap/__init__.py:40 | a lowered character is never upper case, and only `A`-`Z` change |
| Strings.AsciiLower | favsmap/__init__.py:40 | `lower` keeps the length and lowers each character |
| Strings.AsciiLowerIdempotent | favsmap/__init__.py:40 | lowering twice is lowering once |
| Strings.JoinPartAt | favsmap/__init__.py:70 | each part stands whole at its offset in the joined string |
| Strings.JoinContainsParts | favsmap/__init__.py:70 | each part is a substring of the joined string |
| Strings.Join | favsmap/__init__.py:70 | `sep.join(parts)`; each part occurs in it whole, as `JoinPartAt` states |
| Strings.FirstBreak | favsmap/__init__.py:277 | the first line break, or the end of the string |
| Strings.SplitLines | favsmap/__init__.py:277 | `str.splitlines` with Python's line boundaries, `\r\n` counting as one; its results on break-free lines are stated by `SplitLinesOfLines` and `SplitLinesOneLine` |
| Strings.SplitLinesOfLines | favsmap/__init__.py:277 | `splitlines` of a line without breaks, `\n`, and the rest is that line followed by the lines of the rest |
| Strings.SplitLinesOneLine | favsmap/__init__.py:277 | a non-empty string without breaks is one line |
| Foursquare.Keyed | favsmap/__init__.py:40 | each list is keyed by its lowercased name |
| Foursquare.AllLists | favsmap/__init__.py:36-39 | `def_lists + user_lists`: the default group's lists followed by the user's; `ListMap` states that the keys come in this order |
| Foursquare.ListMap | favsmap/__init__.py:36-40 | fails exactly when the response has fewer than two groups; otherwise the keys are the distinct lowercased names of group 0's lists followed by group 1's |
| Foursquare.ListMapLaterWins | fsq2gmaps/__main__.py:27-31 | a key maps to the last list, in group order, with that lowercased name |
| Foursquare.ListMapKeysLower | favsmap/__init__.py:40 | every key of the list map is already lowercase, so the lowercase keys of the interest table are compared with lowercased names |
| Foursquare.LastValueKeyed | fsq2gmaps/__main__.py:31 | the list a key maps to is one of the response's lists and its lowercased name is the key |
| Foursquare.SameNameLaterWins | fsq2gmaps/__main__.py:31 | `London` then `london` give a single key `london` that maps to the second list |
| Foursquare.ListLineNoBreak | favsmap/__init__.py:82 | `List: <name>` holds no line break when the name holds none |
| FavsMap.Interesting | favsmap/__init__.py:50-56 | the interest table in its declared order, which is the order of the legend parts; its legend is stated by `ConfiguredLegend` |
| FavsMap.Name | favsmap/__init__.py:64-66 | the `name` property, the venue's `name`; the placemark id and name, as `FolderPlacemark` states, and the tooltip's start, as `TooltipShowsList` states |
| FavsMap.Lat | favsmap/__init__.py:72-74 | the `lat` property, the venue location's `lat`; the placemark's second coordinate and the row's first, as `FolderPlacemark` and `RowsAt` state |
| FavsMap.Lng | favsmap/__init__.py:76-78 | the `lng` property, the venue location's `lng`; the placemark's first coordinate and the row's second, as `FolderPlacemark` and `RowsAt` state |
| FavsMap.AddressShowsLines | favsmap/__init__.py:68-70 | the address is empty when `formattedAddress` is missing, and otherwise shows each of its lines |
| FavsMap.Address | favsmap/__init__.py:68-70 | the `address` property, `formattedAddress` joined by spaces or empty; stated by `AddressShowsLines` |
| FavsMap.DescriptionLines | favsmap/__init__.py:80-82 | the description splits back into the name, the address and `List: <lst>` |
| FavsMap.Description | favsmap/__init__.py:80-82 | the `description` property, name, address and `List: <lst>` on three lines; stated by `DescriptionLines` |
| FavsMap.PlacesOf | favsmap/__init__.py:103-109 | one place per item, in item order, with the list's display name and colour |
| FavsMap.EntryPlaces | favsmap/__init__.py:90-109 | one pass of the `gen_places` loop: no places for a key that is not interesting, otherwise the places of the list's items with that key's colour |
| FavsMap.GenPlaces | favsmap/__init__.py:90-109 | the `gen_places` loop over the list map; stated by `GenPlacesAppend`, `GenPlacesMember` and `SkipsUninteresting` |
| FavsMap.FetchPlaces | favsmap/__init__.py:86-109 | `gen_places` from the response: fails with `MissingGroup` exactly when the response has fewer than two groups |
| FavsMap.FetchPlacesMember | favsmap/__init__.py:86-109 | from a full response, a place is generated exactly when it is an item of an interesting list of the list map, named and coloured after it |
| FavsMap.GenPlacesAppend | favsmap/__init__.py:90-109 | places follow the list map's iteration order: the places of two parts of the map are concatenated |
| FavsMap.GenPlacesMember | favsmap/__init__.py:86-109 | a place is generated exactly when it is an item of a list whose lowercased name is interesting, named after that list and with that key's colour |
| FavsMap.SkipsUninteresting | favsmap/__init__.py:91-93 | a list whose key is not interesting contributes nothing |
| FavsMap.Mark | favsmap/__init__.py:205-211 | one `K.Placemark` with `Point(lng, lat)`; its fields are stated by `FolderPlacemark` |
| FavsMap.MarksOf | favsmap/__init__.py:203-212 | the placemarks of a group, one per place in order, as `MarksOfAt` states |
| FavsMap.GroupColour | favsmap/__init__.py:201 | `places[0].color`; the style URL it gives is stated by `FolderPlacemark` |
| FavsMap.GroupFolder | favsmap/__init__.py:213-216 | the folder of one group, named after its list; stated by `GroupFoldersAt` |
| FavsMap.MarksOfAt | favsmap/__init__.py:203-212 | one placemark per place, in order, each built from its place with the group's style URL |
| FavsMap.GroupFolders | favsmap/__init__.py:200-216 | one folder per group |
| FavsMap.GroupFoldersAt | favsmap/__init__.py:200-216 | folder `i` is named after group `i` and holds its placemarks with the style of the group's colour |
| FavsMap.FolderPlacemark | favsmap/__init__.py:201-211 | every placemark has id and name `p.name`, the description, and geometry `(lng, lat)`; its style URL is absent exactly when the group's first place has no colour, and otherwise it is `#style-<colour>` |
| FavsMap.GroupStep | favsmap/__init__.py:200-216 | one group with a known or absent colour moves the registry to the distinct colours so far and appends its folder |
| FavsMap.GetKml | favsmap/__init__.py:197-219 | fails exactly when some group's colour is unknown, with the first unknown one; otherwise the document is `docid` named `foursquare-<today>`, the styles are one pair per distinct group colour in first-request order, the folders are the groups' folders, and the text is the declaration followed by the serialised document |
| FavsMap.AddGroup | favsmap/__init__.py:201-216 | one pass of the loop: fails exactly on an unknown colour; otherwise registers the colour and appends the group's folder |
| FavsMap.UnknownColourStops | favsmap/__init__.py:202 | the first group with an unknown colour decides the error |
| FavsMap.Marks | favsmap/__init__.py:203-212 | the `marks` loop builds the group's placemarks |
| FavsMap.FlattenMember | favsmap/__init__.py:200 | a place is in the grouping exactly when some group holds it |
| FavsMap.IsGrouping | favsmap/__init__.py:200 | what is assumed of `group_by_key`: non-empty groups with distinct keys, each holding places of its own `lst`, together holding every place once |
| FavsMap.OneFolderPerList | favsmap/__init__.py:200-216 | each distinct `lst` gets one folder named after it: every place's list names a folder, no two folders share a name, and every folder is named after some place's list |
| FavsMap.StyleListShows | favsmap/__init__.py:245-249 | `style_list(l, None)` is `l`; otherwise the span shows both the list name and the colour |
| FavsMap.StyleList | favsmap/__init__.py:245-249 | `style_list`: the name, or the name in a span of its colour; stated by `StyleListShows` |
| FavsMap.TooltipShowsList | favsmap/__init__.py:276 | the tooltip starts with the venue's name and a space, and shows the list name |
| FavsMap.Tooltip | favsmap/__init__.py:276 | the marker tooltip, name, space, styled list name; stated by `TooltipShowsList` |
| FavsMap.PopupLines | favsmap/__init__.py:277 | the popup is the name, the address and `List: <lst>` joined by `<br>` |
| FavsMap.Popup | favsmap/__init__.py:277 | the marker popup, the description's lines joined by `<br>`; stated by `PopupLines` |
| FavsMap.Row | favsmap/__init__.py:278 | `[p.lat, p.lng, p.color, tooltip, popup]` for one place; stated by `RowsAt` |
| FavsMap.Rows | favsmap/__init__.py:274-278 | one marker row per place |
| FavsMap.RowsAt | favsmap/__init__.py:274-278 | row `i` is the row of place `i`: its coordinates, colour, tooltip and popup |
| FavsMap.MarkerRows | favsmap/__init__.py:274-278 | one row `[lat, lng, color, tooltip, popup]` per place, in order |
| FavsMap.LegendParts | favsmap/__init__.py:290-292 | the `legend_parts` list; one part per key of the interest table, as `LegendPartsAt` states |
| FavsMap.LegendPartsAt | favsmap/__init__.py:290-292 | one legend part per key of the interest table, in table order, styled with that key's colour |
| FavsMap.LegendNamesLists | favsmap/__init__.py:299 | the joined legend names every interesting list |
| FavsMap.Legend | favsmap/__init__.py:290-299 | the legend loop gives the space-joined parts of the interest table alone, and names every interesting list |
| FavsMap.ConfiguredLegend | favsmap/__init__.py:290-292 | the configured table gives five parts: `my saved places` in red first, `london-food` bare third, `london` in blue fourth |
| FavsMap.TestPlace | favsmap/__init__.py:226-239 | the place of `get_test_places`; its address, description, tooltip, popup and KML are stated by the lemmas below |
| FavsMap.TestPlaceAddress | favsmap/__init__.py:226-239 | the test place's address is `London UK Shoreditch` |
| FavsMap.TestPlaceDescription | favsmap/__init__.py:226-239 | the test place's description is `Some place`, `London UK Shoreditch` and `List: whatever` on three lines |
| FavsMap.TestGetKml | favsmap/__init__.py:314-316 | the test place gives no styles and one folder `whatever` with one unstyled placemark at `(0.4, 11.123)` |
| FavsMap.TestPlaceTooltip | favsmap/__init__.py:276 | the test place's tooltip is `Some place whatever` |
| FavsMap.TestPlacePopup | favsmap/__init__.py:277 | the test place's popup is `Some place<br>London UK Shoreditch<br>List: whatever` |
| Fsq2Gmaps.GenPlacesAt | fsq2gmaps/__main__.py:48-64 | one place per item, in item order: the list's display name, the venue's name, its `address` or `NO ADDRESS!`, and `lat`/`lon` from `lat`/`lng` |
| Fsq2Gmaps.ToPlace | fsq2gmaps/__main__.py:58-64 | the `Place` of one item, with the `NO ADDRESS!` fallback; stated by `GenPlacesAt` |
| Fsq2Gmaps.GenPlaces | fsq2gmaps/__main__.py:48-64 | `gen_places(lst)` over the items `api.lists(id)` returns; stated by `GenPlacesAt` |
| Fsq2Gmaps.NoAddress | fsq2gmaps/__main__.py:61 | the `NO ADDRESS!` fallback; stated by `GenPlacesAt` |
| Fsq2Gmaps.DescriptionLines | fsq2gmaps/__main__.py:172 | the description splits back into `List: <lname>` and the address |
| Fsq2Gmaps.Description | fsq2gmaps/__main__.py:172 | the placemark description `List: <lname>` then the address on a second line; stated by `DescriptionLines` |
| Fsq2Gmaps.Mark | fsq2gmaps/__main__.py:169-175 | one `K.Placemark` with `Point(p.lon, p.lat)`; its fields are stated by `FolderPlacemark` |
| Fsq2Gmaps.MarksOf | fsq2gmaps/__main__.py:167-176 | the placemarks of a list, one per place in order, as `MarksOfAt` states |
| Fsq2Gmaps.MarksOfAt | fsq2gmaps/__main__.py:168-176 | one placemark per place, in order, each with the list's style URL |
| Fsq2Gmaps.Marks | fsq2gmaps/__main__.py:167-176 | the `marks` loop builds the list's placemarks |
| Fsq2Gmaps.BuildErrorMeans | fsq2gmaps/__main__.py:165-168 | the run fails exactly when some entry fails, and then with the error of the first such entry |
| Fsq2Gmaps.EntryError | fsq2gmaps/__main__.py:166-168 | what stops the loop at one entry: an unknown colour first, then a list missing from the list map |
| Fsq2Gmaps.BuildError | fsq2gmaps/__main__.py:165-168 | the error of the first entry that has one; stated by `BuildErrorMeans` and `BuildErrorAppend` |
| Fsq2Gmaps.BuildErrorAppend | fsq2gmaps/__main__.py:165 | entries after a failing one do not change the error |
| Fsq2Gmaps.MissingListFails | fsq2gmaps/__main__.py:168 | an interesting name missing from the list map is an error, not a skipped list |
| Fsq2Gmaps.InterestPrefix | fsq2gmaps/__main__.py:165-168 | one more entry adds its colour to the requests and its error to the outcome |
| Fsq2Gmaps.EntryErrorStops | fsq2gmaps/__main__.py:166-168 | the first failing entry decides the error |
| Fsq2Gmaps.Folders | fsq2gmaps/__main__.py:165-180 | one folder per entry of the interest table |
| Fsq2Gmaps.FoldersAt | fsq2gmaps/__main__.py:165-180 | folder `i` is the folder of entry `i`, in table order |
| Fsq2Gmaps.EntryFolder | fsq2gmaps/__main__.py:167-180 | the folder of one interest entry, named after it; stated by `FoldersAt` and `NoErrorFolders` |
| Fsq2Gmaps.NoErrorFolders | fsq2gmaps/__main__.py:165-180 | without an error every entry's list exists, and folder `i` is named after entry `i` and holds the placemarks of that list's items |
| Fsq2Gmaps.FolderPlacemark | fsq2gmaps/__main__.py:166-175 | every placemark has id and name the venue's name, description `List: <lname>\n<address>`, and geometry `(lon, lat)`; its style URL is `#style-<colour>`, or absent when the entry has no colour |
| Fsq2Gmaps.EntryStep | fsq2gmaps/__main__.py:165-180 | an entry that does not fail moves the registry to the distinct colours so far and appends its folder |
| Fsq2Gmaps.BuildKml | fsq2gmaps/__main__.py:164-182 | fails exactly as the first failing entry does; otherwise the document is `docid` named `foursquare-<today>`, the styles are one pair per distinct colour in table order and the folders are the entries' folders in table order |
| Fsq2Gmaps.AddEntry | fsq2gmaps/__main__.py:166-180 | one pass: the colour is looked up before the list; on success the entry's folder is appended and its colour registered |
| Fsq2Gmaps.GetKml | fsq2gmaps/__main__.py:163-188 | builds the list map of the response first and fails with `MissingGroup` when it has fewer than two groups; then fails as `build_kml` does with the configured table; otherwise the document is `docid`, named `foursquare-<today>`, its folders are the configured entries' folders, its styles are the pairs of red, pink and blue (6 entries, 4 folders), and the text is the declaration followed by the serialised document |
| Fsq2Gmaps.ConfiguredColours | fsq2gmaps/__main__.py:68-74 | the configured table asks for red, pink, blue and red |
| Fsq2Gmaps.Interesting | fsq2gmaps/__main__.py:68-74 | the interest table, `london-food` left out; its order is the folder order, as `GetKml` and `ConfiguredColours` state |
| Fsq2Gmaps.ConfiguredStyles | fsq2gmaps/__main__.py:68-74 | red, pink and blue are registered once each, red being reused for `london-todo`, and all three are CSS3 colours |

## Left out

- `fsq2gmaps/main.py` is not part of this model. It is a separate script that calls the API at import time and hardcodes one style.
- Foursquare API access (`get_4sq_api` with its `lru_cache`, `api.users.lists()`, `api.lists(id)`) is not modelled. Responses are inputs: the list groups, and `fetch`, a function from a list id to its venues. `Fsq2Gmaps.GetKml` and `FavsMap.FetchPlaces` start from the groups; `Fsq2Gmaps.BuildKml`, `FavsMap.GenPlaces` and `FavsMap.GetKml` start from the built list map or places.
- Only the first page of a list's items is read, as in the source. The model takes whatever `fetch` returns and does not model pagination.
- fastkml serialisation and pretty-printing are a parameter `serialize`. The `ns` argument is not modelled.
- shapely `Point` is a pair of coordinates.
- Coordinates are `real`. They are only copied, so no floating-point behaviour is modelled.
- `webcolors.name_to_rgb` is a table parameter, `ColourTable`. `Css3Colours` holds only the three names the configured lists use.
- `str.lower()` is ASCII-only. Other characters are kept as they are, so Unicode case mapping is not modelled.
- The interest tables (`Interest`) and the list map are sequences of pairs, and the run-level members (`Fsq2Gmaps.BuildKml`, `FavsMap.GenPlaces`, `FavsMap.Legend`) accept a table with a repeated key. So the model's domain is wider than Python's, where a dict holds each key once. With a repeated key, `BuildKml` makes two folders of one name, which no Python run produces. Every promise still holds for tables with distinct keys, such as the two configured ones. The list map built by `ListMap` has distinct keys (`Dicts.FromPairsNoDup`).
- Response records are typed. `Venue.name`, `Location.lat`/`lng` and `FsqList.id`/`name` are always present, and only `address` and `formattedAddress` may be missing. So the `KeyError` the source raises on a response without `name`, `lat` or `lng` (favsmap/__init__.py:66, 74, 78; fsq2gmaps/__main__.py:60-63) is outside the model.
- kython's `group_by_key` is not part of this model. `FavsMap.GetKml` takes the grouping as input and requires it to partition the places by `lst`, in non-empty groups. No folder order is claimed for `_get_kml`.
- `datetime.now()` is the parameter `today`.
- `get_kml` in `favsmap/__init__.py` passes the output of `gen_places` to `_get_kml`. The model has both halves but does not compose them into one member.
- folium map building is not modelled: `Map`, `FastMarkerCluster`, `Fullscreen`, the JavaScript callback and the legend's HTML/CSS template. The marker rows, the tooltip, the popup and the legend text are.
- argparse, file writes, `print`, logging and the temporary-directory tests are not modelled. `test_get_kml` is kept, as `FavsMap.TestGetKml`.
- An entry whose list is missing gets an empty folder from `EntryFolder`. That case never produces a document, because `BuildKml` fails on it.
