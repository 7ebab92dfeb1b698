/**
 * A KML document as the fastkml objects the program builds: shared styles,
 * then one folder of placemarks per list. `KmlMaker` owns the document and the
 * `color2style` table that makes every colour's styles appear once.
 */
module Kml {
  import opened Wrappers
  import opened Failures
  import opened Seqs
  import opened Colour
  import opened Foursquare

  const XmlDeclaration: string := "<?xml version=\"1.0\" encoding=\"UTF-8\"?>\n"

  /** The blank pin whose colour the icon style sets. */
  const IconHref: string := "http://www.gstatic.com/mapspro/images/stock/503-wht-blank_maps.png"

  /** A shapely `Point(x, y)`. */
  datatype Point = Point(x: Coord, y: Coord)

  datatype StyleSelector =
    | Style(id: string, iconHref: string, iconColour: string)
    | StyleMap(id: string, normal: string, highlight: string)

  datatype Placemark = Placemark(id: string, name: string, description: string, styleUrl: Option<string>, geometry: Point)

  datatype Folder = Folder(id: string, name: string, features: seq<Placemark>)

  datatype Document = Document(id: string, name: string, description: string, styles: seq<StyleSelector>, folders: seq<Folder>)

  function StyleId(colour: string): string
  {
    "style-" + colour
  }

  function StyleUrl(colour: string): string
  {
    "#" + StyleId(colour)
  }

  /** Different colours never share a style id. */
  lemma StyleIdInjective(a: string, b: string)
    requires StyleId(a) == StyleId(b)
    ensures a == b
  {
    assert a == StyleId(a)[6..] && b == StyleId(b)[6..];
  }

  /** The two entries `_add_style` appends for one colour: the icon style, and a style map whose both states use it. */
  function StylePair(colour: string, rgb: Rgb): seq<StyleSelector>
  {
    [Style(StyleId(colour), IconHref, Abgr(rgb)), StyleMap(StyleId(colour), StyleUrl(colour), StyleUrl(colour))]
  }

  ghost predicate AllKnown(table: ColourTable, cs: seq<string>)
  {
    forall i :: 0 <= i < |cs| ==> cs[i] in table
  }

  /** The style list of a document whose colours were first requested in the order `cs`. */
  function StylesFor(table: ColourTable, cs: seq<string>): (ss: seq<StyleSelector>)
    requires AllKnown(table, cs)
    ensures |ss| == 2 * |cs|
    decreases |cs|
  {
    if cs == [] then [] else StylesFor(table, cs[..|cs| - 1]) + StylePair(cs[|cs| - 1], table[cs[|cs| - 1]])
  }

  /** The style URL a list's colour gives its placemarks, or none for a list without a colour. */
  function UrlFor(colour: Option<string>): (url: Option<string>)
    ensures url.None? <==> colour.None?
    ensures colour.Some? ==> url.value == StyleUrl(colour.value)
  {
    match colour
    case None => None
    case Some(c) => Some(StyleUrl(c))
  }

  /** Two entries per colour, in request order: the `Style`, then the `StyleMap`, both with id `style-<colour>`. */
  lemma {:induction false} StylesForAt(table: ColourTable, cs: seq<string>, k: nat)
    requires AllKnown(table, cs) && k < |cs|
    ensures |StylesFor(table, cs)| == 2 * |cs|
    ensures StylesFor(table, cs)[2 * k] == Style(StyleId(cs[k]), IconHref, Abgr(table[cs[k]]))
    ensures StylesFor(table, cs)[2 * k + 1] == StyleMap(StyleId(cs[k]), StyleUrl(cs[k]), StyleUrl(cs[k]))
  {
    var p := cs[..|cs| - 1];
    if k < |p| {
      StylesForAt(table, p, k);
    } else if p != [] {
      StylesForAt(table, p, 0);
    }
  }

  lemma StylesForSnoc(table: ColourTable, cs: seq<string>, c: string)
    requires AllKnown(table, cs) && c in table
    ensures AllKnown(table, cs + [c])
    ensures StylesFor(table, cs + [c]) == StylesFor(table, cs) + StylePair(c, table[c])
  {
    assert (cs + [c])[..|cs|] == cs;
  }

  /** With no colour requested twice, the `Style` entries of two different colours have different ids. */
  lemma OneStylePerColour(table: ColourTable, cs: seq<string>, i: nat, j: nat)
    requires AllKnown(table, cs) && NoDup(cs)
    requires i < |cs| && j < |cs|
    requires StylesFor(table, cs)[2 * i].id == StylesFor(table, cs)[2 * j].id
    ensures i == j
  {
    StylesForAt(table, cs, i);
    StylesForAt(table, cs, j);
    StyleIdInjective(cs[i], cs[j]);
  }

  /** `'<?xml version="1.0" encoding="UTF-8"?>\n' + kml.to_string(prettyprint=True)`; the serialiser is fastkml's. */
  function KmlText(serialize: Document -> string, doc: Document): (r: string)
    ensures |r| >= |XmlDeclaration| && r[..|XmlDeclaration|] == XmlDeclaration
  {
    XmlDeclaration + serialize(doc)
  }

  /** A finished document and the text written for it. */
  datatype KmlFile = KmlFile(doc: Document, text: string)

  /**
   * The style registry's invariant: `color2style` maps exactly the requested colours,
   * each to its URL, and the style list holds their pairs in order of first request.
   */
  ghost predicate Registry(table: ColourTable, requested: seq<string>, color2style: map<string, string>,
                           styles: seq<StyleSelector>)
  {
    && NoDup(requested)
    && AllKnown(table, requested)
    && (forall c :: c in color2style <==> c in requested)
    && (forall c :: c in color2style ==> color2style[c] == StyleUrl(c))
    && styles == StylesFor(table, requested)
  }

  /** Registering a known colour that is not yet registered keeps the invariant. */
  lemma RegisterKeepsRegistry(table: ColourTable, requested: seq<string>, color2style: map<string, string>,
                              styles: seq<StyleSelector>, c: string)
    requires Registry(table, requested, color2style, styles)
    requires c !in color2style && c in table
    ensures Registry(table, requested + [c], color2style[c := StyleUrl(c)], styles + StylePair(c, table[c]))
  {
    StylesForSnoc(table, requested, c);
    NoDupSnoc(requested, c);
  }

  class KmlMaker {
    const table: ColourTable
    const docName: string
    var styles: seq<StyleSelector>
    var folders: seq<Folder>
    var color2style: map<string, string>
    /** The colours of `color2style` in the order they were first requested. */
    ghost var requested: seq<string>

    ghost predicate Valid()
      reads this
    {
      Registry(table, requested, color2style, styles)
    }

    /** The document built so far. */
    function Doc(): Document
      reads this
    {
      Document("docid", docName, "Foursquare lists", styles, folders)
    }

    /** A fresh document named after the day (`datetime.now()` is passed in as `today`). */
    constructor (table: ColourTable, today: string)
      ensures Valid()
      ensures this.table == table && docName == "foursquare-" + today
      ensures styles == [] && folders == [] && color2style == map[] && requested == []
    {
      this.table := table;
      docName := "foursquare-" + today;
      styles, folders, color2style := [], [], map[];
      requested := [];
    }

    /** `_add_style`: appends the `Style` and the `StyleMap` of a colour not seen before and records its URL. */
    method AddStyle(colour: string) returns (r: Result<(), Error>)
      requires Valid() && colour !in color2style
      modifies this
      ensures Valid() && folders == old(folders)
      ensures r == if colour in table then Ok(()) else Err(UnknownColour(colour))
      ensures r.Ok? ==> requested == old(requested) + [colour]
      ensures r.Ok? ==> styles == old(styles) + StylePair(colour, table[colour])
      ensures r.Ok? ==> color2style == old(color2style)[colour := StyleUrl(colour)]
      ensures r.Err? ==> unchanged(this)
    {
      var styleId := StyleId(colour);
      var styleUrl := StyleUrl(colour);
      var iconColour := KmlColour(table, colour);
      if iconColour.Err? {
        return Err(iconColour.error);
      }
      RegisterKeepsRegistry(table, requested, color2style, styles, colour);
      ghost var pair := StylePair(colour, table[colour]);
      styles := styles + [Style(styleId, IconHref, iconColour.value)];
      styles := styles + [StyleMap(styleId, styleUrl, styleUrl)];
      assert styles == old(styles) + pair;
      color2style := color2style[colour := styleUrl];
      requested := requested + [colour];
      r := Ok(());
    }

    /**
     * `make_icon_style`: the URL `#style-<colour>`. Only the first request for a colour
     * adds styles; a later one returns the recorded URL and changes nothing.
     */
    method MakeIconStyle(colour: string) returns (r: Result<string, Error>)
      requires Valid()
      modifies this
      ensures Valid() && folders == old(folders)
      ensures r == if colour in table then Ok(StyleUrl(colour)) else Err(UnknownColour(colour))
      ensures requested == if r.Ok? then Remember(old(requested), colour) else old(requested)
      ensures colour in old(color2style) || r.Err? ==> styles == old(styles) && color2style == old(color2style)
    {
      if colour !in color2style {
        var added := AddStyle(colour);
        if added.Err? {
          return Err(added.error);
        }
      }
      r := Ok(color2style[colour]);
    }

    /** `add_folder`: a folder with id and name `name` holding `items`, after the folders so far. */
    method AddFolder(name: string, items: seq<Placemark>)
      requires Valid()
      modifies this
      ensures Valid()
      ensures folders == old(folders) + [Folder(name, name, items)]
      ensures styles == old(styles) && color2style == old(color2style) && requested == old(requested)
    {
      var features: seq<Placemark> := [];
      for i := 0 to |items|
        invariant features == items[..i]
      {
        features := features + [items[i]];
      }
      assert features == items;
      folders := folders + [Folder(name, name, features)];
    }
  }

  /** Asking twice for the same colour gives the same URL and registers its styles once. */
  method MakeIconStyleTwice(table: ColourTable, colour: string)
    returns (first: Result<string, Error>, second: Result<string, Error>, doc: Document)
    ensures first == second
    ensures first.Ok? <==> colour in table
    ensures first.Ok? ==> first.value == StyleUrl(colour)
    ensures colour in table ==> doc.styles == StylePair(colour, table[colour])
    ensures colour !in table ==> doc.styles == []
  {
    var kml := new KmlMaker(table, "");
    first := kml.MakeIconStyle(colour);
    second := kml.MakeIconStyle(colour);
    doc := kml.Doc();
    if colour in table {
      assert kml.requested == [] + [colour];
      StylesForSnoc(table, [], colour);
    }
  }
}
