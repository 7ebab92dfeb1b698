/**
 * The shapes of the Foursquare responses the program reads, and the map from
 * lowercased list name to list that both scripts build from `api.users.lists()`.
 */
module Foursquare {
  import opened Wrappers
  import opened Failures
  import opened Seqs
  import opened Dicts
  import opened Strings

  /** Latitudes and longitudes: floats in the source, only ever copied. */
  type Coord = real

  /** A venue's `location`: `address` and `formattedAddress` may be missing. */
  datatype Location = Location(lat: Coord, lng: Coord, address: Option<string>, formattedAddress: Option<seq<string>>)

  datatype Venue = Venue(name: string, location: Location)

  /** A saved list, as `api.users.lists()` describes it. */
  datatype FsqList = FsqList(id: string, name: string)

  /** One entry of `lists['lists']['groups']`: the default lists, or the user's own. */
  datatype ListGroup = ListGroup(items: seq<FsqList>)

  /** Lowercased list name to the colour of its markers (`None`: no icon style), in iteration order. */
  type Interest = Dict<string, Option<string>>

  /** The `List: <name>` line that both scripts put in a placemark's description. */
  lemma ListLineNoBreak(lname: string)
    requires NoLineBreak(lname)
    ensures NoLineBreak("List: " + lname) && "List: " + lname != ""
  {
    assert NoLineBreak("List: ") by {
      assert "List: " == ['L', 'i', 's', 't', ':', ' '];
    }
    NoLineBreakConcat("List: ", lname);
  }

  /** Each list paired with its key in the list map, its lowercased name. */
  function Keyed(ls: seq<FsqList>): (ps: seq<(string, FsqList)>)
    ensures |ps| == |ls|
    ensures forall i :: 0 <= i < |ls| ==> ps[i] == (AsciiLower(ls[i].name), ls[i])
  {
    if ls == [] then [] else [(AsciiLower(ls[0].name), ls[0])] + Keyed(ls[1..])
  }

  /** The lists of group 0 followed by those of group 1. */
  function AllLists(groups: seq<ListGroup>): seq<FsqList>
    requires |groups| >= 2
  {
    groups[0].items + groups[1].items
  }

  /**
   * `{l['name'].lower(): l for l in def_lists + user_lists}`. Reading group 0 or 1
   * fails when the response has fewer groups.
   */
  function ListMap(groups: seq<ListGroup>): (r: Result<Dict<string, FsqList>, Error>)
    ensures r.Err? <==> |groups| < 2
    ensures r.Err? ==> r.error == MissingGroup(|groups|)
    ensures r.Ok? ==> Keys(r.value) == Dedup(Keys(Keyed(AllLists(groups))))
  {
    if |groups| < 2 then Err(MissingGroup(|groups|))
    else
      FromPairsKeys(Keyed(AllLists(groups)));
      Ok(FromPairs(Keyed(AllLists(groups))))
  }

  /** Every key of the list map is already lowercase, so `lname in INTERESTING` compares lowercased names. */
  lemma ListMapKeysLower(groups: seq<ListGroup>, i: nat)
    requires |groups| >= 2 && i < |ListMap(groups).value|
    ensures AsciiLower(ListMap(groups).value[i].0) == ListMap(groups).value[i].0
  {
    var ps := Keyed(AllLists(groups));
    var k := ListMap(groups).value[i].0;
    assert k in Keys(ListMap(groups).value);
    DedupMember(Keys(ps), k);
    var j :| 0 <= j < |ps| && Keys(ps)[j] == k;
    AsciiLowerIdempotent(AllLists(groups)[j].name);
  }

  /** The list a key maps to is the last list, in group order, whose lowercased name is that key. */
  lemma ListMapLaterWins(groups: seq<ListGroup>, k: string)
    requires |groups| >= 2
    ensures Get(ListMap(groups).value, k) == LastValue(Keyed(AllLists(groups)), k)
  {
    FromPairsGet(Keyed(AllLists(groups)), k);
  }

  /** What a key maps to is a list of the response whose lowercased name is that key. */
  lemma {:induction false} LastValueKeyed(ls: seq<FsqList>, k: string)
    requires LastValue(Keyed(ls), k).Some?
    ensures AsciiLower(LastValue(Keyed(ls), k).value.name) == k
    ensures LastValue(Keyed(ls), k).value in ls
  {
    var ps := Keyed(ls);
    if ps[|ps| - 1].0 != k {
      var p := ls[..|ls| - 1];
      assert Keyed(p) == ps[..|ps| - 1];
      LastValueKeyed(p, k);
    }
  }

  /** Two lists whose names differ only in case share one key, and the later one wins. */
  lemma SameNameLaterWins()
    ensures ListMap([ListGroup([FsqList("1", "London")]), ListGroup([FsqList("2", "london")])])
         == Ok([("london", FsqList("2", "london"))])
  {
    var l1, l2 := FsqList("1", "London"), FsqList("2", "london");
    var groups := [ListGroup([l1]), ListGroup([l2])];
    assert AsciiLower("London") == "london" && AsciiLower("london") == "london";
    var ps := Keyed(AllLists(groups));
    assert ps == [("london", l1), ("london", l2)];
    assert ps[..1] == [("london", l1)];
    assert FromPairs(ps[..1]) == [("london", l1)];
  }
}
