/**
 * The dashboard: it fetches the places once, keeps them as its markers, and shows three panels,
 * each listing the first five markers of one place type in the order they were fetched.
 */
module Dashboard {

  import opened Wrappers
  import opened Requests

  /** A fetched place as far as the panels read it. */
  datatype Place = Place(id: int, name: string, placeType: string, address: string)

  const Hospital := "hospital"
  const Restaurant := "restaurant"
  const Attraction := "attraction"

  /** `slice(0, 5)`: how many entries a panel shows at most. */
  const PanelSize := 5

  /** `markers.filter(m => m.place_type === t)`. */
  function OfType(markers: seq<Place>, t: string): (r: seq<Place>)
    ensures |r| <= |markers|
    ensures forall k | 0 <= k < |r| :: r[k].placeType == t && r[k] in markers
  {
    if markers == [] then []
    else
      var init, last := markers[..|markers| - 1], markers[|markers| - 1];
      OfType(init, t) + (if last.placeType == t then [last] else [])
  }

  /** How many of `markers` have type `t`. */
  function MatchCount(markers: seq<Place>, t: string): (n: nat) {
    if markers == [] then 0
    else MatchCount(markers[..|markers| - 1], t) + (if markers[|markers| - 1].placeType == t then 1 else 0)
  }

  /** The filter keeps as many markers as there are matches. */
  lemma {:induction false} OfTypeLength(markers: seq<Place>, t: string)
    ensures |OfType(markers, t)| == MatchCount(markers, t)
  {
    if markers != [] {
      OfTypeLength(markers[..|markers| - 1], t);
    }
  }

  /** The filter keeps every match, in order: the match at index `i` lands at the position given by
      the number of matches before it. */
  lemma {:induction false} OfTypeKeepsEveryMatch(markers: seq<Place>, t: string)
    ensures forall i | 0 <= i < |markers| && markers[i].placeType == t ::
      MatchCount(markers[..i], t) < |OfType(markers, t)| && OfType(markers, t)[MatchCount(markers[..i], t)] == markers[i]
  {
    if markers != [] {
      var n := |markers| - 1;
      var init := markers[..n];
      OfTypeKeepsEveryMatch(init, t);
      OfTypeLength(init, t);
      var before := OfType(init, t);
      assert OfType(markers, t) == before + (if markers[n].placeType == t then [markers[n]] else []);
      forall i | 0 <= i < |markers| && markers[i].placeType == t
        ensures MatchCount(markers[..i], t) < |OfType(markers, t)|
          && OfType(markers, t)[MatchCount(markers[..i], t)] == markers[i]
      {
        if i < n {
          assert markers[i] == init[i] && markers[..i] == init[..i];
          assert OfType(markers, t)[MatchCount(init[..i], t)] == before[MatchCount(init[..i], t)];
        } else {
          assert markers[..i] == init;
          assert OfType(markers, t)[|before|] == markers[n];
        }
      }
    }
  }

  /** One panel: the markers of type `t`, cut to the first `PanelSize`. */
  function Panel(markers: seq<Place>, t: string): (r: seq<Place>)
    ensures |r| <= PanelSize
    ensures forall k | 0 <= k < |r| :: r[k].placeType == t && r[k] in markers
  {
    var matches := OfType(markers, t);
    matches[..if |matches| < PanelSize then |matches| else PanelSize]
  }

  /** A panel is exactly the first `min(5, n)` markers of its type, where `n` is how many there are,
      in fetched order: every match with fewer than five matches before it is shown, at the position
      given by how many matches precede it. As these positions are distinct and there are as many of
      them as the panel has entries, they fill the panel. */
  lemma PanelIsFirstMatches(markers: seq<Place>, t: string)
    ensures |Panel(markers, t)| ==
      if MatchCount(markers, t) < PanelSize then MatchCount(markers, t) else PanelSize
    ensures forall i | 0 <= i < |markers| && markers[i].placeType == t && MatchCount(markers[..i], t) < PanelSize ::
      MatchCount(markers[..i], t) < |Panel(markers, t)| && Panel(markers, t)[MatchCount(markers[..i], t)] == markers[i]
  {
    OfTypeLength(markers, t);
    OfTypeKeepsEveryMatch(markers, t);
    var matches, panel := OfType(markers, t), Panel(markers, t);
    assert forall k | 0 <= k < |panel| :: panel[k] == matches[k];
  }

  /** The three panels never share a place, and a place of any other type is in none of them. */
  lemma PanelsSeparate(markers: seq<Place>, p: Place)
    ensures !(p in Panel(markers, Hospital) && p in Panel(markers, Restaurant))
    ensures !(p in Panel(markers, Hospital) && p in Panel(markers, Attraction))
    ensures !(p in Panel(markers, Restaurant) && p in Panel(markers, Attraction))
    ensures p.placeType != Hospital && p.placeType != Restaurant && p.placeType != Attraction ==>
      p !in Panel(markers, Hospital) && p !in Panel(markers, Restaurant) && p !in Panel(markers, Attraction)
  {
  }

  /** The dashboard's state: its markers and the requests it has sent. */
  class DashboardPage {
    var markers: seq<Place>
    var sent: seq<Request>

    constructor ()
      ensures markers == [] && sent == []
    {
      markers := [];
      sent := [];
    }

    /** The mount effect's `fetchPlaces`, with the server's answer as a parameter (`None` when the
        request fails): a success replaces the markers wholesale, a failure leaves them as they were. */
    method FetchPlaces(reply: Option<seq<Place>>)
      modifies this
      ensures sent == old(sent) + [Request(Get, "/places/", NoBody)]
      ensures markers == if reply.Some? then reply.value else old(markers)
    {
      sent := sent + [Request(Get, "/places/", NoBody)];
      if reply.Some? {
        markers := reply.value;
      }
    }

    /** The "Nearby Hospitals" panel. */
    function Hospitals(): (r: seq<Place>)
      reads this
      ensures |r| <= PanelSize && forall k | 0 <= k < |r| :: r[k].placeType == Hospital && r[k] in markers
    {
      Panel(markers, Hospital)
    }

    /** The "Restaurants" panel. */
    function Restaurants(): (r: seq<Place>)
      reads this
      ensures |r| <= PanelSize && forall k | 0 <= k < |r| :: r[k].placeType == Restaurant && r[k] in markers
    {
      Panel(markers, Restaurant)
    }

    /** The "Attractions" panel. */
    function Attractions(): (r: seq<Place>)
      reads this
      ensures |r| <= PanelSize && forall k | 0 <= k < |r| :: r[k].placeType == Attraction && r[k] in markers
    {
      Panel(markers, Attraction)
    }
  }
}
