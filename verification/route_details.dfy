/** The route and advisory half of the engine: `get_route_and_details`. It
    joins the chosen places into a best and an alternate route, collects
    sightseeing spots and permit advisories by exact lookup, and falls back to
    a single message when nothing is found. The transport mode is accepted but
    plays no part. */
module RouteDetails {
  import opened Text
  import opened Tables

  const Arrow: string := " -> "
  const AltSuffix: string := " (Alternate Route)"
  const NoSightseeing: string :=
    "No specific sightseeing recommendations available for this custom route."
  // The fallback is written as two literals only so that the verifier can
  // read its first character; the value is the single message of the page.
  const NoPermissions: string :=
    "No " + "special permissions noted for this route. Always double-check official government websites before travel."

  /** The four results of one route lookup. */
  datatype RouteInfo = RouteInfo(
    bestRoute: string,
    altRoute: string,
    sightseeing: seq<string>,
    permissions: seq<string>)

  /** The places in the order given, joined by arrows: it starts at the first
      place, ends at the last, and has one arrow per leg. */
  function BestRoute(places: seq<string>): (r: string)
    ensures |places| == 0 ==> r == ""
    ensures |places| >= 1 ==> places[0] <= r
    ensures |places| >= 1 ==> EndsWith(r, places[|places| - 1])
    ensures |places| >= 1 ==> |r| == TotalLength(places) + (|places| - 1) * |Arrow|
  {
    Join(places, Arrow)
  }

  /** The places in reverse order, joined by arrows, with a fixed suffix: it
      starts at the last place and reaches the first place just before the
      suffix. */
  function AltRoute(places: seq<string>): (r: string)
    ensures EndsWith(r, AltSuffix)
    ensures |places| == 0 ==> r == AltSuffix
    ensures |places| >= 1 ==> places[|places| - 1] <= r
    ensures |places| >= 1 ==> EndsWith(r[..|r| - |AltSuffix|], places[0])
  {
    var rev := Reverse(places);
    var joined := Join(rev, Arrow);
    assert |places| >= 1 ==> rev[0] == places[|places| - 1] && rev[|rev| - 1] == places[0];
    assert (joined + AltSuffix)[..|joined + AltSuffix| - |AltSuffix|] == joined;
    joined + AltSuffix
  }

  // ---------------------------------------------------------------------
  // Sightseeing

  /** Every sightseeing table entry lists at least one spot, and none of them
      is the fallback message. */
  lemma TableEntryFacts(place: string)
    ensures place in SightseeingDb ==> |SightseeingDb[place]| >= 1
    ensures place in SightseeingDb ==> NoSightseeing !in SightseeingDb[place]
  {
    assert SightseeingDb.Keys == {"Delhi", "Manali", "Leh", "Goa", "Jaipur"};
  }

  /** The spots of every place that is a key of the sightseeing table, in the
      order of the places; an unknown place adds nothing. Nothing is collected
      exactly when no listed place is a key. */
  function SpotsOf(places: seq<string>): (r: seq<string>)
    ensures r == [] <==> forall i :: 0 <= i < |places| ==> places[i] !in SightseeingDb
    ensures forall k :: 0 <= k < |r| ==> r[k] != NoSightseeing
    decreases |places|
  {
    if |places| == 0 then []
    else
      var here := if places[0] in SightseeingDb then SightseeingDb[places[0]] else [];
      var rest := SpotsOf(places[1..]);
      TableEntryFacts(places[0]);
      assert forall i :: 1 <= i < |places| ==> places[i] == places[1..][i - 1];
      assert (forall i :: 0 <= i < |places[1..]| ==> places[1..][i] !in SightseeingDb) ==>
        (forall i :: 1 <= i < |places| ==> places[i] !in SightseeingDb);
      here + rest
  }

  /** The sightseeing list shown to the traveller: never empty, and the single
      fallback message exactly when no listed place is in the table. */
  function Sightseeing(places: seq<string>): (r: seq<string>)
    ensures |r| >= 1
    ensures r == [NoSightseeing] <==> forall i :: 0 <= i < |places| ==> places[i] !in SightseeingDb
  {
    var spots := SpotsOf(places);
    assert spots != [] ==> spots[0] != NoSightseeing;
    if spots == [] then [NoSightseeing] else spots
  }

  // ---------------------------------------------------------------------
  // Permits

  /** The advisory line for one place of the permission table: it ends with
      the table's text and never reads like the fallback message. */
  function Advisory(place: string): (r: string)
    requires place in PermissionDb
    ensures EndsWith(r, PermissionDb[place])
    ensures r != NoPermissions
  {
    var line := "For " + place + ": " + PermissionDb[place];
    assert line[0] == 'F';
    assert NoPermissions[0] == 'N';
    line
  }

  /** One advisory per place that is a key of the permission table, in the
      order of the places. None is produced exactly when no listed place is a
      key, and none is the fallback message. */
  function PermitsOf(places: seq<string>): (r: seq<string>)
    ensures |r| <= |places|
    ensures r == [] <==> forall i :: 0 <= i < |places| ==> places[i] !in PermissionDb
    ensures forall k :: 0 <= k < |r| ==> r[k] != NoPermissions
    decreases |places|
  {
    if |places| == 0 then []
    else
      var here := if places[0] in PermissionDb then [Advisory(places[0])] else [];
      var rest := PermitsOf(places[1..]);
      assert forall i :: 1 <= i < |places| ==> places[i] == places[1..][i - 1];
      assert (forall i :: 0 <= i < |places[1..]| ==> places[1..][i] !in PermissionDb) ==>
        (forall i :: 1 <= i < |places| ==> places[i] !in PermissionDb);
      here + rest
  }

  /** The permission list shown to the traveller: never empty, and the single
      fallback message exactly when no listed place is in the table. */
  function Permissions(places: seq<string>): (r: seq<string>)
    ensures |r| >= 1
    ensures r == [NoPermissions] <==> forall i :: 0 <= i < |places| ==> places[i] !in PermissionDb
  {
    var permits := PermitsOf(places);
    assert permits != [] ==> permits[0] != NoPermissions;
    if permits == [] then [NoPermissions] else permits
  }

  /** The places (with repeats, in order) that need a permit: the reference
      against which `PermitsOf` is checked. */
  function PermitPlaces(places: seq<string>): (r: seq<string>)
    ensures |r| <= |places|
    ensures forall i :: 0 <= i < |r| ==> r[i] in PermissionDb
    decreases |places|
  {
    if |places| == 0 then []
    else (if places[0] in PermissionDb then [places[0]] else []) + PermitPlaces(places[1..])
  }

  /** `get_route_and_details(places_list, mode)`. */
  function GetRouteAndDetails(places: seq<string>, mode: string): (r: RouteInfo)
    ensures |r.sightseeing| >= 1
    ensures |r.permissions| >= 1
    ensures |places| >= 1 ==> places[0] <= r.bestRoute
    ensures |places| >= 1 ==> places[|places| - 1] <= r.altRoute
    ensures EndsWith(r.altRoute, AltSuffix)
  {
    RouteInfo(BestRoute(places), AltRoute(places), Sightseeing(places), Permissions(places))
  }

  // ---------------------------------------------------------------------
  // Routes

  /** The alternate route of a single place is that place and the suffix. */
  lemma AltRouteSingle(place: string)
    ensures AltRoute([place]) == place + " (Alternate Route)"
  {
    assert Reverse([place]) == [place];
  }

  /** Adding a place at the end of the trip puts it at the head of the
      alternate route, followed by the alternate route of the earlier places. */
  lemma AltRouteSnoc(places: seq<string>, last: string)
    requires |places| >= 1
    ensures AltRoute(places + [last]) == last + " -> " + AltRoute(places)
  {
    var rev := Reverse(places + [last]);
    assert rev == [last] + Reverse(places);
    assert rev[1..] == Reverse(places);
    assert |Reverse(places)| >= 1;
  }

  /** The alternate route of the reversed places is the best route plus the
      suffix: the two routes are mirror images. */
  lemma AltRouteOfReversed(places: seq<string>)
    ensures AltRoute(Reverse(places)) == BestRoute(places) + " (Alternate Route)"
  {
    ReverseInvolutive(places);
  }

  // ---------------------------------------------------------------------
  // Sightseeing properties

  /** Collecting spots distributes over concatenation of the place list, so
      a repeated place contributes its spots again. */
  lemma {:induction false} SpotsOfAppend(a: seq<string>, b: seq<string>)
    ensures SpotsOf(a + b) == SpotsOf(a) + SpotsOf(b)
    decreases |a|
  {
    if |a| == 0 {
      assert a + b == b;
    } else {
      assert (a + b)[0] == a[0];
      assert (a + b)[1..] == a[1..] + b;
      SpotsOfAppend(a[1..], b);
    }
  }

  /** A place missing from the sightseeing table adds nothing, wherever it
      stands in the list. */
  lemma UnknownPlaceAddsNoSpots(a: seq<string>, place: string, b: seq<string>)
    requires place !in SightseeingDb
    ensures SpotsOf(a + [place] + b) == SpotsOf(a + b)
  {
    SpotsOfAppend(a + [place], b);
    SpotsOfAppend(a, [place]);
    SpotsOfAppend(a, b);
    assert SpotsOf([place]) == [];
  }

  /** A spot is collected exactly when it belongs to the table entry of some
      listed place. */
  lemma {:induction false} SpotsOfMembership(places: seq<string>, spot: string)
    ensures spot in SpotsOf(places) <==>
      exists i :: 0 <= i < |places| && places[i] in SightseeingDb && spot in SightseeingDb[places[i]]
    decreases |places|
  {
    if |places| > 0 {
      SpotsOfMembership(places[1..], spot);
      if spot in SpotsOf(places[1..]) {
        var i :| 0 <= i < |places[1..]| && places[1..][i] in SightseeingDb
                 && spot in SightseeingDb[places[1..][i]];
        assert places[i + 1] == places[1..][i];
      }
      if exists i :: 0 <= i < |places| && places[i] in SightseeingDb && spot in SightseeingDb[places[i]] {
        var i :| 0 <= i < |places| && places[i] in SightseeingDb && spot in SightseeingDb[places[i]];
        if i > 0 {
          assert places[1..][i - 1] == places[i];
        }
      }
    }
  }

  // ---------------------------------------------------------------------
  // Permit properties

  /** A place is listed as needing a permit exactly when it is one of the
      chosen places and a key of the permission table. */
  lemma {:induction false} PermitPlacesMembership(places: seq<string>, place: string)
    ensures place in PermitPlaces(places) <==> place in places && place in PermissionDb
    decreases |places|
  {
    if |places| > 0 {
      PermitPlacesMembership(places[1..], place);
      assert places == [places[0]] + places[1..];
    }
  }

  /** The advisories are one "For {place}: {text}" line per place needing a
      permit, in the order of the places. */
  lemma {:induction false} PermitsOfIsOnePerPermitPlace(places: seq<string>)
    ensures |PermitsOf(places)| == |PermitPlaces(places)|
    ensures forall i :: 0 <= i < |PermitsOf(places)| ==>
      PermitsOf(places)[i] == "For " + PermitPlaces(places)[i] + ": " + PermissionDb[PermitPlaces(places)[i]]
    decreases |places|
  {
    if |places| > 0 {
      PermitsOfIsOnePerPermitPlace(places[1..]);
    }
  }

  /** There are as many permission lines as places needing a permit, and at
      least one: the fallback stands in for none. */
  lemma PermissionsCount(places: seq<string>)
    ensures |Permissions(places)| == if |PermitPlaces(places)| == 0 then 1 else |PermitPlaces(places)|
  {
    PermitsOfIsOnePerPermitPlace(places);
  }

  /** Collecting permit places distributes over concatenation of the place
      list: order is kept and a repeated place is listed again. */
  lemma {:induction false} PermitPlacesAppend(a: seq<string>, b: seq<string>)
    ensures PermitPlaces(a + b) == PermitPlaces(a) + PermitPlaces(b)
    decreases |a|
  {
    if |a| == 0 {
      assert a + b == b;
    } else {
      assert (a + b)[0] == a[0];
      assert (a + b)[1..] == a[1..] + b;
      PermitPlacesAppend(a[1..], b);
    }
  }

  /** A place needing a permit is listed as often as it was chosen; any other
      place not at all. */
  lemma {:induction false} PermitPlacesMultiplicity(places: seq<string>, place: string)
    ensures multiset(PermitPlaces(places))[place]
         == if place in PermissionDb then multiset(places)[place] else 0
    decreases |places|
  {
    if |places| > 0 {
      PermitPlacesMultiplicity(places[1..], place);
      assert places == [places[0]] + places[1..];
    }
  }

  // ---------------------------------------------------------------------
  // Mode

  /** The route details do not depend on the transport mode. */
  lemma DetailsIgnoreMode(places: seq<string>, mode1: string, mode2: string)
    ensures GetRouteAndDetails(places, mode1) == GetRouteAndDetails(places, mode2)
  {
  }
}
