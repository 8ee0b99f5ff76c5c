/**
 * main_combined.py GET /nearest-hospital: the first Google Places text
 * search result when a key is configured and the search succeeds, otherwise
 * the closest OpenStreetMap hospital node returned by Overpass. The two HTTP
 * calls are inputs, and the great-circle distance is an uninterpreted
 * function.
 */
module NearestHospital {
  import opened Wrappers
  import opened PyDict

  /** `haversine(lat1, lon1, lat2, lon2)`, left uninterpreted. */
  type Distance = (real, real, real, real) -> real

  /** One Overpass element; coordinates and the tag dict may be missing. */
  datatype Element = Element(lat: Option<real>, lon: Option<real>, tags: Option<seq<Pair<string>>>)

  predicate HasCoordinates(e: Element) {
    e.lat.Some? && e.lon.Some?
  }

  /** The distance from (lat, lon) to an element with coordinates. */
  function DistanceTo(dist: Distance, lat: real, lon: real, e: Element): real
    requires HasCoordinates(e)
  {
    dist(lat, lon, e.lat.value, e.lon.value)
  }

  /**
   * `nearest` is the first element with coordinates at the least distance:
   * no element with coordinates is closer, and every earlier one is farther.
   */
  predicate FirstClosest(dist: Distance, lat: real, lon: real, elements: seq<Element>, nearest: nat) {
    && nearest < |elements|
    && HasCoordinates(elements[nearest])
    && (forall j :: 0 <= j < |elements| && HasCoordinates(elements[j]) ==>
          DistanceTo(dist, lat, lon, elements[nearest]) <= DistanceTo(dist, lat, lon, elements[j]))
    && (forall j :: 0 <= j < nearest && HasCoordinates(elements[j]) ==>
          DistanceTo(dist, lat, lon, elements[nearest]) < DistanceTo(dist, lat, lon, elements[j]))
  }

  /**
   * The loop over the elements: skip those without coordinates, keep one
   * whose distance is strictly below the least so far (None standing for
   * the initial infinity).
   */
  method Closest(dist: Distance, lat: real, lon: real, elements: seq<Element>)
    returns (nearest: Option<nat>, minDistance: Option<real>)
    ensures nearest.None? <==> forall j :: 0 <= j < |elements| ==> !HasCoordinates(elements[j])
    ensures nearest.None? <==> minDistance.None?
    ensures nearest.Some? ==> FirstClosest(dist, lat, lon, elements, nearest.value)
    ensures nearest.Some? ==> minDistance == Some(DistanceTo(dist, lat, lon, elements[nearest.value]))
  {
    nearest := None;
    minDistance := None;
    for i := 0 to |elements|
      invariant nearest.None? <==> forall j :: 0 <= j < i ==> !HasCoordinates(elements[j])
      invariant nearest.None? <==> minDistance.None?
      invariant nearest.Some? ==> nearest.value < i && FirstClosest(dist, lat, lon, elements[..i], nearest.value)
      invariant nearest.Some? ==> minDistance == Some(DistanceTo(dist, lat, lon, elements[nearest.value]))
    {
      var h := elements[i];
      assert elements[..i + 1] == elements[..i] + [h];
      if h.lat.None? || h.lon.None? {
        continue;
      }
      var d := dist(lat, lon, h.lat.value, h.lon.value);
      if minDistance.None? || d < minDistance.value {
        minDistance := Some(d);
        nearest := Some(i);
      }
    }
    assert elements[..|elements|] == elements;
  }

  /** `d.get(key, default)` on an optional string dict. */
  function TagOr(tags: Option<seq<Pair<string>>>, key: string, default: string): string {
    match tags
    case None => default
    case Some(t) =>
      match Get(t, key)
      case Some(v) => v
      case None => default
  }

  /** One Google Places result; `place_id` may be missing, which raises and falls back. */
  datatype Place = Place(name: Option<string>, lat: real, lng: real, address: Option<string>, placeId: Option<string>)

  /** The Google request: it raised, or a decoded reply with its status and results. */
  datatype GoogleOutcome = GoogleRaised | GoogleReply(status: Option<string>, results: seq<Place>)

  /** The Overpass request: it raised, or an HTTP status with the decoded `elements` (None when absent). */
  datatype OverpassOutcome = OverpassRaised | OverpassReply(statusCode: int, elements: Option<seq<Element>>)

  datatype HospitalReply =
    | GoogleHospital(name: string, distanceKm: real, lat: real, lon: real, address: string, placeId: string)
    | OsmHospital(name: string, distanceKm: real, lat: real, lon: real, street: string, city: string)
    | NoHospital(message: string)
    | ServerError

  /** The Google branch answers when its status is OK, it has a result and the first result has a place id. */
  predicate GoogleAnswers(apiKey: Option<string>, google: GoogleOutcome) {
    && apiKey.Some? && apiKey.value != ""
    && google.GoogleReply? && google.status == Some("OK") && |google.results| > 0
    && google.results[0].placeId.Some?
  }

  /** The endpoint, with its fixed messages. */
  method NearestHospitalEndpoint(
    lat: real, lon: real, apiKey: Option<string>, google: GoogleOutcome, overpass: OverpassOutcome, dist: Distance)
    returns (reply: HospitalReply)
    ensures GoogleAnswers(apiKey, google) ==>
      var p := google.results[0];
      reply == GoogleHospital(
        if p.name.Some? then p.name.value else "Unnamed Hospital",
        dist(lat, lon, p.lat, p.lng), p.lat, p.lng,
        if p.address.Some? then p.address.value else "", p.placeId.value)
    ensures !GoogleAnswers(apiKey, google) ==> match overpass
      case OverpassRaised => reply == ServerError
      case OverpassReply(code, elements) =>
        if code != 200 then reply == NoHospital("Error contacting map service")
        else if elements.None? || elements.value == [] then reply == NoHospital("No hospital found within 5km")
        else if forall j :: 0 <= j < |elements.value| ==> !HasCoordinates(elements.value[j]) then
          reply == NoHospital("No valid hospital data found")
        else
          && reply.OsmHospital?
          && exists k: nat :: FirstClosest(dist, lat, lon, elements.value, k)
               && reply == OsmHospital(
                    TagOr(elements.value[k].tags, "name", "Unnamed Hospital"),
                    DistanceTo(dist, lat, lon, elements.value[k]),
                    elements.value[k].lat.value, elements.value[k].lon.value,
                    TagOr(elements.value[k].tags, "addr:street", ""),
                    TagOr(elements.value[k].tags, "addr:city", ""))
  {
    if GoogleAnswers(apiKey, google) {
      var p := google.results[0];
      var d := dist(lat, lon, p.lat, p.lng);
      return GoogleHospital(
        if p.name.Some? then p.name.value else "Unnamed Hospital", d, p.lat, p.lng,
        if p.address.Some? then p.address.value else "", p.placeId.value);
    }
    match overpass {
      case OverpassRaised =>
        reply := ServerError;
      case OverpassReply(code, elements) =>
        if code != 200 {
          reply := NoHospital("Error contacting map service");
        } else if elements.None? || elements.value == [] {
          reply := NoHospital("No hospital found within 5km");
        } else {
          var nearest, minDistance := Closest(dist, lat, lon, elements.value);
          if nearest.None? {
            reply := NoHospital("No valid hospital data found");
          } else {
            var h := elements.value[nearest.value];
            reply := OsmHospital(
              TagOr(h.tags, "name", "Unnamed Hospital"), minDistance.value, h.lat.value, h.lon.value,
              TagOr(h.tags, "addr:street", ""), TagOr(h.tags, "addr:city", ""));
          }
        }
    }
  }

  /** The closest element is unique up to ties, and on a tie the earlier one wins. */
  lemma FirstClosestUnique(dist: Distance, lat: real, lon: real, elements: seq<Element>, k: nat, m: nat)
    requires FirstClosest(dist, lat, lon, elements, k) && FirstClosest(dist, lat, lon, elements, m)
    ensures k == m
  {
  }
}
