/**
 * The location hook (src/hooks/useLocation.ts): a state record that starts
 * as "loading" and is replaced, by the mount effect and then by the
 * geolocation and reverse-geocoding callbacks, with exactly one terminal
 * record. The browser and network calls are not modelled; their outcomes
 * arrive as the arguments of the callback methods below.
 */
module Location {
  import opened Js

  datatype LocationState = LocationState(city: Option<string>, loading: bool, error: Option<string>)

  /** The two fields of the geocoder's JSON answer that the hook reads. */
  datatype GeocodeData = GeocodeData(city: Option<string>, locality: Option<string>)

  /** Device coordinates handed to the success callback of `getCurrentPosition`. */
  datatype Coords = Coords(latitude: real, longitude: real)

  /**
   * Which callback the hook is waiting for. This is not a field of the source;
   * it stands for the callbacks that the browser still holds.
   */
  datatype Phase = Mounted | AwaitingPosition | AwaitingGeocode | Settled

  const NotSupported := "Geolocation not supported"
  const PermissionDenied := "Location permission denied"
  const LookupFailed := "Failed to get city name"

  const Initial := LocationState(None, true, None)

  /** A state the hook can stop in: not loading, and exactly one of city and error present. */
  predicate Terminal(s: LocationState) {
    !s.loading && (s.city.Some? <==> s.error.None?)
  }

  /** `data.city || data.locality || 'Unknown'` */
  function CityFromGeocode(data: GeocodeData): (name: string)
    ensures name != ""
    ensures Truthy(data.city) ==> name == data.city.value
    ensures !Truthy(data.city) && Truthy(data.locality) ==> name == data.locality.value
    ensures !Truthy(data.city) && !Truthy(data.locality) ==> name == "Unknown"
  {
    var either := Or(data.city, data.locality);
    if Truthy(either) then either.value else "Unknown"
  }

  function PhaseRank(p: Phase): nat {
    match p
    case Mounted => 0
    case AwaitingPosition => 1
    case AwaitingGeocode => 2
    case Settled => 3
  }

  class LocationResolver {
    var state: LocationState
    var phase: Phase
    /** The coordinates of every reverse-geocoding request issued, in order. */
    var geocodeRequests: seq<Coords>

    ghost predicate Valid()
      reads this
    {
      && (phase != Settled ==> state == Initial)
      && (phase == Settled ==> Terminal(state))
      && (phase == Mounted || phase == AwaitingPosition ==> geocodeRequests == [])
      && (phase == AwaitingGeocode ==> |geocodeRequests| == 1)
      && |geocodeRequests| <= 1
    }

    /** `useState({ city: null, loading: true, error: null })` on mount. */
    constructor ()
      ensures Valid()
      ensures state == Initial && phase == Mounted && geocodeRequests == []
    {
      state := Initial;
      phase := Mounted;
      geocodeRequests := [];
    }

    /**
     * The effect body, run once after mount (its dependency list is empty):
     * without a geolocation capability the hook fails at once, otherwise it
     * asks for the position and waits.
     */
    method RunEffect(hasGeolocation: bool)
      requires Valid() && phase == Mounted
      modifies this
      ensures Valid()
      ensures PhaseRank(phase) > PhaseRank(old(phase))
      ensures geocodeRequests == old(geocodeRequests)
      ensures !hasGeolocation ==> phase == Settled && state == LocationState(None, false, Some(NotSupported))
      ensures hasGeolocation ==> phase == AwaitingPosition && state == old(state)
    {
      if hasGeolocation {
        phase := AwaitingPosition;
      } else {
        state := state.(loading := false, error := Some(NotSupported));
        phase := Settled;
      }
    }

    /** The error callback of `getCurrentPosition`. */
    method OnPositionError()
      requires Valid() && phase == AwaitingPosition
      modifies this
      ensures Valid()
      ensures PhaseRank(phase) > PhaseRank(old(phase))
      ensures phase == Settled && geocodeRequests == old(geocodeRequests)
      ensures state == LocationState(None, false, Some(PermissionDenied))
    {
      state := state.(loading := false, error := Some(PermissionDenied));
      phase := Settled;
    }

    /** The success callback of `getCurrentPosition`: issues the one reverse-geocoding request. */
    method OnPosition(position: Coords)
      requires Valid() && phase == AwaitingPosition
      modifies this
      ensures Valid()
      ensures PhaseRank(phase) > PhaseRank(old(phase))
      ensures phase == AwaitingGeocode && state == old(state)
      ensures geocodeRequests == old(geocodeRequests) + [position]
    {
      geocodeRequests := geocodeRequests + [position];
      phase := AwaitingGeocode;
    }

    /** The geocoder answered and its body parsed. */
    method OnGeocodeData(data: GeocodeData)
      requires Valid() && phase == AwaitingGeocode
      modifies this
      ensures Valid()
      ensures PhaseRank(phase) > PhaseRank(old(phase))
      ensures phase == Settled && geocodeRequests == old(geocodeRequests)
      ensures state == LocationState(Some(CityFromGeocode(data)), false, None)
    {
      state := LocationState(Some(CityFromGeocode(data)), false, None);
      phase := Settled;
    }

    /** The fetch or the JSON parse threw: the city stays as it was, which is null. */
    method OnGeocodeFailure()
      requires Valid() && phase == AwaitingGeocode
      modifies this
      ensures Valid()
      ensures PhaseRank(phase) > PhaseRank(old(phase))
      ensures phase == Settled && geocodeRequests == old(geocodeRequests)
      ensures state == LocationState(None, false, Some(LookupFailed))
    {
      state := state.(loading := false, error := Some(LookupFailed));
      phase := Settled;
    }
  }

  /** What the browser reports to the success-or-error callbacks of `getCurrentPosition`. */
  datatype PositionOutcome = PositionRefused | PositionAt(coords: Coords)

  /** What the reverse-geocoding `fetch` and its `response.json()` produce. */
  datatype GeocodeOutcome = Answered(data: GeocodeData) | Threw

  /** The record a hook settles in, given how each collaborator responds. */
  function Outcome(hasGeolocation: bool, position: PositionOutcome, geocode: GeocodeOutcome): (s: LocationState)
    ensures Terminal(s)
    ensures s.error == Some(NotSupported) <==> !hasGeolocation
    ensures s.error == Some(PermissionDenied) <==> hasGeolocation && position.PositionRefused?
    ensures s.error == Some(LookupFailed) <==> hasGeolocation && position.PositionAt? && geocode.Threw?
    ensures s.city.Some? ==> s.city.value != ""
  {
    if !hasGeolocation then LocationState(None, false, Some(NotSupported))
    else match position
      case PositionRefused => LocationState(None, false, Some(PermissionDenied))
      case PositionAt(_) =>
        match geocode
        case Answered(data) => LocationState(Some(CityFromGeocode(data)), false, None)
        case Threw => LocationState(None, false, Some(LookupFailed))
  }

  /**
   * One mount of the hook driven to the end: the effect, then whichever
   * callbacks the collaborators trigger. Returns the settled record and the
   * number of geocoding requests made.
   */
  method Resolve(hasGeolocation: bool, position: PositionOutcome, geocode: GeocodeOutcome)
    returns (s: LocationState, requests: nat)
    ensures s == Outcome(hasGeolocation, position, geocode)
    ensures requests == if hasGeolocation && position.PositionAt? then 1 else 0
  {
    var hook := new LocationResolver();
    hook.RunEffect(hasGeolocation);
    if hasGeolocation {
      match position {
        case PositionRefused =>
          hook.OnPositionError();
        case PositionAt(coords) =>
          hook.OnPosition(coords);
          match geocode {
            case Answered(data) => hook.OnGeocodeData(data);
            case Threw => hook.OnGeocodeFailure();
          }
      }
    }
    s, requests := hook.state, |hook.geocodeRequests|;
  }
}
