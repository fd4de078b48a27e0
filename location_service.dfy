/**
 * The city lookup: callers of `getCurrentCity` wait in a list until one reverse
 * geocode (or a location failure) answers all of them at once. Callbacks of the
 * location manager and of the geocoder are explicit event methods here.
 */
module LocationService {
  import opened Wrappers
  import UserProfileService

  datatype AuthorizationStatus = NotDetermined | Restricted | Denied | AuthorizedAlways | AuthorizedWhenInUse

  predicate IsAuthorized(s: AuthorizationStatus) {
    s == AuthorizedWhenInUse || s == AuthorizedAlways
  }

  /** A fix from the location manager; its coordinates do not matter here. */
  datatype Location = Location(latitude: int, longitude: int)

  datatype Placemark = Placemark(locality: Option<string>, administrativeArea: Option<string>, name: Option<string>)

  /** What a waiting caller is resumed with: a city (possibly nil), or the error thrown. */
  datatype CityResult = Found(city: Option<string>) | Failed(message: string)

  /** How a `getCurrentCity` call ends: it throws `notAuthorized`, returns, or waits as the given waiter. */
  datatype CityCall = NotAuthorized | Returned(city: Option<string>) | Waiting(waiter: nat)

  /** `locality ?? administrativeArea ?? name ?? "Unknown"`. */
  function CityName(p: Placemark): (city: string)
    ensures p.locality.Some? ==> city == p.locality.value
    ensures p.locality.None? && p.administrativeArea.Some? ==> city == p.administrativeArea.value
    ensures p.locality.None? && p.administrativeArea.None? && p.name.Some? ==> city == p.name.value
    ensures p.locality.None? && p.administrativeArea.None? && p.name.None? ==> city == "Unknown"
  {
    p.locality.GetOr(p.administrativeArea.GetOr(p.name.GetOr("Unknown")))
  }

  /** The result a geocode completion hands to every waiter. */
  function GeocodeResult(error: Option<string>, placemarks: seq<Placemark>): (r: CityResult)
    ensures error.Some? ==> r == Failed(error.value)
    ensures error.None? && placemarks == [] ==> r == Found(None)
    ensures error.None? && placemarks != [] ==> r == Found(Some(CityName(placemarks[0])))
  {
    if error.Some? then Failed(error.value)
    else if placemarks == [] then Found(None)
    else Found(Some(CityName(placemarks[0])))
  }

  /** The answers after `resolveContinuations`: every waiter in `pending` gets `result`; earlier answers stay. */
  function ResolveAll(answers: map<nat, CityResult>, pending: seq<nat>, result: CityResult): (r: map<nat, CityResult>)
    ensures r.Keys == answers.Keys + (set w | w in pending)
    ensures forall w :: w in pending ==> r[w] == result
    ensures forall w :: w in answers && w !in pending ==> r[w] == answers[w]
  {
    answers + map w | w in pending :: result
  }

  /**
   * `updateAndSaveLocation`: the profile update it makes, if any. `city` is how its
   * own `getCurrentCity` call ended (`None` for a throw). It writes only when the
   * app is authorized, a user is signed in and the city is a non-empty string.
   */
  function SaveLocationUpdate(status: AuthorizationStatus, uid: Option<string>, city: Option<Option<string>>)
    : (r: Option<(string, UserProfileService.Document)>)
    ensures r.Some? <==> IsAuthorized(status) && uid.Some? && city.Some? && city.value.Some? && city.value.value != ""
    ensures r.Some? ==> r.value.0 == uid.value &&
                        r.value.1 == map[UserProfileService.Location := UserProfileService.Str(city.value.value)]
  {
    if !IsAuthorized(status) || uid.None? then None
    else if city.Some? && city.value.Some? && city.value.value != "" then
      Some((uid.value, map[UserProfileService.Location := UserProfileService.Str(city.value.value)]))
    else None
  }

  class LocationService {
    var authorizationStatus: AuthorizationStatus
    var currentLocation: Option<Location>
    var currentCity: Option<string>
    var isLoading: bool
    var errorMessage: Option<string>
    /** The suspended callers, by waiter number, oldest first. */
    var pending: seq<nat>
    var isGeocoding: bool
    /** The number the next suspended caller gets. */
    var nextWaiter: nat
    /** What each resumed caller was resumed with. */
    var answers: map<nat, CityResult>
    /** Reverse geocodes started and not yet completed. */
    var geocodesInFlight: nat
    /** How many times a one-shot location fix was requested. */
    var locationRequests: nat

    /** Every caller that ever waited is either still waiting or answered, never both, and waits once. */
    ghost predicate Valid()
      reads this
    {
      (forall i, j :: 0 <= i < j < |pending| ==> pending[i] != pending[j]) &&
      (forall i :: 0 <= i < |pending| ==> pending[i] < nextWaiter && pending[i] !in answers) &&
      (forall w :: w in answers ==> w < nextWaiter) &&
      (forall w: nat :: w < nextWaiter ==> w in answers || w in pending)
    }

    /** At most one reverse geocode runs, and `isGeocoding` says whether one does. */
    ghost predicate SingleGeocode()
      reads this
    {
      geocodesInFlight <= 1 && (isGeocoding <==> geocodesInFlight == 1)
    }

    constructor(status: AuthorizationStatus)
      ensures Valid() && SingleGeocode()
      ensures authorizationStatus == status && currentLocation == None && currentCity == None
      ensures !isLoading && errorMessage == None && pending == [] && !isGeocoding
      ensures nextWaiter == 0 && answers == map[] && geocodesInFlight == 0 && locationRequests == 0
    {
      authorizationStatus := status;
      currentLocation := None;
      currentCity := None;
      isLoading := false;
      errorMessage := None;
      pending := [];
      isGeocoding := false;
      nextWaiter := 0;
      answers := map[];
      geocodesInFlight := 0;
      locationRequests := 0;
    }

    /** `triggerReverseGeocode`: starts a geocode only when someone waits and none is running. */
    method TriggerReverseGeocode()
      modifies this
      requires Valid()
      ensures Valid()
      ensures old(pending) == [] || old(isGeocoding) ==>
                isGeocoding == old(isGeocoding) && geocodesInFlight == old(geocodesInFlight)
      ensures old(pending) != [] && !old(isGeocoding) ==> isGeocoding && geocodesInFlight == old(geocodesInFlight) + 1
      ensures old(SingleGeocode()) ==> SingleGeocode()
      ensures pending == old(pending) && answers == old(answers) && nextWaiter == old(nextWaiter)
      ensures authorizationStatus == old(authorizationStatus) && currentLocation == old(currentLocation)
      ensures currentCity == old(currentCity) && isLoading == old(isLoading) && errorMessage == old(errorMessage)
      ensures locationRequests == old(locationRequests)
    {
      if pending == [] {
        return;
      }
      if isGeocoding {
        return;
      }
      isGeocoding := true;
      geocodesInFlight := geocodesInFlight + 1;
    }

    /** `resolveContinuations`: answers every waiting caller with the one result and empties the list. */
    method ResolveContinuations(result: CityResult)
      modifies this
      requires Valid()
      ensures Valid()
      ensures pending == [] && answers == ResolveAll(old(answers), old(pending), result)
      ensures nextWaiter == old(nextWaiter) && isGeocoding == old(isGeocoding) && geocodesInFlight == old(geocodesInFlight)
      ensures authorizationStatus == old(authorizationStatus) && currentLocation == old(currentLocation)
      ensures currentCity == old(currentCity) && isLoading == old(isLoading) && errorMessage == old(errorMessage)
      ensures locationRequests == old(locationRequests)
    {
      answers := ResolveAll(answers, pending, result);
      pending := [];
    }

    /**
     * `getCurrentCity`: throws unless authorized; returns a cached city at once;
     * otherwise waits, starting a geocode when a location is known and asking
     * for a location fix when none is.
     */
    method GetCurrentCity() returns (call: CityCall)
      modifies this
      requires Valid()
      ensures Valid()
      ensures old(SingleGeocode()) ==> SingleGeocode()
      ensures !IsAuthorized(old(authorizationStatus)) ==>
                (call == NotAuthorized && pending == old(pending) && isLoading == old(isLoading) &&
                 errorMessage == old(errorMessage) && isGeocoding == old(isGeocoding) && nextWaiter == old(nextWaiter) &&
                 geocodesInFlight == old(geocodesInFlight) && locationRequests == old(locationRequests))
      ensures IsAuthorized(old(authorizationStatus)) && old(currentCity).Some? ==>
                call == Returned(old(currentCity)) && !isLoading && errorMessage == None &&
                isGeocoding == old(isGeocoding) && nextWaiter == old(nextWaiter) &&
                pending == old(pending) && geocodesInFlight == old(geocodesInFlight) && locationRequests == old(locationRequests)
      ensures IsAuthorized(old(authorizationStatus)) && old(currentCity).None? ==>
                call == Waiting(old(nextWaiter)) && pending == old(pending) + [old(nextWaiter)] &&
                nextWaiter == old(nextWaiter) + 1 && isLoading && errorMessage == None &&
                (old(currentLocation).Some? ==>
                   (locationRequests == old(locationRequests) && isGeocoding &&
                    geocodesInFlight == old(geocodesInFlight) + (if old(isGeocoding) then 0 else 1))) &&
                (old(currentLocation).None? ==>
                   (locationRequests == old(locationRequests) + 1 &&
                    geocodesInFlight == old(geocodesInFlight) && isGeocoding == old(isGeocoding)))
      ensures answers == old(answers) && currentCity == old(currentCity) && currentLocation == old(currentLocation)
      ensures authorizationStatus == old(authorizationStatus)
    {
      if !IsAuthorized(authorizationStatus) {
        return NotAuthorized;
      }
      isLoading := true;
      errorMessage := None;
      if currentCity.Some? {
        isLoading := false;
        return Returned(currentCity);
      }
      var w := SuspendCaller();
      call := Waiting(w);
    }

    /**
     * The body of `getCurrentCity`'s continuation: the caller joins the waiting
     * list, and a geocode starts when a location is known, else a fix is requested.
     */
    method SuspendCaller() returns (w: nat)
      modifies this
      requires Valid()
      ensures Valid()
      ensures old(SingleGeocode()) ==> SingleGeocode()
      ensures w == old(nextWaiter) && pending == old(pending) + [w] && nextWaiter == w + 1
      ensures old(currentLocation).Some? ==>
                (locationRequests == old(locationRequests) && isGeocoding &&
                 geocodesInFlight == old(geocodesInFlight) + (if old(isGeocoding) then 0 else 1))
      ensures old(currentLocation).None? ==>
                (locationRequests == old(locationRequests) + 1 &&
                 geocodesInFlight == old(geocodesInFlight) && isGeocoding == old(isGeocoding))
      ensures answers == old(answers) && currentCity == old(currentCity) && currentLocation == old(currentLocation)
      ensures authorizationStatus == old(authorizationStatus) && isLoading == old(isLoading)
      ensures errorMessage == old(errorMessage)
    {
      w := nextWaiter;
      pending := pending + [w];
      nextWaiter := nextWaiter + 1;
      assert pending[|pending| - 1] == w;
      if currentLocation.Some? {
        TriggerReverseGeocode();
      } else {
        locationRequests := locationRequests + 1;
      }
    }

    /** The geocoder's completion handler for the geocode in flight. */
    method GeocodeCompleted(error: Option<string>, placemarks: seq<Placemark>)
      modifies this
      requires Valid() && geocodesInFlight > 0
      ensures Valid()
      ensures old(SingleGeocode()) ==> SingleGeocode()
      ensures !isLoading && !isGeocoding && geocodesInFlight == old(geocodesInFlight) - 1
      ensures pending == [] && answers == ResolveAll(old(answers), old(pending), GeocodeResult(error, placemarks))
      ensures error.None? && placemarks != [] ==> currentCity == Some(CityName(placemarks[0]))
      ensures error.Some? || placemarks == [] ==> currentCity == old(currentCity)
      ensures nextWaiter == old(nextWaiter) && locationRequests == old(locationRequests)
      ensures authorizationStatus == old(authorizationStatus) && currentLocation == old(currentLocation)
      ensures errorMessage == old(errorMessage)
    {
      isLoading := false;
      isGeocoding := false;
      geocodesInFlight := geocodesInFlight - 1;
      if error.None? && placemarks != [] {
        currentCity := Some(CityName(placemarks[0]));
      }
      ResolveContinuations(GeocodeResult(error, placemarks));
    }

    /** `didUpdateLocations`: keeps the first fix and tries to geocode it. */
    method LocationsUpdated(locations: seq<Location>)
      modifies this
      requires Valid()
      ensures Valid()
      ensures old(SingleGeocode()) ==> SingleGeocode()
      ensures locations == [] ==> currentLocation == old(currentLocation) && geocodesInFlight == old(geocodesInFlight)
      ensures locations == [] ==> isGeocoding == old(isGeocoding)
      ensures locations != [] ==>
                (currentLocation == Some(locations[0]) &&
                 geocodesInFlight == old(geocodesInFlight) + (if old(pending) != [] && !old(isGeocoding) then 1 else 0) &&
                 isGeocoding == (old(isGeocoding) || old(pending) != []))
      ensures pending == old(pending) && answers == old(answers) && currentCity == old(currentCity)
      ensures nextWaiter == old(nextWaiter) && locationRequests == old(locationRequests)
      ensures authorizationStatus == old(authorizationStatus) && isLoading == old(isLoading) && errorMessage == old(errorMessage)
    {
      if locations == [] {
        return;
      }
      currentLocation := Some(locations[0]);
      TriggerReverseGeocode();
    }

    /**
     * `didFailWithError`, as written: answers every waiter with the error and
     * clears `isGeocoding`, even while a geocode it did not start is still running.
     */
    method LocationFailed(message: string)
      modifies this
      requires Valid()
      ensures Valid()
      ensures !isLoading && errorMessage == Some(message) && !isGeocoding
      ensures pending == [] && answers == ResolveAll(old(answers), old(pending), Failed(message))
      ensures geocodesInFlight == old(geocodesInFlight) && currentCity == old(currentCity)
      ensures currentLocation == old(currentLocation) && nextWaiter == old(nextWaiter)
      ensures locationRequests == old(locationRequests) && authorizationStatus == old(authorizationStatus)
    {
      isLoading := false;
      errorMessage := Some(message);
      ResolveContinuations(Failed(message));
      isGeocoding := false;
    }

    /** `didFailWithError`, corrected: the geocode in flight keeps `isGeocoding` until it completes. */
    method LocationFailedKeepingGeocode(message: string)
      modifies this
      requires Valid()
      ensures Valid()
      ensures old(SingleGeocode()) ==> SingleGeocode()
      ensures !isLoading && errorMessage == Some(message) && isGeocoding == old(isGeocoding)
      ensures pending == [] && answers == ResolveAll(old(answers), old(pending), Failed(message))
      ensures geocodesInFlight == old(geocodesInFlight) && currentCity == old(currentCity)
      ensures currentLocation == old(currentLocation) && nextWaiter == old(nextWaiter)
      ensures locationRequests == old(locationRequests) && authorizationStatus == old(authorizationStatus)
    {
      isLoading := false;
      errorMessage := Some(message);
      ResolveContinuations(Failed(message));
    }

    /**
     * `locationManagerDidChangeAuthorization`: records the status; the result says
     * whether `updateAndSaveLocation` is launched (authorized and signed in).
     */
    method AuthorizationChanged(status: AuthorizationStatus, signedIn: bool) returns (saves: bool)
      modifies this
      requires Valid()
      ensures Valid()
      ensures old(SingleGeocode()) ==> SingleGeocode()
      ensures authorizationStatus == status && (saves <==> IsAuthorized(status) && signedIn)
      ensures pending == old(pending) && answers == old(answers) && geocodesInFlight == old(geocodesInFlight)
      ensures isGeocoding == old(isGeocoding) && currentCity == old(currentCity) && locationRequests == old(locationRequests)
      ensures currentLocation == old(currentLocation) && isLoading == old(isLoading) && errorMessage == old(errorMessage)
      ensures nextWaiter == old(nextWaiter)
    {
      authorizationStatus := status;
      saves := IsAuthorized(status) && signedIn;
    }

    /** `requestLocationUpdate`: asks for a fix only when authorized. */
    method RequestLocationUpdate()
      modifies this
      requires Valid()
      ensures Valid()
      ensures locationRequests == old(locationRequests) + (if IsAuthorized(authorizationStatus) then 1 else 0)
      ensures authorizationStatus == old(authorizationStatus) && pending == old(pending) && answers == old(answers)
      ensures geocodesInFlight == old(geocodesInFlight) && isGeocoding == old(isGeocoding) && nextWaiter == old(nextWaiter)
      ensures currentLocation == old(currentLocation) && currentCity == old(currentCity)
      ensures isLoading == old(isLoading) && errorMessage == old(errorMessage)
    {
      if IsAuthorized(authorizationStatus) {
        locationRequests := locationRequests + 1;
      }
    }
  }

  /**
   * Two callers waiting across one geocode: both are answered with the same city,
   * and the second call after it returns the cached city without waiting.
   */
  method SharedAnswerScenario(loc: Location, p: Placemark) returns (first: CityCall, second: CityCall,
                                                                   third: CityCall, a0: CityResult, a1: CityResult)
    ensures first == Waiting(0) && second == Waiting(1)
    ensures a0 == a1 == Found(Some(CityName(p)))
    ensures third == Returned(Some(CityName(p)))
  {
    var s := new LocationService(AuthorizedWhenInUse);
    s.LocationsUpdated([loc]);
    first := s.GetCurrentCity();
    second := s.GetCurrentCity();
    s.GeocodeCompleted(None, [p]);
    a0, a1 := s.answers[0], s.answers[1];
    third := s.GetCurrentCity();
  }

  /**
   * As written, a location failure during a geocode lets a second geocode start:
   * authorized with a known location, a caller waits (geocode 1 starts), the
   * location manager fails, another caller waits, and geocode 2 starts while
   * geocode 1 is still running.
   */
  method FailureAllowsSecondGeocode(loc: Location) returns (inFlight: nat)
    ensures inFlight == 2
  {
    var s := new LocationService(AuthorizedWhenInUse);
    s.LocationsUpdated([loc]);
    var c1 := s.GetCurrentCity();
    s.LocationFailed("failed");
    var c2 := s.GetCurrentCity();
    inFlight := s.geocodesInFlight;
  }

  /** With the corrected failure handler the same sequence keeps a single geocode in flight. */
  method CorrectedFailureKeepsOneGeocode(loc: Location) returns (inFlight: nat, stillGeocoding: bool)
    ensures inFlight == 1 && stillGeocoding
  {
    var s := new LocationService(AuthorizedWhenInUse);
    s.LocationsUpdated([loc]);
    var c1 := s.GetCurrentCity();
    s.LocationFailedKeepingGeocode("failed");
    var c2 := s.GetCurrentCity();
    inFlight, stillGeocoding := s.geocodesInFlight, s.isGeocoding;
  }
}
