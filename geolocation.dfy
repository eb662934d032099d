/**
 * The state machine of the geolocation hook. The hook starts at a fallback
 * location and replaces its state one transition at a time; each
 * transition writes a coordinate pair or keeps the previous one, and none
 * has an effect once the component has unmounted.
 */
module Geolocation {
  import opened Wrappers

  datatype GeoCoordinates = GeoCoordinates(latitude: real, longitude: real)

  const UnsupportedMessage := "Geolocation is not supported by this browser"
  const ThrewMessage := "Failed to request location"
  const TimedOutMessage := "Location request timed out. Using default location."
  const DeniedMessage := "Location permission denied. Please enable location access in your browser settings."
  const UnavailableMessage := "Unable to determine your location. Using default location."
  const UnknownMessage := "An unknown error occurred while fetching location."

  /** `getGeolocationErrorMessage`: the message for a `GeolocationPositionError` code. */
  function ErrorMessage(code: int): (r: string)
    ensures code == 1 ==> r == DeniedMessage
    ensures code == 2 ==> r == UnavailableMessage
    ensures code == 3 ==> r == TimedOutMessage
    ensures r == UnknownMessage <==> code != 1 && code != 2 && code != 3
  {
    if code == 1 then DeniedMessage
    else if code == 2 then UnavailableMessage
    else if code == 3 then TimedOutMessage
    else UnknownMessage
  }

  /** A GPS timeout reported by the browser reads the same as the forced fallback after the hook's own timer. */
  lemma TimeoutsReadTheSame()
    ensures ErrorMessage(3) == TimedOutMessage
    ensures forall c :: c != 3 ==> ErrorMessage(c) != TimedOutMessage
  {
  }

  /** What the optional `onSuccess` / `onError` callbacks are handed. */
  datatype Notice = Located(coords: GeoCoordinates) | Failed(message: string)

  /** The error a fetch reports: the browser's code, or one of the hook's own messages. */
  datatype FetchError = Code(code: int) | Message(text: string)

  class Hook {
    const fallback: GeoCoordinates
    const autoFetch: bool
    const isSupported: bool

    var coordinates: GeoCoordinates
    var isLoading: bool
    var error: Option<string>
    var isDefault: bool
    var lastUpdated: Option<int>
    /** `isMountedRef.current`. */
    var mounted: bool
    /** The calls made to the callbacks, oldest first. */
    var notices: seq<Notice>

    /**
     * The state keeps these facts whatever the order of transitions: an
     * error means the fallback is in use, loading happens only where
     * geolocation exists, and where it exists the default flag means the
     * fallback coordinates.
     */
    predicate Valid()
      reads this
    {
      && (error.Some? ==> isDefault)
      && (isLoading ==> isSupported)
      && (isSupported && isDefault ==> coordinates == fallback)
    }

    /** The initial state: the fallback, loading only when a fetch is about to start. */
    constructor (fallback: GeoCoordinates, autoFetch: bool, isSupported: bool)
      ensures this.fallback == fallback && this.autoFetch == autoFetch && this.isSupported == isSupported
      ensures coordinates == fallback && isDefault && error.None? && lastUpdated.None?
      ensures isLoading == (autoFetch && isSupported)
      ensures mounted && notices == []
      ensures Valid()
    {
      this.fallback := fallback;
      this.autoFetch := autoFetch;
      this.isSupported := isSupported;
      coordinates := fallback;
      isLoading := autoFetch && isSupported;
      error := None;
      isDefault := true;
      lastUpdated := None;
      mounted := true;
      notices := [];
    }

    /** `handleSuccess`: the reported position replaces the coordinates. */
    method HandleSuccess(position: GeoCoordinates, now: int)
      requires Valid()
      modifies this
      ensures Valid()
      ensures !old(mounted) ==> unchanged(this)
      ensures old(mounted) ==>
        && coordinates == position && !isLoading && error.None? && !isDefault
        && lastUpdated == Some(now) && mounted
        && notices == old(notices) + [Located(position)]
    {
      if !mounted {
        return;
      }
      coordinates := position;
      isLoading := false;
      error := None;
      isDefault := false;
      lastUpdated := Some(now);
      notices := notices + [Located(position)];
    }

    /** `handleError`: back to the fallback, with the error's message. */
    method HandleError(e: FetchError, now: int)
      requires Valid()
      modifies this
      ensures Valid()
      ensures !old(mounted) ==> unchanged(this)
      ensures old(mounted) ==>
        var message := match e case Code(c) => ErrorMessage(c) case Message(t) => t;
        && coordinates == fallback && !isLoading && error == Some(message) && isDefault
        && lastUpdated == Some(now) && mounted
        && notices == old(notices) + [Failed(message)]
    {
      if !mounted {
        return;
      }
      var message := match e case Code(c) => ErrorMessage(c) case Message(t) => t;
      coordinates := fallback;
      isLoading := false;
      error := Some(message);
      isDefault := true;
      lastUpdated := Some(now);
      notices := notices + [Failed(message)];
    }

    /** `forceTimeoutFallback`: the hook's own timer gave up on the GPS. */
    method ForceTimeoutFallback(now: int)
      requires Valid()
      modifies this
      ensures Valid()
      ensures !old(mounted) ==> unchanged(this)
      ensures old(mounted) ==>
        && coordinates == fallback && !isLoading && error == Some(TimedOutMessage) && isDefault
        && lastUpdated == Some(now) && mounted
        && notices == old(notices) + [Failed("Location request timed out")]
    {
      if !mounted {
        return;
      }
      coordinates := fallback;
      isLoading := false;
      error := Some(TimedOutMessage);
      isDefault := true;
      lastUpdated := Some(now);
      notices := notices + [Failed("Location request timed out")];
    }

    /**
     * `fetchPosition` up to the request to the browser: without geolocation
     * it fails at once; otherwise loading starts, keeping the coordinates,
     * and a request that throws fails at once as well. The answer to a
     * request that does not throw arrives later, as `HandleSuccess`,
     * `HandleError` or `ForceTimeoutFallback`.
     */
    method FetchPosition(requestThrows: bool, now: int)
      requires Valid()
      modifies this
      ensures Valid()
      ensures !old(mounted) ==> unchanged(this)
      ensures old(mounted) && !isSupported ==>
        && coordinates == fallback && !isLoading && error == Some(UnsupportedMessage) && isDefault
        && lastUpdated == Some(now) && notices == old(notices) + [Failed(UnsupportedMessage)]
      ensures old(mounted) && isSupported && !requestThrows ==>
        && coordinates == old(coordinates) && isLoading && error.None? && isDefault == old(isDefault)
        && lastUpdated == old(lastUpdated) && notices == old(notices)
      ensures old(mounted) && isSupported && requestThrows ==>
        && coordinates == fallback && !isLoading && error == Some(ThrewMessage) && isDefault
        && lastUpdated == Some(now) && notices == old(notices) + [Failed(ThrewMessage)]
      ensures mounted == old(mounted)
    {
      if !isSupported {
        HandleError(Message(UnsupportedMessage), now);
        return;
      }
      if mounted {
        isLoading := true;
        error := None;
      }
      if requestThrows {
        HandleError(Message(ThrewMessage), now);
      }
    }

    /** `setCoordinates`: a position picked by hand; loading is left as it was. */
    method SetCoordinates(coords: GeoCoordinates, now: int)
      requires Valid()
      modifies this
      ensures Valid()
      ensures !old(mounted) ==> unchanged(this)
      ensures old(mounted) ==>
        && coordinates == coords && !isDefault && error.None? && isLoading == old(isLoading)
        && lastUpdated == Some(now) && mounted && notices == old(notices)
    {
      if !mounted {
        return;
      }
      coordinates := coords;
      isDefault := false;
      error := None;
      lastUpdated := Some(now);
    }

    /** `resetToDefault`: back to the fallback without an error. */
    method ResetToDefault(now: int)
      requires Valid()
      modifies this
      ensures Valid()
      ensures !old(mounted) ==> unchanged(this)
      ensures old(mounted) ==>
        && coordinates == fallback && isDefault && error.None? && isLoading == old(isLoading)
        && lastUpdated == Some(now) && mounted && notices == old(notices)
    {
      if !mounted {
        return;
      }
      coordinates := fallback;
      isDefault := true;
      error := None;
      lastUpdated := Some(now);
    }

    /** The mount effect sets the mounted flag; its cleanup clears it. */
    method Mount()
      requires Valid()
      modifies this
      ensures Valid()
      ensures mounted
      ensures coordinates == old(coordinates) && isLoading == old(isLoading) && error == old(error)
      ensures isDefault == old(isDefault) && lastUpdated == old(lastUpdated) && notices == old(notices)
    {
      mounted := true;
    }

    method Unmount()
      requires Valid()
      modifies this
      ensures Valid()
      ensures !mounted
      ensures coordinates == old(coordinates) && isLoading == old(isLoading) && error == old(error)
      ensures isDefault == old(isDefault) && lastUpdated == old(lastUpdated) && notices == old(notices)
    {
      mounted := false;
    }

    /**
     * The animation frame the mount effect schedules: a fetch when asked
     * for and possible, the unsupported state when geolocation is missing,
     * and nothing otherwise. The unsupported state keeps the coordinates.
     */
    method AfterMountFrame(requestThrows: bool, now: int)
      requires Valid()
      modifies this
      ensures Valid()
      ensures !old(mounted) ==> unchanged(this)
      ensures old(mounted) && !isSupported ==>
        && coordinates == old(coordinates) && !isLoading && error == Some(UnsupportedMessage) && isDefault
        && lastUpdated == old(lastUpdated) && notices == old(notices)
      ensures old(mounted) && isSupported && !autoFetch ==> unchanged(this)
      ensures old(mounted) && isSupported && autoFetch && !requestThrows ==>
        && coordinates == old(coordinates) && isLoading && error.None? && isDefault == old(isDefault)
        && lastUpdated == old(lastUpdated) && notices == old(notices)
      ensures old(mounted) && isSupported && autoFetch && requestThrows ==>
        && coordinates == fallback && !isLoading && error == Some(ThrewMessage) && isDefault
        && lastUpdated == Some(now) && notices == old(notices) + [Failed(ThrewMessage)]
      ensures mounted == old(mounted)
    {
      if !mounted {
        return;
      }
      if autoFetch && isSupported {
        FetchPosition(requestThrows, now);
      } else if !isSupported {
        isLoading := false;
        error := Some(UnsupportedMessage);
        isDefault := true;
      }
    }
  }
}
