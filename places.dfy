/**
 * The validation part of `lbgt_fetch_place_details`. The HTTP request and
 * `json_decode` are abstracted: the Places "details" service is an oracle
 * from (place id, API key) to the decoded response it would give, and the
 * function below is the strict success/failure gate the plugin puts on it.
 */
module PlacesApi {
  import opened Wrappers
  import opened Php

  /** What the plugin keeps of a place: the formatted address and its coordinates (copied verbatim). */
  datatype PlaceDetail = PlaceDetail(formattedAddress: string, lat: real, lng: real)

  /** `result.geometry.location` of a details response. */
  datatype LatLng = LatLng(lat: real, lng: real)
  datatype Geometry = Geometry(location: LatLng)
  /** `result` of a details response, with the fields the plugin reads. */
  datatype PlaceResult = PlaceResult(formattedAddress: string, geometry: Geometry)

  /**
   * The decoded JSON object: `status` is None when the key is missing, and
   * `result` is None when it is missing or PHP-empty.
   */
  datatype Envelope = Envelope(status: Option<string>, result: Option<PlaceResult>)

  /**
   * What `wp_remote_get` yields: a transport error, or a body whose
   * `json_decode` is an object (Some) or not (None: malformed JSON or a
   * non-object, where `$data['status']` reads as null).
   */
  datatype Response = TransportError(message: string) | Body(json: Option<Envelope>)

  /** The literal success marker of the service's `status` field. */
  const StatusOk := "OK"

  /** The one response shape the gate accepts for `d`: status "OK" and a result whose fields are `d`'s. */
  function OkResponse(d: PlaceDetail): Response {
    Body(Some(Envelope(Some(StatusOk), Some(PlaceResult(d.formattedAddress, Geometry(LatLng(d.lat, d.lng)))))))
  }

  /**
   * The gate: a transport error fails, a status other than "OK" (or none)
   * fails, an empty result fails; otherwise the formatted address and
   * `geometry.location.lat`/`lng` are projected out. It accepts exactly the
   * responses built by `OkResponse`, and returns the detail they carry.
   */
  function ValidateResponse(resp: Response): (r: Option<PlaceDetail>)
    ensures resp.TransportError? ==> r == None
    ensures resp.Body? && resp.json.None? ==> r == None
    ensures resp.Body? && resp.json.Some? && resp.json.value.status != Some(StatusOk) ==> r == None
    ensures resp.Body? && resp.json.Some? && resp.json.value.result.None? ==> r == None
    ensures forall d {:trigger OkResponse(d)} :: r == Some(d) <==> resp == OkResponse(d)
  {
    match resp
    case TransportError(_) => None
    case Body(None) => None
    case Body(Some(env)) =>
      if env.status != Some(StatusOk) || env.result.None? then None
      else
        var place := env.result.value;
        Some(PlaceDetail(place.formattedAddress, place.geometry.location.lat, place.geometry.location.lng))
  }

  /** Whether `lbgt_fetch_place_details` sends a request at all: only with a non-empty API key. */
  predicate SendsRequest(apiKey: string) {
    !IsEmpty(apiKey)
  }

  /**
   * `lbgt_fetch_place_details`: an empty API key (PHP-empty, so "0" too)
   * fails before any request; otherwise the service's answer for this place
   * id and key goes through the gate.
   */
  function FetchPlaceDetails(apiKey: string, placeId: string, api: (string, string) -> Response): (r: Option<PlaceDetail>)
    ensures !SendsRequest(apiKey) ==> r == None
    ensures SendsRequest(apiKey) ==> r == ValidateResponse(api(placeId, apiKey))
  {
    if IsEmpty(apiKey) then None else ValidateResponse(api(placeId, apiKey))
  }

  /** The fetch succeeds exactly when a key is set and the service answers with an OK response; it then returns what that response carries. */
  lemma FetchSucceedsExactly(apiKey: string, placeId: string, api: (string, string) -> Response, d: PlaceDetail)
    ensures FetchPlaceDetails(apiKey, placeId, api) == Some(d) <==> SendsRequest(apiKey) && api(placeId, apiKey) == OkResponse(d)
  {
  }
}
