/**
 * The response-building helpers the controller uses. Each copies the headers
 * it is given (an absent header object gives an empty header set), passes the
 * status through unchanged and attaches the body it is given, if any.
 */
module ControllerUtils {
  import opened Options
  import opened Http
  import opened Collaborators

  /** `toResponseEntity(status, headers, Optional<R>)`. */
  function ToResponseEntity<R>(status: Status, headers: Option<Headers>, resource: Option<R>): (r: Response<R>)
    ensures r.status == status
    ensures headers.None? ==> r.headers == EMPTY
    ensures headers.Some? ==> r.headers == headers.value
    ensures resource.Some? <==> r.body.Some?
    ensures resource.Some? ==> r.body.value == resource.value
  {
    var copied := if headers.Some? then EMPTY + headers.value else EMPTY;
    Response(status, copied, resource)
  }

  /** `toResponseEntity(status, headers, R)`: a present payload always becomes the body. */
  function ToResponseEntityOf<R>(status: Status, headers: Option<Headers>, resource: R): (r: Response<R>)
    requires headers.Some?
    ensures r.status == status
    ensures r.headers == headers.value
    ensures r.body == Some(resource)
  {
    ToResponseEntity(status, headers, Some(resource))
  }

  /** `toEmptyResponse(status)`: no headers and no body. */
  function ToEmptyResponse(status: Status): (r: Response<Body>)
    ensures r.status == status
    ensures r.headers == EMPTY
    ensures r.body == None
  {
    ToEmptyResponseWith(status, Some(EMPTY))
  }

  /** `toEmptyResponse(status, headers)`: the given headers and no body. */
  function ToEmptyResponseWith(status: Status, headers: Option<Headers>): (r: Response<Body>)
    ensures r.status == status
    ensures headers.Some? ==> r.headers == headers.value
    ensures headers.None? ==> r.headers == EMPTY
    ensures r.body == None
  {
    ToResponseEntity(status, headers, None)
  }

  /** An absent header object is treated as an empty one: only the (empty) copy reaches the response. */
  lemma AbsentHeadersAreEmpty<R>(status: Status, resource: Option<R>)
    ensures ToResponseEntity(status, None, resource) == ToResponseEntity(status, Some(EMPTY), resource)
  {
  }

  /** The payload form is the optional form with the payload present. */
  lemma PayloadFormDelegates<R>(status: Status, headers: Headers, resource: R)
    ensures ToResponseEntityOf(status, Some(headers), resource) == ToResponseEntity(status, Some(headers), Some(resource))
  {
  }

  /**
   * The status-only empty response is the empty response with a fresh, empty
   * header object, and so also with no header object at all.
   */
  lemma EmptyResponseDelegates(status: Status)
    ensures ToEmptyResponse(status) == ToEmptyResponseWith(status, Some(EMPTY))
    ensures ToEmptyResponse(status) == ToEmptyResponseWith(status, None)
    ensures ToEmptyResponseWith(status, None) == ToResponseEntity(status, None, None)
  {
  }
}
