/**
 * The conditional-GET decision for a single item: whether the client's copy
 * is still current (304) or the object has to be rendered (200). Response
 * headers are prepared the same way in both cases.
 */
module ResourceStatus {
  import opened Options
  import opened Http
  import opened Collaborators

  /** `getIfNoneMatch()` read into an `ETag`: only the first listed value counts; none gives the sentinel. */
  function IfNoneMatchTag(requestHeaders: Headers): (e: ETag)
    ensures e.NoETag? <==> Values(requestHeaders, IF_NONE_MATCH) == []
    ensures e.Tag? ==> e.value == Values(requestHeaders, IF_NONE_MATCH)[0]
  {
    var listed := Values(requestHeaders, IF_NONE_MATCH);
    if listed == [] then NoETag else Tag(listed[0])
  }

  /** The decision together with the headers to send whatever it is. */
  datatype StatusAndHeaders = StatusAndHeaders(headers: Headers, modified: bool) {

    predicate IsModified()
    {
      modified
    }

    /**
     * A modified object is rendered with 200 and the supplier's value as body;
     * otherwise 304 with the same headers and no body.
     */
    function ToResponseEntity<B>(supplier: () -> B): (r: Response<B>)
      ensures r.headers == headers
      ensures IsModified() ==> r.status == OK && r.body == Some(supplier())
      ensures !IsModified() ==> r.status == NOT_MODIFIED && r.body == None
    {
      if modified then Response(OK, headers, Some(supplier()))
      else Response(NOT_MODIFIED, headers, None)
    }
  }

  function NotModified(headers: Headers): (s: StatusAndHeaders)
    ensures !s.IsModified()
    ensures s.headers == headers
  {
    StatusAndHeaders(headers, false)
  }

  function Modified(headers: Headers): (s: StatusAndHeaders)
    ensures s.IsModified()
    ensures s.headers == headers
  {
    StatusAndHeaders(headers, true)
  }

  datatype ResourceStatus = ResourceStatus(preparer: HeadersPreparer) {

    /**
     * `getStatusAndHeaders`. The object must be an instance of the entity's
     * type. The result is "not modified" exactly when the first If-None-Match
     * tag matches the object, or the preparer finds the object unchanged since
     * If-Modified-Since; the headers are the object's prepared headers either way.
     */
    function GetStatusAndHeaders(requestHeaders: Headers, domainObject: Obj, entity: PersistentEntity): (s: StatusAndHeaders)
      requires entity.isInstance(domainObject)
      ensures s.headers == preparer.prepareHeaders(entity, domainObject)
      ensures !s.IsModified() <==>
        || (Values(requestHeaders, IF_NONE_MATCH) != []
            && entity.tagMatches(Values(requestHeaders, IF_NONE_MATCH)[0], domainObject))
        || preparer.isObjectStillValid(domainObject, requestHeaders)
    {
      var eTag := IfNoneMatchTag(requestHeaders);
      var responseHeaders := preparer.prepareHeaders(entity, domainObject);
      if eTag.Matches(entity, domainObject) || preparer.isObjectStillValid(domainObject, requestHeaders)
      then NotModified(responseHeaders)
      else Modified(responseHeaders)
    }
  }

  /**
   * Reference decision for a GET of an existing representation, after sections
   * 3.2, 3.3 and 6 of RFC 7232: when If-None-Match lists tags, the request is
   * answered 304 iff one of them is `*` or matches; only when If-None-Match is
   * absent does If-Modified-Since decide (`unmodifiedSince`).
   */
  predicate RfcNotModified(listed: seq<string>, matches: string -> bool, unmodifiedSince: bool)
  {
    if listed != [] then exists i :: 0 <= i < |listed| && (listed[i] == "*" || matches(listed[i]))
    else unmodifiedSince
  }

  /**
   * With no If-None-Match, or a single non-wildcard tag that either matches or
   * is not overruled by If-Modified-Since, the decision is the one RFC 7232 prescribes.
   */
  lemma AgreesWithRfc(rs: ResourceStatus, requestHeaders: Headers, o: Obj, entity: PersistentEntity)
    requires entity.isInstance(o)
    requires var listed := Values(requestHeaders, IF_NONE_MATCH);
      || listed == []
      || (&& |listed| == 1
          && listed[0] != "*"
          && (entity.tagMatches(listed[0], o) || !rs.preparer.isObjectStillValid(o, requestHeaders)))
    ensures !rs.GetStatusAndHeaders(requestHeaders, o, entity).IsModified() <==>
      RfcNotModified(Values(requestHeaders, IF_NONE_MATCH), t => entity.tagMatches(t, o),
                     rs.preparer.isObjectStillValid(o, requestHeaders))
  {
    var listed := Values(requestHeaders, IF_NONE_MATCH);
    if listed != [] && entity.tagMatches(listed[0], o) {
      assert listed[0] == "*" || entity.tagMatches(listed[0], o);
    }
  }

  /**
   * Where the decision departs from RFC 7232: If-None-Match lists tags, and
   * either the date check passes although no tag is `*` or matches, or it
   * fails and the first tag does not match although some tag is `*` or matches.
   */
  predicate DepartsFromRfc(listed: seq<string>, matches: string -> bool, unmodifiedSince: bool)
  {
    && listed != []
    && (|| (unmodifiedSince && forall i :: 0 <= i < |listed| ==> listed[i] != "*" && !matches(listed[i]))
        || (&& !unmodifiedSince
            && !matches(listed[0])
            && exists i :: 0 <= i < |listed| && (listed[i] == "*" || matches(listed[i]))))
  }

  /** The decision is the one RFC 7232 prescribes exactly when the request is not one of the departures. */
  lemma AgreesWithRfcUnlessDeparting(rs: ResourceStatus, requestHeaders: Headers, o: Obj, entity: PersistentEntity)
    requires entity.isInstance(o)
    ensures var listed := Values(requestHeaders, IF_NONE_MATCH);
            var matches := t => entity.tagMatches(t, o);
            var valid := rs.preparer.isObjectStillValid(o, requestHeaders);
            (!rs.GetStatusAndHeaders(requestHeaders, o, entity).IsModified() <==> RfcNotModified(listed, matches, valid))
            <==> !DepartsFromRfc(listed, matches, valid)
  {
    var listed := Values(requestHeaders, IF_NONE_MATCH);
    if listed != [] && entity.tagMatches(listed[0], o) {
      assert listed[0] == "*" || entity.tagMatches(listed[0], o);
    }
  }

  /** Only the first If-None-Match tag is consulted: a match further down the list still renders the object. */
  lemma LaterTagsIgnored(rs: ResourceStatus, requestHeaders: Headers, o: Obj, entity: PersistentEntity)
    requires entity.isInstance(o)
    requires var listed := Values(requestHeaders, IF_NONE_MATCH);
      && |listed| >= 2
      && !entity.tagMatches(listed[0], o)
      && entity.tagMatches(listed[1], o)
    requires !rs.preparer.isObjectStillValid(o, requestHeaders)
    ensures rs.GetStatusAndHeaders(requestHeaders, o, entity).IsModified()
    ensures RfcNotModified(Values(requestHeaders, IF_NONE_MATCH), t => entity.tagMatches(t, o),
                           rs.preparer.isObjectStillValid(o, requestHeaders))
  {
    var listed := Values(requestHeaders, IF_NONE_MATCH);
    assert listed[1] == "*" || entity.tagMatches(listed[1], o);
  }

  /** `If-None-Match: *` is compared like any other tag rather than matching every current representation. */
  lemma WildcardIsAnOrdinaryTag(rs: ResourceStatus, requestHeaders: Headers, o: Obj, entity: PersistentEntity)
    requires entity.isInstance(o)
    requires Values(requestHeaders, IF_NONE_MATCH) == ["*"]
    requires !entity.tagMatches("*", o)
    requires !rs.preparer.isObjectStillValid(o, requestHeaders)
    ensures rs.GetStatusAndHeaders(requestHeaders, o, entity).IsModified()
    ensures RfcNotModified(Values(requestHeaders, IF_NONE_MATCH), t => entity.tagMatches(t, o),
                           rs.preparer.isObjectStillValid(o, requestHeaders))
  {
    assert Values(requestHeaders, IF_NONE_MATCH)[0] == "*";
  }

  /** If-Modified-Since is consulted even when If-None-Match is present and none of its tags match. */
  lemma DateOverridesFailedTags(rs: ResourceStatus, requestHeaders: Headers, o: Obj, entity: PersistentEntity)
    requires entity.isInstance(o)
    requires var listed := Values(requestHeaders, IF_NONE_MATCH);
      && listed != []
      && forall i :: 0 <= i < |listed| ==> listed[i] != "*" && !entity.tagMatches(listed[i], o)
    requires rs.preparer.isObjectStillValid(o, requestHeaders)
    ensures !rs.GetStatusAndHeaders(requestHeaders, o, entity).IsModified()
    ensures !RfcNotModified(Values(requestHeaders, IF_NONE_MATCH), t => entity.tagMatches(t, o),
                            rs.preparer.isObjectStillValid(o, requestHeaders))
  {
  }

  /**
   * Sending back a tag that matches yields 304 without a body and with exactly
   * the headers a request without any precondition receives.
   */
  lemma RevalidationIsNotModified(rs: ResourceStatus, requestHeaders: Headers, tag: string, others: seq<string>,
                                  o: Obj, entity: PersistentEntity, supplier: () -> Obj)
    requires entity.isInstance(o)
    requires entity.tagMatches(tag, o)
    ensures var conditional := requestHeaders[IF_NONE_MATCH := [tag] + others];
            var plain := requestHeaders - {IF_NONE_MATCH};
            && rs.GetStatusAndHeaders(conditional, o, entity).ToResponseEntity(supplier)
               == Response(NOT_MODIFIED, rs.GetStatusAndHeaders(plain, o, entity).headers, None)
  {
    var conditional := requestHeaders[IF_NONE_MATCH := [tag] + others];
    assert Values(conditional, IF_NONE_MATCH)[0] == tag;
  }
}
