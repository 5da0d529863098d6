/**
 * The generic repository controller: one handler per HTTP verb and resource
 * shape. A handler answers with a response or a failure, together with the
 * trace of what it did on the way: the lifecycle events it published and the
 * invoker calls it made, in order.
 */
module Controller {
  import opened Options
  import opened Http
  import opened ControllerUtils
  import opened Collaborators
  import opened ResourceStatus

  /** The lifecycle events published around a mutation, each carrying the affected object. */
  datatype Event =
    | BeforeCreate(subject: Obj)
    | AfterCreate(subject: Obj)
    | BeforeSave(subject: Obj)
    | AfterSave(subject: Obj)
    | BeforeDelete(subject: Obj)
    | AfterDelete(subject: Obj)
  {
    predicate IsAfter()
    {
      AfterCreate? || AfterSave? || AfterDelete?
    }
  }

  /** One observable thing a handler does: publish an event or call the invoker. */
  datatype Step =
    | Publish(event: Event)
    | FindAll(query: Query)
    | FindById(id: Id)
    | Save(obj: Obj)
    | DeleteById(id: Id)
  {
    predicate IsWrite()
    {
      Save? || DeleteById?
    }

    predicate IsSideEffect()
    {
      Publish? || IsWrite()
    }

    predicate IsAfterEvent()
    {
      Publish? && event.IsAfter()
    }
  }

  /** The exceptions a handler ends with. `ServerError` stands for any other exception. */
  datatype Failure =
    | MethodNotSupported(verb: HttpMethod)
    | ResourceNotFound
    | ETagDoesntMatch
    | ServerError
  {
    /** The status the framework's exception handling answers with. */
    function ToStatus(): (s: Status)
      ensures s.Code() >= 400
    {
      match this
      case MethodNotSupported(_) => METHOD_NOT_ALLOWED
      case ResourceNotFound => NOT_FOUND
      case ETagDoesntMatch => PRECONDITION_FAILED
      case ServerError => INTERNAL_SERVER_ERROR
    }
  }

  datatype Result<+T> = Ok(value: T) | Err(failure: Failure)

  datatype Outcome<+T> = Outcome(result: Result<T>, trace: seq<Step>)

  type Handled = Outcome<Response<Body>>

  /** Nothing was published and nothing was written. */
  predicate Untouched(trace: seq<Step>)
  {
    forall i :: 0 <= i < |trace| ==> !trace[i].IsSideEffect()
  }

  /** The Before* event that must immediately precede a write. */
  predicate Announces(before: Event, write: Step)
  {
    match write
    case Save(o) => before == BeforeCreate(o) || before == BeforeSave(o)
    case DeleteById(_) => before.BeforeDelete?
    case _ => false
  }

  /** The Before* event an After* event closes. */
  predicate Closes(after: Event, before: Event)
  {
    match after
    case AfterCreate(_) => before.BeforeCreate?
    case AfterSave(_) => before.BeforeSave?
    case AfterDelete(o) => before == BeforeDelete(o)
    case _ => false
  }

  /**
   * The lifecycle ordering: every write comes right after the Before* event
   * announcing it, and every After* event comes right after a write, which
   * comes right after the matching Before* event.
   */
  predicate WellOrdered(trace: seq<Step>)
  {
    && (forall i :: 0 <= i < |trace| && trace[i].IsWrite() ==>
          0 < i && trace[i - 1].Publish? && Announces(trace[i - 1].event, trace[i]))
    && (forall i :: 0 <= i < |trace| && trace[i].IsAfterEvent() ==>
          2 <= i && trace[i - 1].IsWrite() && trace[i - 2].Publish?
          && Closes(trace[i].event, trace[i - 2].event))
  }

  /** No After* event was published. */
  predicate NoAfterEvent(trace: seq<Step>)
  {
    forall i :: 0 <= i < |trace| ==> !trace[i].IsAfterEvent()
  }

  /** `verifySupportedMethod`: the verb is among those the repository exports for the shape. */
  predicate Supports(info: ResourceInformation, verb: HttpMethod, shape: ResourceType)
  {
    verb in info.supportedMethods(shape)
  }

  /** `OPTIONS /{repository}`: 200 announcing exactly the methods the collection supports. */
  function OptionsForCollectionResource(info: ResourceInformation): (r: Response<Body>)
    ensures r.status == OK
    ensures r.body == None
    ensures r.headers.Keys == {ALLOW}
    ensures ParseAllow(Values(r.headers, ALLOW)) == info.supportedMethods(COLLECTION)
  {
    var methods := info.supportedMethods(COLLECTION);
    AllowRoundTrip(methods);
    Response(OK, SetValues(EMPTY, ALLOW, AllowValue(methods)), None)
  }

  /** `OPTIONS /{repository}/{id}`: 200 announcing the item's methods and the accepted PATCH media types. */
  function OptionsForItemResource(info: ResourceInformation): (r: Response<Body>)
    ensures r.status == OK
    ensures r.body == None
    ensures r.headers.Keys == {ALLOW, ACCEPT_PATCH}
    ensures ParseAllow(Values(r.headers, ALLOW)) == info.supportedMethods(ITEM)
    ensures Values(r.headers, ACCEPT_PATCH) == [MERGE_PATCH_JSON, JSON_PATCH_JSON, APPLICATION_JSON]
  {
    var methods := info.supportedMethods(ITEM);
    AllowRoundTrip(methods);
    var headers := SetValues(EMPTY, ALLOW, AllowValue(methods));
    Response(OK, SetValues(headers, ACCEPT_PATCH, [MERGE_PATCH_JSON, JSON_PATCH_JSON, APPLICATION_JSON]), None)
  }

  /** `HEAD /{repository}`: 204 with the collection's links; the invoker is never called. */
  function HeadCollectionResource(info: ResourceInformation, c: Collaborators): (o: Handled)
    ensures o.trace == []
    ensures !Supports(info, HEAD, COLLECTION) ==> o.result == Err(MethodNotSupported(HEAD))
    ensures Supports(info, HEAD, COLLECTION) && info.invoker.None? ==> o.result == Err(ResourceNotFound)
    ensures o.result.Ok? <==> Supports(info, HEAD, COLLECTION) && info.invoker.Some?
    ensures o.result.Ok? ==>
      && o.result.value.status == NO_CONTENT
      && o.result.value.body == None
      && o.result.value.headers == map[LINK := [c.collectionLinks]]
  {
    if !Supports(info, HEAD, COLLECTION) then Outcome(Err(MethodNotSupported(HEAD)), [])
    else if info.invoker.None? then Outcome(Err(ResourceNotFound), [])
    else
      assert Values(EMPTY, LINK) + [c.collectionLinks] == [c.collectionLinks];
      Outcome(Ok(Response(NO_CONTENT, AddValue(EMPTY, LINK, c.collectionLinks), None)), [])
  }

  /** `GET /{repository}`: the collection, read by page when paging is requested and by sort otherwise. */
  function GetCollectionResource(info: ResourceInformation, pageable: Option<Pageable>, sort: Sort): (o: Handled)
    ensures !Supports(info, GET, COLLECTION) ==> o == Outcome(Err(MethodNotSupported(GET)), [])
    ensures Supports(info, GET, COLLECTION) && info.invoker.None? ==> o == Outcome(Err(ResourceNotFound), [])
    ensures o.result.Ok? <==> Supports(info, GET, COLLECTION) && info.invoker.Some?
    ensures o.result.Ok? ==>
      && |o.trace| == 1
      && o.trace[0].FindAll?
      && (pageable.Some? ==> o.trace[0].query == ByPage(pageable.value))
      && (pageable.None? ==> o.trace[0].query == BySort(sort))
      && o.result.value == Response(OK, EMPTY, Some(Entities(info.invoker.value.findAll(o.trace[0].query))))
  {
    if !Supports(info, GET, COLLECTION) then Outcome(Err(MethodNotSupported(GET)), [])
    else if info.invoker.None? then Outcome(Err(ResourceNotFound), [])
    else
      var query := if pageable.Some? then ByPage(pageable.value) else BySort(sort);
      Outcome(Ok(Response(OK, EMPTY, Some(Entities(info.invoker.value.findAll(query))))), [FindAll(query)])
  }

  /** `addLocationHeader`: `Location` becomes the expanded self link of the object; nothing else changes. */
  function AddLocationHeader(c: Collaborators, headers: Headers, source: Obj): (r: Headers)
    ensures Values(r, LOCATION) == [c.expandTemplate(c.selfLink(source))]
    ensures r - {LOCATION} == headers - {LOCATION}
  {
    SetValues(headers, LOCATION, [c.expandTemplate(c.selfLink(source))])
  }

  /**
   * `createAndReturn`: BeforeCreate, save, AfterCreate; then 201 with the saved
   * object as body and its location, whether or not a body was asked for.
   */
  function CreateAndReturn(c: Collaborators, domainObject: Obj, invoker: Option<Invoker>, returnBody: bool): (o: Handled)
    ensures |o.trace| >= 1 && o.trace[0] == Publish(BeforeCreate(domainObject))
    ensures o.result.Ok? <==> invoker.Some? && invoker.value.save(domainObject).Some?
    ensures invoker.None? ==> o == Outcome(Err(ServerError), [Publish(BeforeCreate(domainObject))])
    ensures invoker.Some? && invoker.value.save(domainObject).None? ==>
      o == Outcome(Err(ServerError), [Publish(BeforeCreate(domainObject)), Save(domainObject)])
    ensures o.result.Ok? ==>
      var saved := invoker.value.save(domainObject).value;
      var prepared := c.headersPreparer.prepareResourceHeaders(if returnBody then Some(saved) else None);
      && o.trace == [Publish(BeforeCreate(domainObject)), Save(domainObject), Publish(AfterCreate(saved))]
      && o.result.value.status == CREATED
      && o.result.value.body == Some(Entity(saved))
      && Values(o.result.value.headers, LOCATION) == [c.expandTemplate(c.selfLink(saved))]
      && o.result.value.headers - {LOCATION} == prepared - {LOCATION}
  {
    var announced := [Publish(BeforeCreate(domainObject))];
    match invoker
    case None => Outcome(Err(ServerError), announced)
    case Some(inv) =>
      var written := announced + [Save(domainObject)];
      match inv.save(domainObject)
      case None => Outcome(Err(ServerError), written)
      case Some(saved) =>
        var resource := if returnBody then Some(saved) else None;
        var headers := AddLocationHeader(c, c.headersPreparer.prepareResourceHeaders(resource), saved);
        Outcome(Ok(ToResponseEntityOf(CREATED, Some(headers), Entity(saved))),
                written + [Publish(AfterCreate(saved))])
  }

  /**
   * `saveAndReturn`: BeforeSave, save, AfterSave; then 200 with the saved object
   * or 204 without a body. Only a PUT gets a `Location` header.
   */
  function SaveAndReturn(c: Collaborators, domainObject: Obj, invoker: Option<Invoker>, httpMethod: HttpMethod,
                         returnBody: bool): (o: Handled)
    ensures |o.trace| >= 1 && o.trace[0] == Publish(BeforeSave(domainObject))
    ensures o.result.Ok? <==> invoker.Some? && invoker.value.save(domainObject).Some?
    ensures invoker.None? ==> o == Outcome(Err(ServerError), [Publish(BeforeSave(domainObject))])
    ensures invoker.Some? && invoker.value.save(domainObject).None? ==>
      o == Outcome(Err(ServerError), [Publish(BeforeSave(domainObject)), Save(domainObject)])
    ensures o.result.Ok? ==>
      var saved := invoker.value.save(domainObject).value;
      var prepared := c.headersPreparer.prepareResourceHeaders(Some(saved));
      var r := o.result.value;
      && o.trace == [Publish(BeforeSave(domainObject)), Save(domainObject), Publish(AfterSave(saved))]
      && (returnBody ==> r.status == OK && r.body == Some(Entity(saved)))
      && (!returnBody ==> r.status == NO_CONTENT && r.body == None)
      && (httpMethod == PUT ==> Values(r.headers, LOCATION) == [c.expandTemplate(c.selfLink(saved))]
                                && r.headers - {LOCATION} == prepared - {LOCATION})
      && (httpMethod != PUT ==> r.headers == prepared)
  {
    var announced := [Publish(BeforeSave(domainObject))];
    match invoker
    case None => Outcome(Err(ServerError), announced)
    case Some(inv) =>
      var written := announced + [Save(domainObject)];
      match inv.save(domainObject)
      case None => Outcome(Err(ServerError), written)
      case Some(saved) =>
        var prepared := c.headersPreparer.prepareResourceHeaders(Some(saved));
        var headers := if httpMethod == PUT then AddLocationHeader(c, prepared, saved) else prepared;
        var response :=
          if returnBody then ToResponseEntityOf(OK, Some(headers), Entity(saved))
          else ToEmptyResponseWith(NO_CONTENT, Some(headers));
        Outcome(Ok(response), written + [Publish(AfterSave(saved))])
  }

  /** `POST /{repository}`: checked against the collection's methods, then created. */
  function PostCollectionResource(info: ResourceInformation, c: Collaborators, payload: Payload,
                                  acceptHeader: Option<string>): (o: Handled)
    ensures !Supports(info, POST, COLLECTION) ==> o == Outcome(Err(MethodNotSupported(POST)), [])
    ensures Supports(info, POST, COLLECTION) ==>
      o == CreateAndReturn(c, payload.content, info.invoker, c.returnBodyOnCreate(acceptHeader))
  {
    if !Supports(info, POST, COLLECTION) then Outcome(Err(MethodNotSupported(POST)), [])
    else CreateAndReturn(c, payload.content, info.invoker, c.returnBodyOnCreate(acceptHeader))
  }

  /** The private `getItemResource`: checks GET on the item, then looks the id up. */
  function LookupItem(info: ResourceInformation, id: Id): (o: Outcome<Option<Obj>>)
    ensures !Supports(info, GET, ITEM) ==> o == Outcome(Err(MethodNotSupported(GET)), [])
    ensures Supports(info, GET, ITEM) && info.invoker.None? ==> o == Outcome(Err(ServerError), [])
    ensures o.result.Ok? <==> Supports(info, GET, ITEM) && info.invoker.Some?
    ensures o.result.Ok? ==>
      o.trace == [FindById(id)] && o.result.value == info.invoker.value.findById(id)
  {
    if !Supports(info, GET, ITEM) then Outcome(Err(MethodNotSupported(GET)), [])
    else match info.invoker
      case None => Outcome(Err(ServerError), [])
      case Some(inv) => Outcome(Ok(inv.findById(id)), [FindById(id)])
  }

  /** `HEAD /{repository}/{id}`: 204 with the object's prepared headers plus its links; never 304. */
  function HeadForItemResource(info: ResourceInformation, c: Collaborators, id: Id): (o: Handled)
    ensures !Supports(info, GET, ITEM) ==> o == Outcome(Err(MethodNotSupported(GET)), [])
    ensures Supports(info, GET, ITEM) && info.invoker.None? ==> o == Outcome(Err(ServerError), [])
    ensures Untouched(o.trace) && |o.trace| <= 1
    ensures o.result.Ok? <==>
      Supports(info, GET, ITEM) && info.invoker.Some? && info.invoker.value.findById(id).Some?
    ensures Supports(info, GET, ITEM) && info.invoker.Some? && info.invoker.value.findById(id).None? ==>
      o == Outcome(Err(ResourceNotFound), [FindById(id)])
    ensures o.result.Ok? ==>
      var it := info.invoker.value.findById(id).value;
      var prepared := c.headersPreparer.prepareHeaders(info.persistentEntity, it);
      && o.trace == [FindById(id)]
      && o.result.value.status == NO_CONTENT
      && o.result.value.body == None
      && Values(o.result.value.headers, LINK) == Values(prepared, LINK) + [c.itemLinks(it)]
      && o.result.value.headers - {LINK} == prepared - {LINK}
  {
    var lookup := LookupItem(info, id);
    match lookup.result
    case Err(f) => Outcome(Err(f), lookup.trace)
    case Ok(None) => Outcome(Err(ResourceNotFound), lookup.trace)
    case Ok(Some(it)) =>
      var headers := AddValue(c.headersPreparer.prepareHeaders(info.persistentEntity, it), LINK, c.itemLinks(it));
      Outcome(Ok(Response(NO_CONTENT, headers, None)), lookup.trace)
  }

  /**
   * `GET /{repository}/{id}`: the object with 200, or 304 when the request's
   * preconditions show the client's copy is current; same headers either way.
   */
  function GetItemResource(info: ResourceInformation, c: Collaborators, id: Id, requestHeaders: Headers): (o: Handled)
    ensures !Supports(info, GET, ITEM) ==> o == Outcome(Err(MethodNotSupported(GET)), [])
    ensures Supports(info, GET, ITEM) && info.invoker.None? ==> o == Outcome(Err(ServerError), [])
    ensures Untouched(o.trace) && |o.trace| <= 1
    ensures Supports(info, GET, ITEM) && info.invoker.Some? && info.invoker.value.findById(id).None? ==>
      o == Outcome(Err(ResourceNotFound), [FindById(id)])
    ensures Supports(info, GET, ITEM) && info.invoker.Some? && info.invoker.value.findById(id).Some?
            && !info.persistentEntity.isInstance(info.invoker.value.findById(id).value) ==>
      o == Outcome(Err(ServerError), [FindById(id)])
    ensures o.result.Ok? <==>
      && Supports(info, GET, ITEM) && info.invoker.Some? && info.invoker.value.findById(id).Some?
      && info.persistentEntity.isInstance(info.invoker.value.findById(id).value)
    ensures o.result.Ok? ==>
      var it := info.invoker.value.findById(id).value;
      var r := o.result.value;
      var listed := Values(requestHeaders, IF_NONE_MATCH);
      && o.trace == [FindById(id)]
      && r.headers == c.headersPreparer.prepareHeaders(info.persistentEntity, it)
      && (r.status == NOT_MODIFIED <==>
            || (listed != [] && info.persistentEntity.tagMatches(listed[0], it))
            || c.headersPreparer.isObjectStillValid(it, requestHeaders))
      && (r.status == NOT_MODIFIED ==> r.body == None)
      && (r.status != NOT_MODIFIED ==> r.status == OK && r.body == Some(Entity(it)))
  {
    var lookup := LookupItem(info, id);
    match lookup.result
    case Err(f) => Outcome(Err(f), lookup.trace)
    case Ok(None) => Outcome(Err(ResourceNotFound), lookup.trace)
    case Ok(Some(it)) =>
      if !info.persistentEntity.isInstance(it) then Outcome(Err(ServerError), lookup.trace)
      else
        var status := ResourceStatus(c.headersPreparer).GetStatusAndHeaders(requestHeaders, it, info.persistentEntity);
        Outcome(Ok(status.ToResponseEntity(() => Entity(it))), lookup.trace)
  }

  /**
   * `PUT /{repository}/{id}`: checks PUT on the item, then PUT-for-creation for
   * a new payload, then the If-Match tag, all before any event or write; a new
   * payload is created, an existing one saved. The path id is not consulted.
   */
  function PutItemResource(info: ResourceInformation, c: Collaborators, payload: Payload, id: Id, eTag: ETag,
                           acceptHeader: Option<string>): (o: Handled)
    ensures !Supports(info, PUT, ITEM) ==> o == Outcome(Err(MethodNotSupported(PUT)), [])
    ensures payload.isNew && !info.allowsPutForCreation ==> o == Outcome(Err(MethodNotSupported(PUT)), [])
    ensures Supports(info, PUT, ITEM) && (payload.isNew ==> info.allowsPutForCreation)
            && !eTag.Verifies(info.persistentEntity, payload.content) ==>
      o == Outcome(Err(ETagDoesntMatch), [])
    ensures o.trace != [] <==>
      && Supports(info, PUT, ITEM)
      && (payload.isNew ==> info.allowsPutForCreation)
      && eTag.Verifies(info.persistentEntity, payload.content)
    ensures o.trace != [] ==>
      o.trace[0] == Publish(if payload.isNew then BeforeCreate(payload.content) else BeforeSave(payload.content))
    ensures o.trace != [] && payload.isNew ==>
      o == CreateAndReturn(c, payload.content, info.invoker, c.returnBodyOnCreate(acceptHeader))
    ensures o.trace != [] && !payload.isNew ==>
      o == SaveAndReturn(c, payload.content, info.invoker, PUT, c.returnBodyOnUpdate(acceptHeader))
    ensures o.result.Ok? ==> (o.result.value.status == CREATED <==> payload.isNew)
    ensures o.result.Ok? ==> LOCATION in o.result.value.headers
  {
    if !Supports(info, PUT, ITEM) then Outcome(Err(MethodNotSupported(PUT)), [])
    else if payload.isNew && !info.allowsPutForCreation then Outcome(Err(MethodNotSupported(PUT)), [])
    else if !eTag.Verifies(info.persistentEntity, payload.content) then Outcome(Err(ETagDoesntMatch), [])
    else if payload.isNew then
      CreateAndReturn(c, payload.content, info.invoker, c.returnBodyOnCreate(acceptHeader))
    else
      SaveAndReturn(c, payload.content, info.invoker, PUT, c.returnBodyOnUpdate(acceptHeader))
  }

  /**
   * `PATCH /{repository}/{id}`: checks PATCH on the item and the If-Match tag
   * before any event or write, then saves without a `Location` header.
   */
  function PatchItemResource(info: ResourceInformation, c: Collaborators, payload: Payload, id: Id, eTag: ETag,
                             acceptHeader: Option<string>): (o: Handled)
    ensures !Supports(info, PATCH, ITEM) ==> o == Outcome(Err(MethodNotSupported(PATCH)), [])
    ensures Supports(info, PATCH, ITEM) && !eTag.Verifies(info.persistentEntity, payload.content) ==>
      o == Outcome(Err(ETagDoesntMatch), [])
    ensures o.trace != [] <==> Supports(info, PATCH, ITEM) && eTag.Verifies(info.persistentEntity, payload.content)
    ensures o.trace != [] ==> o.trace[0] == Publish(BeforeSave(payload.content))
    ensures o.trace != [] ==>
      o == SaveAndReturn(c, payload.content, info.invoker, PATCH, c.returnBodyOnUpdate(acceptHeader))
    ensures o.result.Ok? ==>
      && info.invoker.Some? && info.invoker.value.save(payload.content).Some?
      && o.result.value.headers
         == c.headersPreparer.prepareResourceHeaders(Some(info.invoker.value.save(payload.content).value))
  {
    if !Supports(info, PATCH, ITEM) then Outcome(Err(MethodNotSupported(PATCH)), [])
    else if !eTag.Verifies(info.persistentEntity, payload.content) then Outcome(Err(ETagDoesntMatch), [])
    else SaveAndReturn(c, payload.content, info.invoker, PATCH, c.returnBodyOnUpdate(acceptHeader))
  }

  /** The steps of a deletion up to and including the write: lookup, BeforeDelete, delete by the object's identifier. */
  function DeletionSteps(entity: PersistentEntity, id: Id, it: Obj): seq<Step>
  {
    [FindById(id), Publish(BeforeDelete(it)), DeleteById(entity.identifier(it))]
  }

  /** The object a DELETE addresses, when the verb is supported, the invoker present and the id found. */
  predicate Deletes(info: ResourceInformation, id: Id, it: Obj)
  {
    Supports(info, DELETE, ITEM) && info.invoker.Some? && info.invoker.value.findById(id) == Some(it)
  }

  /**
   * `DELETE /{repository}/{id}`: looks the object up, verifies the If-Match
   * tag, then BeforeDelete, delete by the object's own identifier, AfterDelete, 204.
   */
  function DeleteItemResource(info: ResourceInformation, id: Id, eTag: ETag): (o: Handled)
    ensures !Supports(info, DELETE, ITEM) ==> o == Outcome(Err(MethodNotSupported(DELETE)), [])
    ensures Supports(info, DELETE, ITEM) && info.invoker.None? ==> o == Outcome(Err(ServerError), [])
    ensures Supports(info, DELETE, ITEM) && info.invoker.Some? && info.invoker.value.findById(id).None? ==>
      o == Outcome(Err(ResourceNotFound), [FindById(id)])
    ensures forall it :: Deletes(info, id, it) && !eTag.Verifies(info.persistentEntity, it) ==>
      o == Outcome(Err(ETagDoesntMatch), [FindById(id)])
    ensures forall it :: Deletes(info, id, it) && eTag.Verifies(info.persistentEntity, it) ==>
      var steps := DeletionSteps(info.persistentEntity, id, it);
      if info.invoker.value.deleteById(info.persistentEntity.identifier(it))
      then o == Outcome(Ok(Response(NO_CONTENT, EMPTY, None)), steps + [Publish(AfterDelete(it))])
      else o == Outcome(Err(ServerError), steps)
  {
    if !Supports(info, DELETE, ITEM) then Outcome(Err(MethodNotSupported(DELETE)), [])
    else match info.invoker
      case None => Outcome(Err(ServerError), [])
      case Some(inv) =>
        var looked := [FindById(id)];
        match inv.findById(id)
        case None => Outcome(Err(ResourceNotFound), looked)
        case Some(it) =>
          var entity := info.persistentEntity;
          if !eTag.Verifies(entity, it) then Outcome(Err(ETagDoesntMatch), looked)
          else
            var key := entity.identifier(it);
            var deleting := looked + [Publish(BeforeDelete(it)), DeleteById(key)];
            if !inv.deleteById(key) then Outcome(Err(ServerError), deleting)
            else Outcome(Ok(Response(NO_CONTENT, EMPTY, None)), deleting + [Publish(AfterDelete(it))])
  }

  /** A request as routed to the controller: verb, shape and the arguments the framework resolved. */
  datatype Request =
    | CollectionOptions
    | CollectionHead
    | CollectionGet(pageable: Option<Pageable>, sort: Sort)
    | CollectionPost(payload: Payload, acceptHeader: Option<string>)
    | ItemOptions
    | ItemHead(id: Id)
    | ItemGet(id: Id, headers: Headers)
    | ItemPut(payload: Payload, id: Id, eTag: ETag, acceptHeader: Option<string>)
    | ItemPatch(payload: Payload, id: Id, eTag: ETag, acceptHeader: Option<string>)
    | ItemDelete(id: Id, eTag: ETag)
  {
    function Shape(): ResourceType
    {
      if CollectionOptions? || CollectionHead? || CollectionGet? || CollectionPost? then COLLECTION else ITEM
    }

    /** The verb whose support the handler verifies first; OPTIONS verifies none, and HEAD on an item verifies GET. */
    function Checked(): Option<HttpMethod>
    {
      match this
      case CollectionOptions => None
      case CollectionHead => Some(HEAD)
      case CollectionGet(_, _) => Some(GET)
      case CollectionPost(_, _) => Some(POST)
      case ItemOptions => None
      case ItemHead(_) => Some(GET)
      case ItemGet(_, _) => Some(GET)
      case ItemPut(_, _, _, _) => Some(PUT)
      case ItemPatch(_, _, _, _) => Some(PATCH)
      case ItemDelete(_, _) => Some(DELETE)
    }
  }

  /**
   * The request mappings: each request reaches its handler. Whatever the
   * request, an unsupported verb/shape ends before any event or invoker call,
   * a failed If-Match leaves nothing published or written, every mutation is
   * bracketed by its events, and an After* event means the request succeeded.
   */
  function Handle(info: ResourceInformation, c: Collaborators, request: Request): (o: Handled)
    ensures request.Checked().Some? && !Supports(info, request.Checked().value, request.Shape()) ==>
      o == Outcome(Err(MethodNotSupported(request.Checked().value)), [])
    ensures o.result == Err(ETagDoesntMatch) ==> Untouched(o.trace)
    ensures !NoAfterEvent(o.trace) ==> o.result.Ok?
    ensures request.Checked().None? ==> o.result.Ok? && o.trace == []
  {
    match request
    case CollectionOptions => Outcome(Ok(OptionsForCollectionResource(info)), [])
    case CollectionHead => HeadCollectionResource(info, c)
    case CollectionGet(pageable, sort) => GetCollectionResource(info, pageable, sort)
    case CollectionPost(payload, accept) => PostCollectionResource(info, c, payload, accept)
    case ItemOptions => Outcome(Ok(OptionsForItemResource(info)), [])
    case ItemHead(id) => HeadForItemResource(info, c, id)
    case ItemGet(id, headers) => GetItemResource(info, c, id, headers)
    case ItemPut(payload, id, eTag, accept) => PutItemResource(info, c, payload, id, eTag, accept)
    case ItemPatch(payload, id, eTag, accept) => PatchItemResource(info, c, payload, id, eTag, accept)
    case ItemDelete(id, eTag) => DeleteItemResource(info, id, eTag)
  }
}
