/** Properties relating the controller's handlers to one another. */
module ControllerLemmas {
  import opened Options
  import opened Http
  import opened Collaborators
  import opened Controller

  /** A PUT of a new payload, once its checks pass, behaves exactly like a POST of it to the collection. */
  lemma PutOfNewPayloadIsPost(info: ResourceInformation, c: Collaborators, payload: Payload, id: Id, eTag: ETag,
                              acceptHeader: Option<string>)
    requires Supports(info, PUT, ITEM) && Supports(info, POST, COLLECTION)
    requires payload.isNew && info.allowsPutForCreation
    requires eTag.Verifies(info.persistentEntity, payload.content)
    ensures PutItemResource(info, c, payload, id, eTag, acceptHeader)
         == PostCollectionResource(info, c, payload, acceptHeader)
  {
  }

  /**
   * On an existing payload whose checks pass, PATCH and PUT publish and write
   * the same things and answer with the same status and body; PUT's headers
   * are PATCH's plus the `Location` of the saved object.
   */
  lemma PatchIsPutWithoutLocation(info: ResourceInformation, c: Collaborators, payload: Payload, id: Id, eTag: ETag,
                                  acceptHeader: Option<string>)
    requires Supports(info, PUT, ITEM) && Supports(info, PATCH, ITEM)
    requires !payload.isNew
    requires eTag.Verifies(info.persistentEntity, payload.content)
    ensures var put := PutItemResource(info, c, payload, id, eTag, acceptHeader);
            var patch := PatchItemResource(info, c, payload, id, eTag, acceptHeader);
            && put.trace == patch.trace
            && (put.result.Ok? <==> patch.result.Ok?)
            && (put.result.Ok? ==>
                  var saved := info.invoker.value.save(payload.content).value;
                  && put.result.value.status == patch.result.value.status
                  && put.result.value.body == patch.result.value.body
                  && put.result.value.headers == AddLocationHeader(c, patch.result.value.headers, saved))
  {
  }

  /**
   * HEAD and GET on an item make the same lookup, and when HEAD fails GET
   * fails the same way. Only GET checks the object's type: on an object
   * outside the entity's type GET fails with a server error where HEAD
   * answers 204. When GET succeeds, HEAD answers 204 with GET's headers plus
   * the object's links.
   */
  lemma HeadMirrorsGet(info: ResourceInformation, c: Collaborators, id: Id, requestHeaders: Headers)
    ensures var head := HeadForItemResource(info, c, id);
            var get := GetItemResource(info, c, id, requestHeaders);
            && head.trace == get.trace
            && (get.result.Ok? ==> head.result.Ok?)
            && (head.result.Err? ==> head.result == get.result)
            && (get.result.Err? && head.result.Ok? <==>
                  head.result.Ok? && !info.persistentEntity.isInstance(info.invoker.value.findById(id).value))
            && (get.result.Err? && head.result.Ok? ==> get.result == Err(ServerError))
            && (get.result.Ok? ==>
                  var it := info.invoker.value.findById(id).value;
                  && head.result.value.status == NO_CONTENT
                  && head.result.value.body == None
                  && head.result.value.headers == AddValue(get.result.value.headers, LINK, c.itemLinks(it)))
  {
  }

  /**
   * HEAD and GET on the collection, when both are supported: they fail
   * together and with the same failure; HEAD makes no invoker call, GET
   * exactly one find-all, and HEAD carries links where GET carries the objects.
   */
  lemma HeadCollectionMirrorsGet(info: ResourceInformation, c: Collaborators, pageable: Option<Pageable>, sort: Sort)
    requires Supports(info, HEAD, COLLECTION) && Supports(info, GET, COLLECTION)
    ensures var head := HeadCollectionResource(info, c);
            var get := GetCollectionResource(info, pageable, sort);
            && (head.result.Err? <==> get.result.Err?)
            && (head.result.Err? ==> head.result == get.result)
            && head.trace == []
            && (get.result.Ok? ==> |get.trace| == 1 && get.trace[0].FindAll?)
            && (head.result.Ok? ==>
                  && head.result.value.body == None
                  && get.result.value.body == Some(Entities(info.invoker.value.findAll(get.trace[0].query))))
  {
  }

  /**
   * Whether a body was asked for on create changes only the prepared headers:
   * the trace, the status, the body and the `Location` are the same.
   */
  lemma ReturnBodyOnCreateShapesOnlyHeaders(c: Collaborators, domainObject: Obj, invoker: Option<Invoker>)
    ensures var with := CreateAndReturn(c, domainObject, invoker, true);
            var without := CreateAndReturn(c, domainObject, invoker, false);
            && with.trace == without.trace
            && with.result.Ok? == without.result.Ok?
            && (with.result.Ok? ==>
                  && with.result.value.status == without.result.value.status == CREATED
                  && with.result.value.body == without.result.value.body
                  && Values(with.result.value.headers, LOCATION) == Values(without.result.value.headers, LOCATION))
  {
  }

  /** PUT and PATCH never consult the id in the path: the payload alone decides what is written. */
  lemma PathIdIgnoredByUpdates(info: ResourceInformation, c: Collaborators, payload: Payload, id1: Id, id2: Id,
                               eTag: ETag, acceptHeader: Option<string>)
    ensures PutItemResource(info, c, payload, id1, eTag, acceptHeader)
         == PutItemResource(info, c, payload, id2, eTag, acceptHeader)
    ensures PatchItemResource(info, c, payload, id1, eTag, acceptHeader)
         == PatchItemResource(info, c, payload, id2, eTag, acceptHeader)
  {
  }

  /**
   * A mutating request whose If-Match tag does not match the object it
   * addresses is refused with 412 (or earlier) before anything is published or
   * written, and never succeeds.
   */
  lemma StaleIfMatchNeverMutates(info: ResourceInformation, c: Collaborators, request: Request)
    requires request.ItemPut? || request.ItemPatch? || request.ItemDelete?
    requires request.ItemPut? || request.ItemPatch? ==> !request.eTag.Verifies(info.persistentEntity, request.payload.content)
    requires request.ItemDelete? ==>
      forall it :: Deletes(info, request.id, it) ==> !request.eTag.Verifies(info.persistentEntity, it)
    ensures Handle(info, c, request).result.Err?
    ensures Untouched(Handle(info, c, request).trace)
  {
    if request.ItemDelete? && Supports(info, DELETE, ITEM) && info.invoker.Some? {
      match info.invoker.value.findById(request.id)
      case None =>
      case Some(it) => assert Deletes(info, request.id, it);
    }
  }

  /** A successful DELETE removes the object by its own identifier, between its two events. */
  lemma DeleteUsesObjectIdentifier(info: ResourceInformation, id: Id, eTag: ETag)
    requires DeleteItemResource(info, id, eTag).result.Ok?
    ensures var it := info.invoker.value.findById(id).value;
            && Deletes(info, id, it)
            && DeleteItemResource(info, id, eTag).trace
               == [FindById(id), Publish(BeforeDelete(it)), DeleteById(info.persistentEntity.identifier(it)),
                   Publish(AfterDelete(it))]
  {
    var o := DeleteItemResource(info, id, eTag);
    assert Supports(info, DELETE, ITEM) && info.invoker.Some?;
    var it := info.invoker.value.findById(id).value;
    assert Deletes(info, id, it);
  }

  /**
   * A trace that only reads, followed by a Before event and the write it
   * announces, is well ordered, also when cut short before the write.
   */
  lemma AnnouncedWriteWellOrdered(lookups: seq<Step>, before: Event, write: Step)
    requires forall i :: 0 <= i < |lookups| ==> !lookups[i].IsSideEffect()
    requires !before.IsAfter() && write.IsWrite() && Announces(before, write)
    ensures WellOrdered(lookups + [Publish(before)])
    ensures WellOrdered(lookups + [Publish(before), write])
  {
  }

  /** The same trace completed by the After event closing the Before event is well ordered too. */
  lemma MutationWellOrdered(lookups: seq<Step>, before: Event, write: Step, after: Event)
    requires forall i :: 0 <= i < |lookups| ==> !lookups[i].IsSideEffect()
    requires !before.IsAfter() && write.IsWrite()
    requires Announces(before, write) && Closes(after, before)
    ensures WellOrdered(lookups + [Publish(before), write, Publish(after)])
  {
  }

  /** `createAndReturn` follows the lifecycle ordering whether or not the save succeeds. */
  lemma CreateAndReturnWellOrdered(c: Collaborators, domainObject: Obj, invoker: Option<Invoker>, returnBody: bool)
    ensures WellOrdered(CreateAndReturn(c, domainObject, invoker, returnBody).trace)
  {
    if invoker.Some? && invoker.value.save(domainObject).Some? {
      var saved := invoker.value.save(domainObject).value;
      MutationWellOrdered([], BeforeCreate(domainObject), Save(domainObject), AfterCreate(saved));
    } else {
      AnnouncedWriteWellOrdered([], BeforeCreate(domainObject), Save(domainObject));
    }
  }

  /** `saveAndReturn` follows the lifecycle ordering whether or not the save succeeds. */
  lemma SaveAndReturnWellOrdered(c: Collaborators, domainObject: Obj, invoker: Option<Invoker>,
                                 httpMethod: HttpMethod, returnBody: bool)
    ensures WellOrdered(SaveAndReturn(c, domainObject, invoker, httpMethod, returnBody).trace)
  {
    if invoker.Some? && invoker.value.save(domainObject).Some? {
      var saved := invoker.value.save(domainObject).value;
      MutationWellOrdered([], BeforeSave(domainObject), Save(domainObject), AfterSave(saved));
    } else {
      AnnouncedWriteWellOrdered([], BeforeSave(domainObject), Save(domainObject));
    }
  }

  /** A DELETE follows the lifecycle ordering whether or not the delete succeeds. */
  lemma DeleteWellOrdered(info: ResourceInformation, id: Id, eTag: ETag)
    ensures WellOrdered(DeleteItemResource(info, id, eTag).trace)
  {
    var o := DeleteItemResource(info, id, eTag);
    if Supports(info, DELETE, ITEM) && info.invoker.Some? && info.invoker.value.findById(id).Some? {
      var it := info.invoker.value.findById(id).value;
      assert Deletes(info, id, it);
      if eTag.Verifies(info.persistentEntity, it) {
        var key := info.persistentEntity.identifier(it);
        if info.invoker.value.deleteById(key) {
          MutationWellOrdered([FindById(id)], BeforeDelete(it), DeleteById(key), AfterDelete(it));
        } else {
          AnnouncedWriteWellOrdered([FindById(id)], BeforeDelete(it), DeleteById(key));
        }
      }
    }
  }

  /**
   * Whatever the request, every write comes right after the Before event
   * announcing it, and every After event right after its write.
   */
  lemma EveryRequestWellOrdered(info: ResourceInformation, c: Collaborators, request: Request)
    ensures WellOrdered(Handle(info, c, request).trace)
  {
    match request
    case CollectionPost(payload, accept) =>
      CreateAndReturnWellOrdered(c, payload.content, info.invoker, c.returnBodyOnCreate(accept));
    case ItemPut(payload, id, eTag, accept) =>
      CreateAndReturnWellOrdered(c, payload.content, info.invoker, c.returnBodyOnCreate(accept));
      SaveAndReturnWellOrdered(c, payload.content, info.invoker, PUT, c.returnBodyOnUpdate(accept));
    case ItemPatch(payload, id, eTag, accept) =>
      SaveAndReturnWellOrdered(c, payload.content, info.invoker, PATCH, c.returnBodyOnUpdate(accept));
    case ItemDelete(id, eTag) =>
      DeleteWellOrdered(info, id, eTag);
    case _ =>
  }
}
