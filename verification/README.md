# A verified model of the generic repository REST controller

This project models the request-dispatch and conditional-response logic of a
Spring Data REST application. One controller serves every exported
repository under `/api/{repository}` and `/api/{repository}/{id}`, whatever
the entity type. For each verb and resource shape (collection or item) the
model states which method check runs, which outcome is chosen (404, 405, 412,
201, 200, 204 or 304), which body and headers are attached, and the exact
order of lifecycle events and repository calls around each mutation.

The Spring machinery underneath is kept abstract. The persistent entity's
type check, identifier accessor and ETag comparison, the headers preparer,
the self-link provider, the URI-template expansion, the link assemblers, the
repository invoker and the body-on-create/update configuration are
function-valued fields of records that the caller supplies (`collaborators.dfy`).
Every property holds for all of them. Apart from `save` and `deleteById`,
these functions are total and cannot fail (see "Left out").

Files and modules:

- `options.dfy` (`Options`): the optional value used for `Optional` and nullable references.
- `http.dfy` (`Http`): methods, resource shapes, statuses, header maps, the
  response entity, and the `Allow` header with its round trip.
- `controller_utils.dfy` (`ControllerUtils`): the response-building helpers.
- `collaborators.dfy` (`Collaborators`): the abstract framework collaborators
  and the request's `ETag`. A missing tag (`NoETag`) never matches on
  If-None-Match and always passes on If-Match.
- `resource_status.dfy` (`ResourceStatus`): the conditional-GET decision.
  Also a reference decision after RFC 7232 and lemmas comparing the two.
- `controller.dfy` (`Controller`): the handlers. Each returns an `Outcome`: a
  response or a failure, plus the trace of published events and invoker calls.
  `Handle` routes a request to its handler and states the guarantees that
  hold for every request.
- `controller_lemmas.dfy` (`ControllerLemmas`): properties relating handlers to one another.

How failures and collaborators are represented:

- An exception thrown by the handler is a `Failure`:
  - `HttpRequestMethodNotSupportedException` is `MethodNotSupported`;
  - `ResourceNotFoundException` is `ResourceNotFound`;
  - `ETagDoesntMatchException` is `ETagDoesntMatch`;
  - anything else (a null invoker, a failing save or delete, a failed type
    assertion) is `ServerError`.
- `Failure.ToStatus` maps them to 405, 404, 412 and 500.
- A `save` that throws is the invoker returning `None`; a `deleteById` that throws returns `false`.
- A null invoker is `None`.

Behaviour of the code worth knowing:

- A PUT of a new payload to a repository that does not allow PUT-for-creation
  fails with `MethodNotSupported` (405), as `verifyPutForCreation` throws the
  method-not-supported exception.
- `createAndReturn` always returns the saved object as the 201 body.
  `returnBodyOnCreate` only decides whether the ETag and Last-Modified headers
  are prepared from the resource (`ReturnBodyOnCreateShapesOnlyHeaders`).
- HEAD on an item always answers 204 for a found object. It never evaluates
  If-None-Match, so it never answers 304, and it does not check the object's
  type, which GET does (`HeadMirrorsGet`).
- A collection GET without paging always reads through `findAll(sort)`, with
  whatever sort the request resolved to. There is no separate unsorted read.
- PUT and PATCH never read the path id. The payload alone decides what is
  saved (`PathIdIgnoredByUpdates`).

The conditional GET differs from sections 3.2, 3.3 and 6 of RFC 7232 in three
ways, each shown by a lemma against the reference predicate `RfcNotModified`:

- only the first If-None-Match tag is consulted (`LaterTagsIgnored`);
- `*` is compared like an ordinary tag (`WildcardIsAnOrdinaryTag`);
- If-Modified-Since is consulted even when If-None-Match is present
  (`DateOverridesFailedTags`).

`AgreesWithRfc` proves that the decision is the RFC's when If-None-Match is
absent, or lists one tag that is not `*` and that either matches or is not
overruled by the date check. `AgreesWithRfcUnlessDeparting` characterises all
cases: the decision and the RFC's differ exactly when If-None-Match lists tags
and either the date check passes although no tag is `*` or matches, or the
date check fails and the first tag does not match although some tag is `*` or
matches (`DepartsFromRfc`).

## Model

| member | source | states |
|---|---|---|
| `Http.AllowRoundTrip` | src/main/java/com/datarest/demo/web/CustomRepositoryRestController.java:95 | the `Allow` header written for a set of methods reads back as exactly that set |
| `Controller.OptionsForCollectionResource` | src/main/java/com/datarest/demo/web/CustomRepositoryRestController.java:89-98 | 200, no body, only an `Allow` header, whose methods are exactly the collection's supported methods |
| `Controller.OptionsForItemResource` | src/main/java/com/datarest/demo/web/CustomRepositoryRestController.java:193-203 | 200, no body, `Allow` exactly the item's supported methods, `Accept-Patch` exactly merge-patch, json-patch and plain JSON |
| `Controller.HeadCollectionResource` | src/main/java/com/datarest/demo/web/CustomRepositoryRestController.java:108-127 | HEAD on the collection is checked first (405), a null invoker gives 404, otherwise 204 with only the `Link` header; the invoker is never called |
| `Controller.GetCollectionResource` | src/main/java/com/datarest/demo/web/CustomRepositoryRestController.java:139-160 | GET on the collection is checked before any call (405), a null invoker gives 404, otherwise exactly one find-all, by page when paging is present and by sort otherwise, and its results are the 200 body |
| `Controller.PostCollectionResource` | src/main/java/com/datarest/demo/web/CustomRepositoryRestController.java:172-184 | POST on the collection is checked before anything (405 with an empty trace); otherwise the payload goes through the create path with the body-on-create setting for the Accept header |
| `Controller.LookupItem` | src/main/java/com/datarest/demo/web/CustomRepositoryRestController.java:438-444 | GET on the item is checked before the lookup; a null invoker fails before any call; otherwise exactly one find-by-id whose answer is returned |
| `Controller.HeadForItemResource` | src/main/java/com/datarest/demo/web/CustomRepositoryRestController.java:214-229 | HEAD on an item checks GET on the item; a null invoker is a server error (500) before any call, since the lookup dereferences it unchecked; a missing id is 404 after one lookup; a present one gives 204, no body, the prepared headers with the object's links appended to `Link`; nothing is published or written |
| `Controller.GetItemResource` | src/main/java/com/datarest/demo/web/CustomRepositoryRestController.java:239-253 | a null invoker is a server error (500) before any call, since the lookup dereferences it unchecked; a missing id is 404; a found object outside the entity's type is a server error (500); an object of that type gives the prepared headers and 304 without body exactly when the first If-None-Match tag matches or the object is still valid, else 200 with the object; nothing is published or written |
| `Controller.PutItemResource` | src/main/java/com/datarest/demo/web/CustomRepositoryRestController.java:267-288 | the PUT check, then the PUT-for-creation check for a new payload, then the If-Match check, all before any event or write; a stale If-Match after the first two checks pass is 412 with an empty trace; a new payload takes the create path (201), an existing one the save path with `PUT`; success always carries `Location` |
| `Controller.PatchItemResource` | src/main/java/com/datarest/demo/web/CustomRepositoryRestController.java:304-321 | the PATCH check and the If-Match check come before any event or write; then the save path with `PATCH`, whose headers are the prepared headers without `Location` |
| `Controller.DeleteItemResource` | src/main/java/com/datarest/demo/web/CustomRepositoryRestController.java:334-356 | a missing id is 404 after one lookup with no event; a failed If-Match is 412 with no event or delete; otherwise lookup, BeforeDelete, delete by the object's own identifier, AfterDelete, then 204 with no body; a failing delete publishes no AfterDelete |
| `Controller.SaveAndReturn` | src/main/java/com/datarest/demo/web/CustomRepositoryRestController.java:366-388 | BeforeSave of the input, save, AfterSave of the saved object, in that order; a missing invoker stops after BeforeSave and a failing save after the save, with no AfterSave; `Location` only for PUT; 200 with the saved object when a body is asked for, else 204 without body |
| `Controller.CreateAndReturn` | src/main/java/com/datarest/demo/web/CustomRepositoryRestController.java:397-413 | BeforeCreate of the input, save, AfterCreate of the saved object, in that order; a missing invoker stops after BeforeCreate and a failing save after the save, with no AfterCreate; always 201 with the saved object as body and `Location` set to its expanded self link |
| `Controller.AddLocationHeader` | src/main/java/com/datarest/demo/web/CustomRepositoryRestController.java:423-427 | `Location` becomes exactly the expanded self link of the object and no other header changes |
| `ControllerLemmas.AnnouncedWriteWellOrdered` | src/main/java/com/datarest/demo/web/CustomRepositoryRestController.java:372-374 | reads followed by a Before event and the write it announces form a well-ordered lifecycle trace, also when cut short before the write |
| `ControllerLemmas.MutationWellOrdered` | src/main/java/com/datarest/demo/web/CustomRepositoryRestController.java:349-351 | reads, a Before event, its write and the After event closing it form a well-ordered lifecycle trace |
| `ControllerLemmas.CreateAndReturnWellOrdered` | src/main/java/com/datarest/demo/web/CustomRepositoryRestController.java:397-413 | every trace of `createAndReturn`, succeeding or failing, is well ordered |
| `ControllerLemmas.SaveAndReturnWellOrdered` | src/main/java/com/datarest/demo/web/CustomRepositoryRestController.java:366-388 | every trace of `saveAndReturn`, succeeding or failing, is well ordered |
| `ControllerLemmas.DeleteWellOrdered` | src/main/java/com/datarest/demo/web/CustomRepositoryRestController.java:334-356 | every trace of a DELETE, whichever check fails, is well ordered |
| `ControllerLemmas.EveryRequestWellOrdered` | src/main/java/com/datarest/demo/web/CustomRepositoryRestController.java:89-356 | for every request, every write comes right after the Before event announcing it and every After event right after its write |
| `Controller.Handle` | src/main/java/com/datarest/demo/web/CustomRepositoryRestController.java:89-356 | for every request: an unsupported verb/shape fails with 405 and an empty trace; a 412 leaves nothing published or written; an After event means success, given that the collaborators other than `save` and `deleteById` do not fail; OPTIONS always succeeds without calls |
| `ControllerLemmas.PutOfNewPayloadIsPost` | src/main/java/com/datarest/demo/web/CustomRepositoryRestController.java:276-287 | once its checks pass, a PUT of a new payload is indistinguishable from a POST of it |
| `ControllerLemmas.PatchIsPutWithoutLocation` | src/main/java/com/datarest/demo/web/CustomRepositoryRestController.java:379-381 | on an existing payload PATCH and PUT have the same trace, status and body; PUT's headers are PATCH's plus `Location` |
| `ControllerLemmas.HeadMirrorsGet` | src/main/java/com/datarest/demo/web/CustomRepositoryRestController.java:219-252 | HEAD and GET on an item make the same lookup; when HEAD fails GET fails the same way; GET also fails (500) on an object outside the entity's type, where HEAD answers 204, and that is the only case where they differ; when GET succeeds HEAD is 204 with GET's headers plus the object's links |
| `ControllerLemmas.HeadCollectionMirrorsGet` | src/main/java/com/datarest/demo/web/CustomRepositoryRestController.java:112-159 | when both verbs are supported on the collection, HEAD fails exactly when GET fails and with the same failure; HEAD calls nothing, GET makes exactly one find-all; HEAD has no body where GET has the found objects |
| `ControllerLemmas.ReturnBodyOnCreateShapesOnlyHeaders` | src/main/java/com/datarest/demo/web/CustomRepositoryRestController.java:406-412 | asking for a body on create changes neither the trace, nor the 201 status, nor the body, nor `Location` |
| `ControllerLemmas.PathIdIgnoredByUpdates` | src/main/java/com/datarest/demo/web/CustomRepositoryRestController.java:267-321 | PUT and PATCH answer the same whatever id the path carries |
| `ControllerLemmas.StaleIfMatchNeverMutates` | src/main/java/com/datarest/demo/web/CustomRepositoryRestController.java:276-351 | a PUT, PATCH or DELETE whose If-Match tag does not match fails and publishes and writes nothing |
| `ControllerLemmas.DeleteUsesObjectIdentifier` | src/main/java/com/datarest/demo/web/CustomRepositoryRestController.java:347-351 | a successful DELETE's trace is lookup, BeforeDelete, delete by the found object's identifier, AfterDelete |
| `ResourceStatus.IfNoneMatchTag` | src/main/java/com/datarest/demo/web/ResourceStatus.java:46-47 | no If-None-Match value gives the no-ETag sentinel; otherwise the tag is the first listed value |
| `ResourceStatus.ResourceStatus.GetStatusAndHeaders` | src/main/java/com/datarest/demo/web/ResourceStatus.java:35-55 | requires the object to be an instance of the entity's type; not modified iff the first If-None-Match tag matches or the preparer finds the object still valid; headers are the prepared headers in both outcomes |
| `ResourceStatus.NotModified` | src/main/java/com/datarest/demo/web/ResourceStatus.java:74-76 | the result reports not modified and keeps the given headers |
| `ResourceStatus.Modified` | src/main/java/com/datarest/demo/web/ResourceStatus.java:78-80 | the result reports modified and keeps the given headers |
| `ResourceStatus.StatusAndHeaders.ToResponseEntity` | src/main/java/com/datarest/demo/web/ResourceStatus.java:89-94 | modified: 200 with the supplier's value as body; otherwise 304 with no body; the same headers either way |
| `ResourceStatus.AgreesWithRfc` | src/main/java/com/datarest/demo/web/ResourceStatus.java:46-54 | with no If-None-Match, or one non-wildcard tag that matches or is not overruled by the date check, the decision is RFC 7232's |
| `ResourceStatus.AgreesWithRfcUnlessDeparting` | src/main/java/com/datarest/demo/web/ResourceStatus.java:46-54 | for every request, the decision equals the RFC 7232 reference exactly when it is not a departure: tags listed and the date check passing with no tag `*` or matching, or the date check failing with the first tag not matching but some tag `*` or matching |
| `ResourceStatus.LaterTagsIgnored` | src/main/java/com/datarest/demo/web/ResourceStatus.java:46-47 | a matching tag in second place does not produce 304 although RFC 7232 would |
| `ResourceStatus.WildcardIsAnOrdinaryTag` | src/main/java/com/datarest/demo/web/ResourceStatus.java:47-52 | `If-None-Match: *` does not produce 304 unless the comparator accepts `*`, although RFC 7232 would |
| `ResourceStatus.DateOverridesFailedTags` | src/main/java/com/datarest/demo/web/ResourceStatus.java:52-54 | a still-valid date gives 304 even when every If-None-Match tag fails, where RFC 7232 would answer 200 |
| `ResourceStatus.RevalidationIsNotModified` | src/main/java/com/datarest/demo/web/ResourceStatus.java:46-54 | re-sending a matching tag gives 304, no body, and exactly the headers of an unconditional request |
| `ControllerUtils.ToResponseEntity` | src/main/java/com/datarest/demo/web/CustomControllerUtils.java:11-21 | status passes through; an absent header object gives empty headers, otherwise a copy of them; the body is the optional's content or absent |
| `ControllerUtils.ToResponseEntityOf` | src/main/java/com/datarest/demo/web/CustomControllerUtils.java:32-40 | requires headers; status and headers pass through and the body is exactly the resource |
| `ControllerUtils.ToEmptyResponse` | src/main/java/com/datarest/demo/web/CustomControllerUtils.java:48-50 | the given status, no headers, no body |
| `ControllerUtils.ToEmptyResponseWith` | src/main/java/com/datarest/demo/web/CustomControllerUtils.java:59-61 | the given status and headers (empty when absent), no body |
| `ControllerUtils.AbsentHeadersAreEmpty` | src/main/java/com/datarest/demo/web/CustomControllerUtils.java:14-18 | a missing header object gives the same response as an empty one |
| `ControllerUtils.PayloadFormDelegates` | src/main/java/com/datarest/demo/web/CustomControllerUtils.java:39 | the payload form equals the optional form with the payload present |
| `ControllerUtils.EmptyResponseDelegates` | src/main/java/com/datarest/demo/web/CustomControllerUtils.java:48-50 | the status-only empty response equals the empty response with a fresh empty header object, and with no header object |

## Left out

- ETag derivation and comparison, the headers preparer (ETag, Last-Modified,
  `isObjectStillValid`), the self-link provider, URI-template expansion, the
  item link assembler, and the body-on-create/update configuration are
  uninterpreted. They are arbitrary functions supplied by the caller.
- `getCollectionResourceLinks` and `getDefaultSelfLink` (the request's self
  link, the profile link and the optional search link) are framework link
  building. The `Link` value of a collection HEAD is one opaque string. For
  that reason the pageable argument of the collection HEAD, used only there,
  is not modelled.
- Payload deserialization and PATCH merging happen in the framework's argument
  resolution. That includes the 404 for a PATCH to an unknown id, which is
  raised before the handler runs. The handlers receive the resolved object and
  its "new" flag.
- Event listeners and their failures are framework event dispatch. Publishing
  only appends to the trace.
- The link provider, the URI-template expansion, the headers preparer, the
  resource assemblers and the invoker's reads (`findAll`, `findById`) are
  modelled as never failing. In the code, `toFullResource`, `prepareHeaders`,
  `createSelfLinkFor` and `UriTemplate.expand` run after AfterSave or
  AfterCreate is published. If one of them threw, the request would fail after
  an After event. `Handle`'s promise that an After event means success depends
  on these calls not failing. Only `save` and `deleteById` may fail.
- The mapping of exceptions to responses is the framework's. `Failure.ToStatus`
  gives the standard codes. The `Allow` header of a 405 is not modelled.
- The repository is not modelled as state across requests. Each invoker call
  is a function of its argument, so sequences of requests (create, then read,
  then delete) are not modelled.
- Header names are compared exactly rather than case-insensitively.
- `Allow` is modelled as a list of method tokens, in the fixed order GET, HEAD,
  POST, PUT, PATCH, DELETE, OPTIONS, TRACE. It is not one comma-joined string,
  and the Java set's iteration order is not modelled.
- If-None-Match arrives already split into its listed tags. The comma-splitting
  of `getIfNoneMatch` is not modelled.
- Null arguments do not exist in Dafny. The `Assert.notNull` checks of
  `getStatusAndHeaders` and of `toResponseEntity(status, headers, resource)` on
  status and resource hold by typing. The check on headers is the
  `headers.Some?` precondition.
- The supplier passed to `toResponseEntity` is a pure function. Whether it is
  called on a 304 is not observable in the model.
- Concurrency and transactions are not modelled. The controller holds no
  shared state and manages no transactions.
- The configuration classes, the data seeder, the JPA entities and the
  repository interface are not part of this model. They hold no request logic.
