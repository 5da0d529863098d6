/**
 * The framework collaborators the controller delegates to, reduced to their
 * interfaces. Their behaviour is not modelled: each one is an arbitrary
 * function supplied by the caller, so every property proved about the
 * controller holds whatever these functions compute.
 */
module Collaborators {
  import opened Options
  import opened Http

  /** A domain object of the exported repository, as the persistence layer hands it out. */
  type Obj(==, !new)

  /** A backend identifier, as found in the request path or read from an object. */
  type Id(==)

  /** Paging and sorting parameters of a collection request. */
  type Pageable(==)
  type Sort(==)

  /** The persistent entity describing the repository's domain type. */
  datatype PersistentEntity = PersistentEntity(
    /** whether an object is an instance of the entity's domain type */
    isInstance: Obj -> bool,
    /** the identifier an object carries */
    identifier: Obj -> Id,
    /** whether a tag read from a request header equals the ETag derived from the object's current state */
    tagMatches: (string, Obj) -> bool)

  /** A request's entity tag; `NoETag` stands for a request that sent none. */
  datatype ETag = NoETag | Tag(value: string) {

    /** `ETag.matches`: the sentinel never matches. */
    predicate Matches(entity: PersistentEntity, o: Obj)
    {
      Tag? && entity.tagMatches(value, o)
    }

    /** `ETag.verify`: the sentinel imposes no precondition; a tag must match the object. */
    predicate Verifies(entity: PersistentEntity, o: Obj)
    {
      NoETag? || entity.tagMatches(value, o)
    }
  }

  /** `HttpHeadersPreparer`: the ETag and Last-Modified headers of an object and the If-Modified-Since check. */
  datatype HeadersPreparer = HeadersPreparer(
    /** the ETag and Last-Modified headers of an object of the given entity */
    prepareHeaders: (PersistentEntity, Obj) -> Headers,
    /** the same headers prepared from an object's full resource, or none when no resource is given */
    prepareResourceHeaders: Option<Obj> -> Headers,
    /** whether the request's If-Modified-Since date shows the client's copy of the object is current */
    isObjectStillValid: (Obj, Headers) -> bool)

  /** How a collection is read: one page of it, or all of it in some order. */
  datatype Query = ByPage(pageable: Pageable) | BySort(sort: Sort)

  /**
   * `RepositoryInvoker`. A `save` or `deleteById` that throws is `None`/`false`;
   * a successful `save` returns the saved object.
   */
  datatype Invoker = Invoker(
    findAll: Query -> seq<Obj>,
    findById: Id -> Option<Obj>,
    save: Obj -> Option<Obj>,
    deleteById: Id -> bool)

  /** `RootResourceInformation`: the resolved repository a request addresses. */
  datatype ResourceInformation = ResourceInformation(
    /** the methods the repository exports for a resource shape */
    supportedMethods: ResourceType -> set<HttpMethod>,
    /** whether a PUT may create an object that does not exist yet */
    allowsPutForCreation: bool,
    /** the repository invoker, absent when the repository has none */
    invoker: Option<Invoker>,
    persistentEntity: PersistentEntity)

  /** A response body: one object, or the objects of a collection. */
  datatype Body = Entity(obj: Obj) | Entities(objs: seq<Obj>)

  /** A deserialized request body: the object to store and whether it is new. */
  datatype Payload = Payload(content: Obj, isNew: bool)

  /** Everything else the controller is wired with. */
  datatype Collaborators = Collaborators(
    headersPreparer: HeadersPreparer,
    /** the address of an object's own self link, as the link provider builds it */
    selfLink: Obj -> string,
    /** a link address with its template variables expanded, as it goes into `Location` */
    expandTemplate: string -> string,
    /** the links of an object's item representation, rendered as one `Link` value */
    itemLinks: Obj -> string,
    /** the self link of the request followed by the collection's profile and search links, as one `Link` value */
    collectionLinks: string,
    /** whether the configuration asks for a body on create, given the request's `Accept` header */
    returnBodyOnCreate: Option<string> -> bool,
    /** whether the configuration asks for a body on update, given the request's `Accept` header */
    returnBodyOnUpdate: Option<string> -> bool)
}
