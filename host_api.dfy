/**
 * The Manager as the Python binding sees it (hostApi::Manager): an
 * external backend whose answers are taken as given. Its batch dispatch
 * and error-policy engine is not modelled; each call is recorded in a
 * log, so that callers can state how often, and with what, the backend
 * was invoked, and so that its answers may depend on earlier calls.
 */
module HostApi {
  import opened Wrappers
  import opened Trait
  import opened OpenAssetIO
  import opened Errors

  /** Manager::BoolAsUint: one existence flag, carried as an unsigned byte. */
  newtype BoolAsUint = x: int | 0 <= x < 0x100

  /** A Python callable handed to the Manager as a callback; stands for its identity. */
  datatype Callback = Callback(handle: nat)

  /**
   * How the caller asks for per-element errors to be delivered: the
   * overload chosen in C++ by the BatchElementErrorPolicyTag argument, or
   * by passing a success and an error callback.
   */
  datatype Delivery =
    | DefaultPolicy
    | ExceptionPolicy
    | VariantPolicy
    | CallbackPolicy(successCallback: Callback, errorCallback: Callback)

  /** One batch invocation of the Manager, with every argument it receives. */
  datatype Request =
    | EntityExistsRequest(
        entityReferences: seq<EntityReference>,
        context: Context,
        delivery: Delivery)
    | GetWithRelationshipsRequest(
        entityReference: EntityReference,
        relationshipTraitsDatas: seq<Option<TraitsData>>,
        pageSize: PageSize,
        relationsAccess: RelationsAccess,
        context: Context,
        resultTraitSet: TraitSet,
        delivery: Delivery)
    | PreflightRequest(
        entityReferences: seq<EntityReference>,
        traitsHints: seq<Option<TraitsData>>,
        publishingAccess: PublishingAccess,
        context: Context,
        delivery: Delivery)
    | RegisterRequest(
        entityReferences: seq<EntityReference>,
        entityTraitsDatas: seq<Option<TraitsData>>,
        publishingAccess: PublishingAccess,
        context: Context,
        delivery: Delivery)

  /**
   * An abstract Manager. `answer` gives what a batch call returns (or the
   * exception it raises) and `existence` what a batch entityExists call
   * returns. Both depend on the requests the Manager received before, so a
   * register may change what a later query returns. For a callback-form
   * request the reply stands for the callback invocations the Manager made
   * during the call. `calls` is the log of every backend invocation, oldest
   * first; it stands for the backend's state.
   */
  class Manager<Reply> {
    const answer: (seq<Request>, Request) -> Result<Reply, Exception>
    const existence: (seq<Request>, Request) -> Result<seq<BoolAsUint>, Exception>
    var calls: seq<Request>

    constructor (answer: (seq<Request>, Request) -> Result<Reply, Exception>,
                 existence: (seq<Request>, Request) -> Result<seq<BoolAsUint>, Exception>)
      ensures this.answer == answer && this.existence == existence
      ensures calls == []
    {
      this.answer := answer;
      this.existence := existence;
      calls := [];
    }

    /** Invokes the backend for a preflight, register or relationship request. */
    method Invoke(request: Request) returns (r: Result<Reply, Exception>)
      requires !request.EntityExistsRequest?
      modifies this
      ensures calls == old(calls) + [request]
      ensures r == answer(old(calls), request)
    {
      r := answer(calls, request);
      calls := calls + [request];
    }

    /** Invokes the backend's batch entityExists. */
    method EntityExists(request: Request) returns (r: Result<seq<BoolAsUint>, Exception>)
      requires request.EntityExistsRequest?
      modifies this
      ensures calls == old(calls) + [request]
      ensures r == existence(old(calls), request)
    {
      r := existence(calls, request);
      calls := calls + [request];
    }
  }
}
