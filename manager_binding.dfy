/**
 * The logic of the Python binding of hostApi::Manager: the check that a
 * batch of traits data holds no None element, the conversion of the
 * Manager's existence flags to a list of booleans, and the batch wrappers
 * that validate their traits data before handing the call to the Manager.
 */
module ManagerBinding {
  import opened Wrappers
  import opened Trait
  import opened OpenAssetIO
  import opened Errors
  import opened HostApi

  // ---------------------------------------------------------------------------
  // validateTraitsDatas
  // ---------------------------------------------------------------------------

  /** std::any_of: whether some element of `s`, scanned in order, satisfies `p`. */
  function AnyOf<T>(s: seq<T>, p: T -> bool): (r: bool)
    ensures r <==> exists i :: 0 <= i < |s| && p(s[i])
  {
    if s == [] then false else p(s[0]) || AnyOf(s[1..], p)
  }

  /** std::logical_not applied to a TraitsDataPtr: true exactly of a null pointer. */
  predicate IsNull(traitsData: Option<TraitsData>) {
    traitsData.None?
  }

  /** Whether a batch of traits data holds a None element. */
  predicate HasNullElement(traitsDatas: seq<Option<TraitsData>>) {
    exists i :: 0 <= i < |traitsDatas| && IsNull(traitsDatas[i])
  }

  /**
   * validateTraitsDatas: raises InputValidationException("Traits data
   * cannot be None") when the batch holds a None element, and returns
   * normally otherwise (in particular for the empty batch). The source
   * takes the batch by const reference; a Dafny sequence is a value, so
   * the model gives the same guarantee that the batch is left unchanged.
   */
  function ValidateTraitsDatas(traitsDatas: seq<Option<TraitsData>>): (r: Outcome<Exception>)
    ensures r.Fail? <==> HasNullElement(traitsDatas)
    ensures r.Pass? <==> !HasNullElement(traitsDatas)
    ensures r.Fail? ==> r.error == InputValidationException(kTraitsDataCannotBeNone)
  {
    if AnyOf(traitsDatas, IsNull) then
      Fail(InputValidationException(kTraitsDataCannotBeNone))
    else
      Pass
  }

  // ---------------------------------------------------------------------------
  // pyBoolListFromUintVector
  // ---------------------------------------------------------------------------

  /** The flags as booleans, index by index: zero is false, anything else true. */
  function BoolsFromUints(boolAsUints: seq<BoolAsUint>): (r: seq<bool>)
    ensures |r| == |boolAsUints|
    ensures forall i :: 0 <= i < |boolAsUints| ==> r[i] == (boolAsUints[i] != 0)
  {
    if boolAsUints == [] then [] else [boolAsUints[0] != 0] + BoolsFromUints(boolAsUints[1..])
  }

  /** How C++ turns a bool into an unsigned integer: true is 1, false is 0. */
  function UintsFromBools(bools: seq<bool>): (r: seq<BoolAsUint>)
  {
    if bools == [] then [] else [if bools[0] then 1 else 0] + UintsFromBools(bools[1..])
  }

  /** Flags produced from booleans by the C++ conversion read back as those booleans. */
  lemma {:induction false} BoolsFromUintsRoundTrip(bools: seq<bool>)
    ensures BoolsFromUints(UintsFromBools(bools)) == bools
  {
    if bools != [] {
      BoolsFromUintsRoundTrip(bools[1..]);
      assert UintsFromBools(bools)[1..] == UintsFromBools(bools[1..]);
    }
  }

  /**
   * pyBoolListFromUintVector: builds the Python list by appending one
   * boolean per flag, in order.
   */
  method BoolListFromUintVector(boolAsUints: seq<BoolAsUint>) returns (pyResult: seq<bool>)
    ensures |pyResult| == |boolAsUints|
    ensures forall i :: 0 <= i < |boolAsUints| ==> pyResult[i] == (boolAsUints[i] != 0)
    ensures pyResult == BoolsFromUints(boolAsUints)
  {
    pyResult := [];
    for i := 0 to |boolAsUints|
      invariant |pyResult| == i
      invariant forall k :: 0 <= k < i ==> pyResult[k] == (boolAsUints[k] != 0)
    {
      pyResult := pyResult + [boolAsUints[i] != 0];
    }
  }

  // ---------------------------------------------------------------------------
  // Batch wrappers
  // ---------------------------------------------------------------------------

  /**
   * Batch entityExists in the default and the Exception forms: asks the
   * Manager and converts its flags with pyBoolListFromUintVector. An
   * exception raised by the Manager propagates unchanged.
   */
  method EntityExists<Reply>(manager: Manager<Reply>, entityReferences: seq<EntityReference>,
                             context: Context, delivery: Delivery)
    returns (r: Result<seq<bool>, Exception>)
    requires delivery == DefaultPolicy || delivery == ExceptionPolicy
    modifies manager
    ensures var request := EntityExistsRequest(entityReferences, context, delivery);
            && manager.calls == old(manager.calls) + [request]
            && match manager.existence(old(manager.calls), request)
               case Success(flags) => r == Success(BoolsFromUints(flags))
               case Failure(e) => r == Failure(e)
  {
    var existence := manager.EntityExists(EntityExistsRequest(entityReferences, context, delivery));
    match existence
    case Success(flags) =>
      var pyResult := BoolListFromUintVector(flags);
      r := Success(pyResult);
    case Failure(e) =>
      r := Failure(e);
  }

  /**
   * Batch getWithRelationships, in every delivery form: validates the
   * relationship traits data, then calls the Manager with the arguments
   * as given and returns what it returns. A batch with a None element
   * raises InputValidationException and never reaches the Manager.
   */
  method GetWithRelationships<Reply>(manager: Manager<Reply>, entityReference: EntityReference,
                                     relationshipTraitsDatas: seq<Option<TraitsData>>,
                                     pageSize: PageSize, relationsAccess: RelationsAccess,
                                     context: Context, resultTraitSet: TraitSet,
                                     delivery: Delivery)
    returns (r: Result<Reply, Exception>)
    modifies manager
    ensures HasNullElement(relationshipTraitsDatas) ==>
              && r == Failure(InputValidationException(kTraitsDataCannotBeNone))
              && manager.calls == old(manager.calls)
    ensures !HasNullElement(relationshipTraitsDatas) ==>
              var request := GetWithRelationshipsRequest(entityReference, relationshipTraitsDatas,
                                                         pageSize, relationsAccess, context,
                                                         resultTraitSet, delivery);
              && manager.calls == old(manager.calls) + [request]
              && r == manager.answer(old(manager.calls), request)
  {
    var validation := ValidateTraitsDatas(relationshipTraitsDatas);
    if validation.Fail? {
      return Failure(validation.error);
    }
    r := manager.Invoke(GetWithRelationshipsRequest(entityReference, relationshipTraitsDatas,
                                                    pageSize, relationsAccess, context,
                                                    resultTraitSet, delivery));
  }

  /**
   * Batch preflight, in every delivery form: validates the traits hints,
   * then calls the Manager with the arguments as given and returns what it
   * returns. A batch with a None hint never reaches the Manager.
   */
  method Preflight<Reply>(manager: Manager<Reply>, entityReferences: seq<EntityReference>,
                          traitsHints: seq<Option<TraitsData>>,
                          publishingAccess: PublishingAccess, context: Context,
                          delivery: Delivery)
    returns (r: Result<Reply, Exception>)
    modifies manager
    ensures HasNullElement(traitsHints) ==>
              && r == Failure(InputValidationException(kTraitsDataCannotBeNone))
              && manager.calls == old(manager.calls)
    ensures !HasNullElement(traitsHints) ==>
              var request := PreflightRequest(entityReferences, traitsHints, publishingAccess,
                                              context, delivery);
              && manager.calls == old(manager.calls) + [request]
              && r == manager.answer(old(manager.calls), request)
  {
    var validation := ValidateTraitsDatas(traitsHints);
    if validation.Fail? {
      return Failure(validation.error);
    }
    r := manager.Invoke(PreflightRequest(entityReferences, traitsHints, publishingAccess,
                                         context, delivery));
  }

  /**
   * Batch register, in every delivery form: validates the traits data,
   * then calls the Manager with the arguments as given and returns what it
   * returns. A batch with a None element never reaches the Manager.
   */
  method Register<Reply>(manager: Manager<Reply>, entityReferences: seq<EntityReference>,
                         entityTraitsDatas: seq<Option<TraitsData>>,
                         publishingAccess: PublishingAccess, context: Context,
                         delivery: Delivery)
    returns (r: Result<Reply, Exception>)
    modifies manager
    ensures HasNullElement(entityTraitsDatas) ==>
              && r == Failure(InputValidationException(kTraitsDataCannotBeNone))
              && manager.calls == old(manager.calls)
    ensures !HasNullElement(entityTraitsDatas) ==>
              var request := RegisterRequest(entityReferences, entityTraitsDatas, publishingAccess,
                                             context, delivery);
              && manager.calls == old(manager.calls) + [request]
              && r == manager.answer(old(manager.calls), request)
  {
    var validation := ValidateTraitsDatas(entityTraitsDatas);
    if validation.Fail? {
      return Failure(validation.error);
    }
    r := manager.Invoke(RegisterRequest(entityReferences, entityTraitsDatas, publishingAccess,
                                        context, delivery));
  }
}
