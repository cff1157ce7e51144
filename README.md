# OpenAssetIO Manager binding: batch guard and existence-flag conversion

This project models the logic that the Python binding of OpenAssetIO's
`hostApi::Manager` adds on top of the Manager itself:

- **Traits-data validation.** `validateTraitsDatas` rejects a batch of
  `TraitsData` handles that contains a `None` (null) element. It raises
  `InputValidationException("Traits data cannot be None")`.
- **Guarded batch wrappers.** The batch forms of `getWithRelationships`,
  `preflight` and `register` run that validation before calling the
  Manager. So a malformed batch never reaches the manager backend. When
  validation passes, the arguments go to the Manager unchanged and its
  answer comes back unchanged.
- **Existence-flag conversion.** `pyBoolListFromUintVector` turns the
  Manager's `std::vector<BoolAsUint>` existence flags into a Python list
  of booleans, index by index ("non-zero is true"). The batch
  `entityExists` forms with no policy tag and with the Exception tag
  return exactly that converted list.

Modules:

- `Wrappers`: `Option`, `Result` and `Outcome`. A raised exception is
  modelled as a `Failure`/`Fail` value.
- `Trait`: `TraitsData` and `TraitSet`.
- `OpenAssetIO`: entity references, contexts, access modes and page sizes.
  These are values the binding only forwards.
- `Errors`: the exceptions that reach Python.
- `HostApi`: the Manager as an abstract backend. `Manager<Reply>` keeps a
  log `calls` with one `Request` per backend invocation, oldest first. It
  holds two answer functions (`answer`, `existence`) that map the earlier
  requests and the current one to the reply. So a `register` may change
  what a later query returns. "No backend call" is `calls == old(calls)`.
- `ManagerBinding`: the validator, the converter and the wrappers.

The C++ overloads that select an error policy by a tag type become one
wrapper per operation. Each wrapper takes a runtime `Delivery` value:

- `DefaultPolicy`: no tag.
- `ExceptionPolicy`: the Exception tag.
- `VariantPolicy`: the Variant tag.
- `CallbackPolicy(success, error)`: the callback form.

The getWithRelationships, preflight and register wrappers' contracts
hold for every `Delivery` value. `EntityExists` covers only
`DefaultPolicy` and `ExceptionPolicy`, the two forms that convert.

For a callback form, the Manager's reply stands for the callback invocations it made;
the Python-visible result of those forms is `None`. In the model only the
Manager ever triggers a callback. So the wrappers' contract also shows
that a rejected batch triggers no callback.

The binding does not check that the references and the traits data have
equal lengths (ManagerBinding.cpp:29-37), and the model imposes no length
relation.

## Model

| member | source | states |
|---|---|---|
| ManagerBinding.AnyOf | src/openassetio-python/cmodule/src/hostApi/ManagerBinding.cpp:33-34 | `std::any_of` scanning the batch is true if and only if some element satisfies the predicate |
| ManagerBinding.ValidateTraitsDatas | src/openassetio-python/cmodule/src/hostApi/ManagerBinding.cpp:29-37 | validation fails if and only if some element is `None`, and the failure is `InputValidationException("Traits data cannot be None")`; it passes if and only if every element is present, so the empty batch passes |
| ManagerBinding.BoolsFromUints | src/openassetio-python/cmodule/src/hostApi/ManagerBinding.cpp:42-44 | the converted list has the input's length, and element `i` is `input[i] != 0` |
| ManagerBinding.BoolsFromUintsRoundTrip | src/openassetio-python/cmodule/src/hostApi/ManagerBinding.cpp:43 | flags made from booleans by the C++ bool-to-integer conversion read back as exactly those booleans |
| ManagerBinding.BoolListFromUintVector | src/openassetio-python/cmodule/src/hostApi/ManagerBinding.cpp:39-46 | the append loop returns a list of the input's length, index-aligned with the input, with element `i` equal to `input[i] != 0` |
| ManagerBinding.EntityExists | src/openassetio-python/cmodule/src/hostApi/ManagerBinding.cpp:200-217 | the default and Exception batch forms make one backend call with the arguments as given; they return the converted form of the Manager's flags, or the Manager's exception unchanged |
| ManagerBinding.GetWithRelationships | src/openassetio-python/cmodule/src/hostApi/ManagerBinding.cpp:434-495 | in every delivery form: a `None` relationship traits data gives `InputValidationException` and zero backend calls; otherwise exactly one backend call with the arguments unchanged, and the Manager's result is returned as is |
| ManagerBinding.Preflight | src/openassetio-python/cmodule/src/hostApi/ManagerBinding.cpp:496-509 | in every delivery form: a `None` traits hint gives `InputValidationException` and zero backend calls; otherwise exactly one backend call with the arguments unchanged, and the Manager's result is returned as is (also lines 535-568) |
| ManagerBinding.Register | src/openassetio-python/cmodule/src/hostApi/ManagerBinding.cpp:569-582 | in every delivery form: a `None` traits data gives `InputValidationException` and zero backend calls; otherwise exactly one backend call with the arguments unchanged, and the Manager's result is returned as is (also lines 610-646) |

## Left out

- The pybind11 registration surface is not modelled. This covers the
  `.def` overload tables and the keyword names. It does not model that the
  last batch `register` overload is registered with singular keyword names
  (`entityReference`, `entityTraitsData`). It also covers
  `py::arg(...).none(false)`, default arguments such as
  `resultTraitSet = TraitSet{}`, and the enum and tag-class exports. All of
  this is foreign-library declaration.
- GIL handling (`gil_scoped_acquire`, `gil_scoped_release`) is not
  modelled. It concerns interpreter concurrency only.
- The Manager's error-policy semantics are not modelled. This means its
  Exception, Variant and callback delivery, capability checks and
  per-element outcomes (Manager.cpp is not part of this model). The
  Manager is an abstract oracle whose answers are passed through.
- Overloads that hand their arguments straight to the Manager, with no
  validation or conversion, are not modelled. These are `resolve`,
  `entityTraits`, `getWithRelationship`, `defaultEntityReference`, the
  single-element `preflight` and `register`, the Variant and callback
  `entityExists`, and the rest of the Manager API. They contain no
  binding logic.
- The width of `Manager::BoolAsUint` is not visible (Manager.hpp is not
  part of this model). The model takes an unsigned byte. The conversion
  depends only on zero versus non-zero.
- The contents of exceptions raised inside the Manager are not modelled.
  They are represented as `ManagerException` and propagate unchanged.
- The contents of `TraitsData` are not modelled. The binding only checks
  each element for presence and forwards it, so a trait-data value is an
  abstract token.
- The identity of a `TraitsDataPtr` is not modelled. The caller and the
  Manager share the pointed-to object; the model reduces it to a value,
  so aliasing between them is not captured.
- The Python-visible result of the callback forms is not modelled
  (ManagerBinding.cpp:442-445, 503-505, 576-578). Those wrappers return
  `None` to Python. In the model their result is the Manager's reply,
  which stands for the callback invocations the Manager made.
- The Manager's state is reduced to the log of requests it received.
  Its answers are a fixed function of that log and the current request.
  The model does not constrain how they depend on it.
- Access modes and contexts are opaque tokens. Their enumerators and
  state belong to headers that are not part of this model.
- The Python list that `pyBoolListFromUintVector` builds in place is
  modelled as a sequence that the loop extends. The list object's
  identity is not modelled.
- managerApi/Host.cpp is not modelled. It only forwards `identifier`,
  `displayName` and `info` to the host interface.
- The DR007 decision-record snippets are not modelled. They are
  illustrative documentation.
