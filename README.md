# Ladon networking: the Result envelope and the error taxonomy

This project models the two pieces of the Ladon networking layer that hold
behaviour. The first is the `Result` envelope that every `HttpClient`
operation returns. The second is the exception hierarchy that a failed
`Result` carries. Both are written in Dafny and proved.

- `wrappers.dfy` (module `Wrappers`): `Option`, Python's `X | None`.
- `errors.dfy` (module `Errors`): one constant of `ErrorKind` per exception
  class. `Parent` gives the base class each class statement names.
  `IsSubclass` is Python's `issubclass`, and `Mro` is the method resolution
  order within the taxonomy. `ClientError` is the subset of kinds that are
  `HttpClientError`s: the parameter type of `Err`.
- `types.dfy` (module `Types`):
  - `Meta<V>` is the metadata dictionary. It is a heap object, so it can be
    shared or changed in place.
  - `Result<T, E, V>` is the frozen dataclass. Its `value`, `error` and
    `meta` fields are `const`. `IsOk` is the `ok` property.
  - `OrEmpty` models `meta or {}`. `Ok` and `Err` are the smart constructors.
  - Three client methods state facts about the default metadata factory and
    about aliasing: `DefaultMetasAreIndependent`, `NonEmptyMetaIsShared` and
    `EmptyMetaIsReplaced`.

Two facts about the code are worth stating up front:
- Nothing in the dataclass constructor stops a Result from holding both a
  value and an error, and `ok` looks only at the error (`OkIgnoresValue`).
- `meta or {}` does not copy a non-empty mapping, so the caller and the
  Result share it (`NonEmptyMetaIsShared`); an empty mapping is replaced by a
  new one (`EmptyMetaIsReplaced`).

The lemmas about the MRO and about `issubclass` being a partial order
(`MroDepths`, `MroHasNoDuplicates`, `SubclassIffInMro`, `SubclassTransitive`,
`SubclassAntisymmetric`) are context: they describe how Python resolves the
class statements of the taxonomy, not promises the source makes itself.

## Model

| member | source | states |
|---|---|---|
| `Errors.Parent` | src/ladon/networking/errors.py:4-21 | Only `Exception` has no base. Every base is one inheritance step shallower. A kind has base `HttpClientError` exactly when it is one of the four specific kinds. |
| `Errors.IsSubclass` | src/ladon/networking/errors.py:4-21 | Python's `issubclass` over the taxonomy: every class is a subclass of itself and of `Exception`, and a superclass is never deeper than its subclass. `SubclassIffInMro` ties it to MRO membership. |
| `Errors.IsHttpClientError` | src/ladon/networking/errors.py:4-21 | The "is-a `HttpClientError`" test holds for every kind errors.py declares except the bare `Exception`. It defines the type `ClientError`, the parameter type of `Err`; `HttpClientErrorKinds` lists those kinds. |
| `Errors.Mro` | src/ladon/networking/errors.py:4-21 | The MRO starts with the class itself and ends with `Exception`. Its length is the depth plus one. Each entry is the base of the entry before it. |
| `Errors.MroDepths` | src/ladon/networking/errors.py:4-21 | The i-th MRO entry lies exactly i inheritance steps above the class. |
| `Errors.MroHasNoDuplicates` | src/ladon/networking/errors.py:4-21 | No MRO lists a class twice. |
| `Errors.SubclassIffInMro` | src/ladon/networking/errors.py:4-21 | `issubclass(a, b)` holds if and only if `b` is in `a`'s MRO. |
| `Errors.SubclassDepth` | src/ladon/networking/errors.py:4-21 | A subclass is never shallower than its superclass. It is equally deep only when the two are the same class. |
| `Errors.SubclassTransitive` | src/ladon/networking/errors.py:4-21 | `issubclass` is transitive. |
| `Errors.SubclassAntisymmetric` | src/ladon/networking/errors.py:4-21 | Two classes that are subclasses of each other are the same class. |
| `Errors.ExceptionIsRoot` | src/ladon/networking/errors.py:4-5 | Every kind is an `Exception`. `Exception` is a subclass only of itself. `HttpClientError`'s direct base is `Exception`. |
| `Errors.SpecificKindsAreHttpClientErrors` | src/ladon/networking/errors.py:8-21 | Circuit-open, robots-blocked, request-timeout and retryable each have `HttpClientError` as their direct base. Each is therefore an `HttpClientError` and an `Exception`. |
| `Errors.SpecificKindsAreSiblings` | src/ladon/networking/errors.py:8-21 | Among the four specific kinds, one is a subclass of another only when they are the same kind. |
| `Errors.HttpClientErrorKinds` | src/ladon/networking/errors.py:4-21 | A kind is an `HttpClientError` if and only if it is `HttpClientError` itself or one of the four specific kinds. These are the kinds errors.py declares that `Err`'s parameter type `ClientError` admits. |
| `Types.Meta.constructor` | src/ladon/networking/types.py:22-25 | A new metadata mapping is a freshly allocated, empty dictionary. |
| `Types.Meta.Set` | tests/test_result.py:41 | `meta[key] = x` adds or overwrites that one entry and leaves the rest unchanged. |
| `Types.Result.constructor` | src/ladon/networking/types.py:28-38 | Value and error are stored as given. An explicit meta is stored as the same object. An omitted meta becomes a fresh empty mapping for each Result. |
| `Types.OkIgnoresValue` | src/ladon/networking/types.py:36-44 | `ok` (the predicate `Result.IsOk`) is true exactly when the error is absent, and depends on the error alone. A Result with neither value nor error is ok. A Result with both is not ok. |
| `Types.OrEmpty` | src/ladon/networking/types.py:50 | `meta or {}` returns a non-empty mapping as the same object. A missing or empty mapping becomes a fresh empty one. |
| `Types.Ok` | src/ladon/networking/types.py:47-50 | The result is a new Result with the given value, no error, and ok true. Its meta is the caller's non-empty mapping, or else a fresh empty mapping. |
| `Types.Err` | src/ladon/networking/types.py:53-58 | For every `ClientError` kind, the result is a new Result with no value, exactly that error, and ok false. Its meta is the caller's non-empty mapping, or else a fresh empty mapping. |
| `Types.DefaultMetasAreIndependent` | tests/test_result.py:37-43 | Build two Results with default metadata and write a key into the first one's mapping. The key is then in the first mapping and absent from the second. |
| `Types.NonEmptyMetaIsShared` | src/ladon/networking/types.py:47-58 | Pass a non-empty mapping to `Ok` and to `Err`. A later write through the caller's reference shows up in both Results' metadata. |
| `Types.EmptyMetaIsReplaced` | src/ladon/networking/types.py:47-58 | Pass an empty mapping to `Ok` and to `Err`. A later write through the caller's reference leaves both Results' metadata empty. |

## Left out

- The exception message and `args` that a Python exception carries are not modelled: an error is represented by its class alone.
- Object identity of exceptions (`result.error is error`) is modelled as equality of error kinds. Two distinct instances of the same class are therefore indistinguishable here.
- Python's `BaseException` and `object`, above `Exception` in the real MRO, are not part of this model: `Exception` is the root.
- Types.Ok: stores `Some(value)`, so it does not model Python conflating `Ok(None)` with an absent value.
- Types.Result.constructor: `None` for `meta` means "argument omitted". Passing `meta=None` explicitly, which Python would store as `None`, is not modelled.
- Frozen fields are modelled by `const`, which makes reassignment a static error. Python instead raises `FrozenInstanceError` at run time.
- The `TypeVar` bound on the error type (`E` bound to `BaseException`) is not modelled; `E` is an unconstrained type parameter.
- `HttpClient.get`, `head`, `post` and `download` in src/ladon/networking/client.py are not modelled. They only raise `NotImplementedError`, and no retry, rate-limit, circuit-breaker or robots logic exists to model.
- `HttpClientConfig` in src/ladon/networking/config.py is not modelled: it is a record with no behaviour.
- The package `__init__` files are not modelled: they hold only re-exports and a version string.
- The taxonomy is closed: subclasses of `HttpClientError` declared elsewhere are not modelled, and `Err` is modelled at its annotated parameter type, which Python does not enforce.
- Types.Result: the frozen dataclass's generated field-wise `__eq__`, and its `__hash__`, which raises `TypeError` because `meta` is a dict, are not modelled; the Dafny class compares by reference.
- Types.Meta: a `map<string, V>` does not keep the dict's insertion order.
