# Model hydration and HTTP exception kinds

This project models two pieces of a TypeScript request-dispatch framework in
Dafny and proves properties of them.

**Model hydration** (`Models`, in `model.dfy`). A model subtype is a
`ModelClass` object. It holds the class-level `identifierKey` and the
type-caster and relation-hydrator registries that its property decorators
attach. Each registry is `undefined` until a decorator attaches one. A `Model`
instance holds its live `fields` and the two snapshots `rawData` and
`original`. The caller's data object is a `RawObject` whose own properties
hydration overwrites in place. `Model.Hydrate` works in five steps:

1. It snapshots the input into `rawData`.
2. It runs the caster loop over the keys the input owns.
3. It then runs the relation loop over those keys.
4. It snapshots the processed object into `original`.
5. It copies that object onto the instance.

`Model.Hydrate` is proved against the value-level specification `Processed`,
which is a cast pass followed by a relation pass. The lemmas next to
`Processed` state what hydration promises key by key. `Primary` is the
`primary` decorator. `Model.GetIdentifier` reads the field the subtype's key
names.

**HTTP exception kinds** (`HttpExceptions`, in `exceptions.dfy`). The 25
status-code-bearing exception kinds form a datatype. Each kind has a status
code and a class name. The suite requires every instance to be an
`HttpException` and an `Error`. The model places each kind directly under
`HttpException`, which is an assumption of the model (listed under Left out).
The exception suite's table is the constant `Table`, and its `forEach` is the
predicate `AllPassFrom`. It is proved that:

- every test case passes;
- the codes are pairwise distinct;
- the entries split into 4xx and 5xx at 451/500;
- `KindOf`, a lookup in the table, inverts `StatusCode`.

`wrappers.dfy` holds the shared `Option` datatype.

## Model

| member | source | states |
|---|---|---|
| `Models.Model.Hydrate` | src/common/models/model.ts:65-89 | `rawData` is the input exactly as given, before any converter runs (an absent input gives `{}`). `original` is the input after the cast pass and then the relation pass. The instance's fields are the old fields with the processed ones copied over them. The caller's object now holds the processed values. |
| `Models.Model.constructor` | src/common/models/model.ts:56-58 | A new instance is the hydration of `data` onto an instance with no fields, so its fields equal `original`. |
| `Models.RunRegistry` | src/common/models/model.ts:69-83 | One registry loop: each registered key that the object owns is overwritten in place with the converted value. Other keys are untouched, no key is added, and the result does not depend on the order in which keys are visited. |
| `Models.Applied` | src/common/models/model.ts:70-74 | One pass keeps exactly the input's keys (no default-filling). A registered key the object owns gets the converted value; keys without a converter keep theirs. |
| `Models.Processed` | src/common/models/model.ts:69-83 | The processed object owns exactly the input's keys. Each value is the relation hydrator applied to the cast value, with a missing converter acting as the identity. |
| `Models.ProcessedAt` | src/common/models/model.ts:69-83 | Per key, the processed value is `relation(caster(v))` when both are registered, `caster(v)` or `relation(v)` when one is, and `v` when neither is. A key is present after processing iff the input owns it. |
| `Models.ProcessedKeys` | src/common/models/model.ts:70-82 | Processing neither adds nor drops keys. Converters run only on owned keys. |
| `Models.ProcessedUnregistered` | src/common/models/model.ts:69-87 | When no owned key has a converter, processing returns the input unchanged, so `original` and a new instance's fields equal it. |
| `Models.Assign` | src/common/models/model.ts:87 | `Object.assign(target, source)`: the result's keys are the union of both. The source's values win, and the target's other values are kept. |
| `Models.IdentifierOf` | src/common/models/model.ts:91-94 | The identifier is present iff the field the key names exists, and it then equals that field's value. With no key set, the property read is "undefined". |
| `Models.IdentifierAfterHydration` | src/common/models/model.ts:85-94 | After hydration, the identifier is the processed value of the key field. When no converter is registered for the key, it is the raw input value. |
| `Models.IdentifierUnset` | src/common/models/model.ts:92-93 | With no identifier key set and no field named "undefined", reading the identifier does not fail and yields nothing. |
| `Models.Model.GetIdentifier` | src/common/models/model.ts:91-94 | Returns the current value of the field the subtype's key names, or nothing if that field is absent. |
| `Models.HydrationScenario` | src/common/models/model.ts:65-101 | A subtype with an `age` caster turning "42" into 42, hydrated from `{age: "42", name: ...}`: after `primary` names `age`, the identifier is 42 while `rawData` still holds "42". |
| `Models.Primary` | src/common/models/model.ts:98-101 | Afterwards the subtype's `identifierKey` is `propertyKey`, and every instance of that subtype, including existing ones, reads its identifier from field `propertyKey`. |
| `HttpExceptions.StatusCode` | src/server/exeptions/exceptions.spec.ts:33-59 | Every kind's code lies in 400..507. |
| `HttpExceptions.Parent` | src/server/exeptions/exceptions.spec.ts:67-68 | The class hierarchy is well-founded, and only `Error` has no parent. |
| `HttpExceptions.Construct` | src/server/exeptions/exceptions.spec.ts:65-70 | `new K` with no arguments is an `Error` and an `HttpException`. It is an instance of its own kind's class and of no other kind's class. It reports its kind's code, and its `name` is its constructor's name. |
| `HttpExceptions.EntryPassesIff` | src/server/exeptions/exceptions.spec.ts:65-70 | Of the four per-entry expectations, only the status code can fail. An entry passes iff it lists its kind's own code. |
| `HttpExceptions.TableEntryAgrees` | src/server/exeptions/exceptions.spec.ts:33-59 | Every table entry lists exactly the code its kind reports. |
| `HttpExceptions.AllPassFromAgreement` | src/server/exeptions/exceptions.spec.ts:61-74 | If every entry lists its kind's code, the whole `forEach` passes. |
| `HttpExceptions.SuitePasses` | src/server/exeptions/exceptions.spec.ts:61-74 | All four expectations hold for all 25 table entries. |
| `HttpExceptions.TestCasePasses` | src/server/exeptions/exceptions.spec.ts:63-72 | Each single test case, one per table entry, passes. |
| `HttpExceptions.TableCodesDistinct` | src/server/exeptions/exceptions.spec.ts:33-59 | The 25 listed codes are pairwise distinct. |
| `HttpExceptions.TableCodeClasses` | src/server/exeptions/exceptions.spec.ts:33-59 | Every listed code lies in 400..507. Entries 0-20 (up to 451) are 4xx client codes, and entries 21-24 are 5xx server codes. |
| `HttpExceptions.IndexOf` | src/server/exeptions/exceptions.spec.ts:33-59 | Every one of the 25 kinds appears in the table. |
| `HttpExceptions.Lookup` | src/server/exeptions/exceptions.spec.ts:33-59 | A found kind is listed with the code asked for. Nothing is found only when no entry lists that code. |
| `HttpExceptions.LookupFinds` | src/server/exeptions/exceptions.spec.ts:33-59 | An entry whose code no earlier entry lists is the one the lookup finds. |
| `HttpExceptions.KindOfStatusCode` | src/server/exeptions/exceptions.spec.ts:33-59 | Code-to-kind inverts kind-to-code: `KindOf(StatusCode(k)) == Some(k)`. |
| `HttpExceptions.StatusCodeOfKindOf` | src/server/exeptions/exceptions.spec.ts:33-59 | The other direction: a kind found for a code reports that code. |
| `HttpExceptions.KindOfDefinedExactly` | src/server/exeptions/exceptions.spec.ts:33-59 | Code-to-kind is defined exactly on the 25 listed codes. |
| `HttpExceptions.StatusCodeInjective` | src/server/exeptions/exceptions.spec.ts:33-59 | No two kinds share a status code. |

Notes:

- With no identifier key declared, `getIdentifier()` reads `this[undefined]`,
  the property named "undefined". The model does the same, so the result is
  nothing unless the instance owns a field named "undefined".
- `HydrationScenario` walks through one use as a caller sees it. An `age`
  caster turns "42" into 42. The raw snapshot keeps "42", the caller's object
  is overwritten, and after `Primary` the identifier is 42.

## Left out

- Models.Model.Hydrate: requires an input object whenever a registry holds a key. The code accepts a missing input (`Object.assign({}, undefined)` is `{}`), but its `hasOwnProperty` calls (src/common/models/model.ts:71, 79) throw a TypeError as soon as a registry holds a key; that failing case is not modelled. The same holds for `Models.Model.constructor`.
- HttpExceptions.Parent: that every kind extends `HttpException` directly is an assumption. The suite only asserts `instanceof HttpException` and `instanceof Error` (src/server/exeptions/exceptions.spec.ts:67-68), and the class declarations are not part of this model.
- HttpExceptions.Construct: that an instance belongs to no other kind's class follows from that assumed hierarchy, not from the suite, which does not test it.
- Caster and relation-hydrator bodies are abstract total functions `Value -> Value`. The `reference: Model` argument passed to them is dropped.
- Failure of a caster or hydrator (a throw that aborts construction) is not modelled, because the converters are total.
- Relation shape preservation (a single related model stays single, a collection keeps its length) is not modelled. Hydrators are opaque here, and the code does not check their output.
- `Collection`, `EntityNest`, `nestedEntities`, the `UUID` string wrapper, `schema` and `modelName` are not modelled, because hydration does not use them.
- The `console.log` in `primary` is left out because it is I/O.
- Static and prototype inheritance between model subtypes is not modelled. In the code, a subtype without its own `identifierKey` or registry inherits its parent's. The model gives each `ModelClass` its own.
- In the code, the instance's bookkeeping properties (`__rawData`, `__original`, `__typeCasts`, `__relations`) share one property namespace with data fields. An input key with one of those names would overwrite them in `Object.assign(this, data)`, and `this[key]` can also read methods. The model keeps the snapshots, the registries and the data fields apart.
- Shallow copies share nested objects between the input, `rawData` and `original`. Values here are immutable, so aliasing of nested objects is not captured.
- JavaScript values are simplified: numbers are integers, and there are no symbols. An own property explicitly holding `undefined` is not distinguished from an absent one.
- `hydrate` returns `this` for chaining. The model's method returns nothing.
- TypeScript subclass field initialisers, which run after the base constructor has hydrated, are not modelled.
- `src/server/exeptions/exceptions.ts` is not part of this model. The kinds, codes and names come from its test suite. Constructor arguments such as a message are not modelled, because the suite constructs every kind without arguments. A kind's code therefore depends on nothing but the kind.
- `src/server/services/database.service.ts` is left out because it is connection and logging plumbing (I/O).
- `src/server/services/remoteCli.service.mock.ts` is left out because it is a test mock with no behaviour.
- The route pipeline exercised by `src/server/middleware/debugLog.middleware.spec.ts` is left out. Its implementation is not part of this model.
