# Deferred SOAP query builder — a Dafny model

This project models the fluent query builder of `sfmc-ts` that sits over a
marketing platform's SOAP Data Extension API. A façade per data extension
offers `get(fields, options)`, `create({fields})` and `delete()`. `get`
returns a get-stage builder with no filters. Its `where` starts a
where-stage builder over a new one-element filter array. A where-stage
`where` pushes onto that same array and returns the same object. Nothing is
sent until a builder is awaited. Awaiting calls `execute()`, which sends
exactly one backend `get({fields, filters, options})` and caches nothing.

Files and modules:

- `filters.dfy` (`Filters`): the operator union `SoapOperator`, the filter
  record, and the operator's run-time string (`Wire`) with its inverse
  (`Classify`).
- `soap_client.dfy` (`SoapClient`): the backend collaborator
  `DataExtensionSoap`. It records every call it receives in `log`, and each
  call returns `Pending(i)`, where `i` is the call's position in the log.
- `query_builder.dfy` (`QueryBuilders`): the classes `FilterList` (the
  shared JS array), `GetBuilder`, `WhereBuilder` and `QueryBuilder` (the
  façade), and the two proxy factories. Awaiting is the explicit method
  `Resolve`, which stands for the intercepted `then` hook and runs `Execute`
  once.
- `properties.dfy` (`Properties`): clients that create their own backend,
  run a sequence of builder calls, and state in their postconditions what
  the backend received, for all inputs.

The builder does no run-time validation. The operator union and
`AtLeastOnePrimaryKey` are TypeScript type-level constraints, and an empty
field list is passed on. The operator, the field list and the create record
reach the backend unchanged. `delete()` calls the backend `delete()` with no
arguments and reads no filter state of the façade.

## Model

| member | source | states |
|---|---|---|
| `Filters.Wire` | src/utils/soap/soap-query-builder.ts:4-27 | each literal member of the union is, at run time, one of the 22 listed strings; the imported operator is its own string |
| `Filters.Classify` | src/utils/soap/soap-query-builder.ts:4-27 | a string is read back as the imported operator exactly when it is none of the listed literals |
| `Filters.WireClassify` | src/utils/soap/soap-query-builder.ts:4-27 | every run-time operator string is the run-time form of the member it is read back as |
| `Filters.ClassifyWire` | src/utils/soap/soap-query-builder.ts:4-27 | every member is recovered from its run-time string, unless an imported operator spells a listed literal |
| `Filters.WireInjective` | src/utils/soap/soap-query-builder.ts:4-27 | two members whose imported names spell no listed literal have the same run-time string if and only if they are the same member |
| `QueryBuilders.FilterList.Push` | src/utils/soap/soap-query-builder.ts:144 | the array `push` appends exactly one filter at the end, in place |
| `QueryBuilders.GetBuilder.constructor` | src/utils/soap/soap-query-builder.ts:65-73 | the get stage holds the given client, fields and options and a new empty filter array |
| `QueryBuilders.GetBuilder.Where` | src/utils/soap/soap-query-builder.ts:75-86 | returns a new where stage with the same client, fields and options and a new list holding exactly the one filter; the get stage and the backend are untouched |
| `QueryBuilders.GetBuilder.Execute` | src/utils/soap/soap-query-builder.ts:88-94 | appends exactly one backend `get` of the current fields, filters and options to the log |
| `QueryBuilders.GetBuilder.Resolve` | src/utils/soap/soap-query-builder.ts:108-115 | awaiting the get stage runs `execute` once: one more backend `get`, answered by a new pending reply |
| `QueryBuilders.CreateGetProxy` | src/utils/soap/soap-query-builder.ts:97-116 | builds a fresh get stage over exactly the given fields and options, with empty filters |
| `QueryBuilders.WhereBuilder.constructor` | src/utils/soap/soap-query-builder.ts:127-137 | the where stage holds the given client, fields and options and the given filter array by reference |
| `QueryBuilders.WhereBuilder.Where` | src/utils/soap/soap-query-builder.ts:139-146 | appends exactly one filter at the end of the shared list and returns the same object; fields, options and the backend are untouched |
| `QueryBuilders.WhereBuilder.Execute` | src/utils/soap/soap-query-builder.ts:148-154 | appends exactly one backend `get` of the current fields, filters and options to the log |
| `QueryBuilders.WhereBuilder.Resolve` | src/utils/soap/soap-query-builder.ts:170-177 | awaiting the where stage runs `execute` once: one more backend `get`, answered by a new pending reply |
| `QueryBuilders.CreateWhereProxy` | src/utils/soap/soap-query-builder.ts:157-178 | builds a fresh where stage that shares the caller's filter array rather than copying it |
| `QueryBuilders.QueryBuilder.constructor` | src/utils/soap/soap-query-builder.ts:38-40 | the façade keeps the backend client it is given |
| `QueryBuilders.QueryBuilder.Get` | src/utils/soap/soap-query-builder.ts:181-183 | returns a fresh get stage with exactly these fields and options and no filters, and sends nothing |
| `QueryBuilders.QueryBuilder.Create` | src/utils/soap/soap-query-builder.ts:185-191 | forwards the record unchanged in exactly one backend `create` |
| `QueryBuilders.QueryBuilder.Delete` | src/utils/soap/soap-query-builder.ts:193-195 | sends exactly one backend `delete` with no arguments |
| `Properties.ResolveChain` | src/utils/soap/soap-query-builder.ts:75-154 | for any fields, options and filters `f1..fn`, and any choice of the steps after which the latest builder reference is awaited, building `get(F).where(f1)...where(fn)` sends exactly one `get` per intermediate await, carrying the filters appended so far (`Sent`); resolving the first where-stage reference at the end then sends one more `get` whose fields are `F` and whose filters are `[f1..fn]` in call order (`[]` when n = 0) |
| `Properties.SentIsEmpty` | src/utils/soap/soap-query-builder.ts:75-154 | building a chain sends nothing exactly when no step is awaited: the `where` calls themselves never reach the backend |
| `Properties.SentArePrefixes` | src/utils/soap/soap-query-builder.ts:139-154 | every intermediate request has fields `F` and options `O` and carries a non-empty prefix of the chain's filters in call order, and later requests carry strictly longer prefixes |
| `Properties.AliasesShareFilters` | src/utils/soap/soap-query-builder.ts:139-146 | a where stage and the object its `where` returns are the same; resolving either sees every filter appended through the other, including appends made after an earlier resolve |
| `Properties.GetBranchesIndependent` | src/utils/soap/soap-query-builder.ts:75-86 | two `where` calls on one get stage produce two distinct builders over distinct lists; appending to one changes neither the other nor the get stage's empty filters |
| `Properties.ResolveTwice` | src/utils/soap/soap-query-builder.ts:170-177 | resolving the same builder twice sends two identical `get` requests and yields two different pending replies; nothing is memoised |
| `Properties.CreateThenDelete` | src/utils/soap/soap-query-builder.ts:185-195 | `create` then `delete` send exactly a `create` with the record unchanged and then an argument-less `delete`, and no `get` |

## Left out

- The JS `Proxy` and `Reflect.get` interception and the Promise / `async` mechanics (lines 108-115 and 170-177). Awaiting is the explicit `Resolve` method. Accesses to other properties are not modelled because they only forward to the builder.
- The SOAP client `SfmcDataExtensionSoap` and its wire format (`./soap-client` is not part of this model). The backend is a recorder of calls, and replies are pending tokens. The rows, acknowledgements and errors that the backend delivers are not modelled, and neither is their propagation.
- The contents of `SoapFilterOperator` (`./soap-filter`) and `ISoapGetOptions` (`sfmc-ts`) are not part of this model. They are kept opaque as `Imported(name)` and `GetOptions(settings)`.
- `AtLeastOnePrimaryKey` is a type-level constraint in a file that is not part of this model. No runtime check happens in the builder, so `create` forwards any `FieldRecord`.
- The façade's own `fields`, `filters` and `options` slots, inherited from `SoapQueryBuilderBase`, are never read or written by `SoapQueryBuilder`, so the façade class holds only the client.
- The get stage keeps the caller's own `fields` array and `options` object by reference (lines 71-72), passes them on by reference to the where stage and puts them into every request. If the caller changes that array or object before awaiting, the source's request changes with it. The model holds them as values (`seq<string>`, `Option<GetOptions>`) fixed at `get`, so it does not capture such a change.
- Requests carry operators as `SoapOperator` values, not as run-time strings. The log therefore tells `Imported("equals")` and `Equals` apart, although both are the string "equals" at run time. `Filters.Wire` relates the two views, and `Filters.ClassifyWire` and `Filters.WireInjective` hold only for imported names that spell none of the listed literals.
- `QueryBuilders.GetBuilder.Execute` and `QueryBuilders.WhereBuilder.Execute`: the source puts the builder's own filter array into the request object by reference. The model records the list's value at the time of the call, so a later `where` on the builder does not show up in a request that was already logged.
- `example/index.ts` loads environment variables and prints a sample result. It has no logic of its own.
