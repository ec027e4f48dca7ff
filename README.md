# Astarte message hub end-to-end test, modelled in Dafny

The end-to-end test of the Astarte message hub starts a hub and a device node. It then
drives one fixed scenario against them.

1. It waits until the hub lists the six test interfaces.
2. It publishes a fixture record from the device:
   - as one aggregate object;
   - as fourteen individual values on a datastream interface;
   - as fourteen individual values on a property interface;
   - then it unsets every property.

   After each step it asks the Astarte inspection API, with a bounded retry, whether the
   data arrived.
3. It makes the API publish the same fixture towards the device. It checks that every
   publication reaches the node as exactly one event with the right interface, path and
   payload.
4. It closes the node.

This project models the pure data of the test and its sequential driver logic.

- **Pure data** (`interfaces.dfy`, module `Interfaces`):
  - the catalogue of fourteen endpoints;
  - the six interface names the hub must report, and the two additional ones;
  - the interface wrappers' `name()` and `path()`;
  - the `Data` record with its default fixture;
  - the conversion of a record to the SDK's aggregate object, and the strict decoding
    back (`deny_unknown_fields`, no optional fields).
- **Driver logic** (`main.rs`):
  - `driver.dfy`: the bounded `retry` loop and the `"/" + endpoint` path format;
  - `discovery.dfy`: the discovery check, which sorts the reported names in place
    (insertion sort on an array) and compares them with the expected list;
  - `device.dfy`: the device phases of `send_device_data`, with their remove-and-send
    loops, the unset loop and the retried checks. `send_device_data` is modelled as
    written: both individual checks are asked about the emptied object (see "Findings");
    the corrected phase is modelled and proved beside it;
  - `server.dfy`: the loops of `receive_server_data`, one event consumed per publication;
  - `sequencer.dfy`: `e2e_test`, which runs these stages in order and stops at the first
    failure.
- **Supporting modules**:
  - `results.dfy` holds the shared result types;
  - `ordering.dfy` holds Rust's `str` order, which is lexicographic by Unicode scalar
    value, and the uniqueness of a sorted arrangement.

How the model represents the test's collaborators:

- **Errors and panics.** An error returned with `?` or `bail!`/`ensure!` is `Error(kind)`,
  and `retry` tries again after it. A failed `assert_eq!` is `Panic(check)`: it unwinds
  through `retry` and ends the run.
- **Collaborators as inputs.** The device client, the inspection API and the node's event
  stream are never called. Their answers are inputs indexed by call number:
  - the client accepts its `n`-th call when `clientOk(n)` holds;
  - the API's answer to the `i`-th attempt of a check is `aggregatePolls(i)`,
    `individualChecks(name, object, i)` or `propertyPolls(i)`;
  - the `n`-th received event is `events(n)`.
- **Barrier.** The barrier is counted (`waits`), not synchronised.
- **Library iteration order.** The iteration order of the SDK's `AstarteObject` is an
  input sequence that lists each key once.

`retry` ends with `bail!("to many attempts")`, which carries no cause; the model's
`TooManyAttempts` carries nothing either.

## Model

| member | source | states |
|---|---|---|
| Interfaces.EndpointsCatalog | e2e-test/src/interfaces.rs:54-69 | `ENDPOINTS` has exactly fourteen entries, pairwise distinct, so its key set has fourteen elements |
| Interfaces.WrapperConstants | e2e-test/src/interfaces.rs:72-89 | the name lists are the wrappers' `name()` constants in order; `path()` is `"/sendor_1"` for both aggregates and absent for the other wrappers; every name carries the common prefix |
| Interfaces.DeviceAggregateBeforeDeviceDatastream | e2e-test/src/interfaces.rs:36-37 | the first interface name sorts strictly before the second |
| Interfaces.DeviceDatastreamBeforeDeviceProperty | e2e-test/src/interfaces.rs:37-38 | the second interface name sorts strictly before the third |
| Interfaces.DevicePropertyBeforeServerAggregate | e2e-test/src/interfaces.rs:38-39 | the third interface name sorts strictly before the fourth |
| Interfaces.ServerAggregateBeforeServerDatastream | e2e-test/src/interfaces.rs:39-40 | the fourth interface name sorts strictly before the fifth |
| Interfaces.ServerDatastreamBeforeServerProperty | e2e-test/src/interfaces.rs:40-41 | the fifth interface name sorts strictly before the sixth |
| Interfaces.InterfaceNamesAscending | e2e-test/src/interfaces.rs:35-42 | `INTERFACE_NAMES` is strictly ascending in Rust's `str` order, hence sorted and free of duplicates |
| Interfaces.AdditionalNamesDisjoint | e2e-test/src/interfaces.rs:49-52 | neither additional interface name is one of the six expected names, and the two differ |
| Interfaces.FieldsAreEndpoints | e2e-test/src/interfaces.rs:247-268 | the record's field names after `rename_all = "snake_case"`, in declaration order, are `ENDPOINTS` in order, so the key set is the endpoint set |
| Interfaces.NamesInjective | e2e-test/src/interfaces.rs:250-268 | no two fields share a key |
| Interfaces.Get | e2e-test/src/interfaces.rs:250-268 | each field's value is tagged with the Astarte type its declared Rust type maps to |
| Interfaces.ToAggregate | e2e-test/src/interfaces.rs:247-268 | the aggregate object of a record has exactly the endpoint keys, each holding that field's value with its declared type |
| Interfaces.FromAggregate | e2e-test/src/interfaces.rs:247-269 | decoding succeeds exactly when the keys are the endpoint set and every field has its declared type; extra keys are refused with the set of unknown keys; otherwise the error names a field that is missing or mistyped |
| Interfaces.RoundTrip | e2e-test/src/interfaces.rs:247-269 | decoding the aggregate of any record gives that record back |
| Interfaces.DecodeOnlyAggregate | e2e-test/src/interfaces.rs:247-269 | an object that decodes to a record is that record's aggregate |
| Interfaces.DecodeExact | e2e-test/src/interfaces.rs:247-269 | an object decodes to `d` if and only if it is the aggregate of `d` |
| Interfaces.DefaultFixture | e2e-test/src/interfaces.rs:271-294 | the fixture's arrays have lengths 3, 4, 2, 3, 2, 2, 2, and its 64-bit integers lie outside the 32-bit range |
| Ordering.SortedUnique | e2e-test/src/main.rs:131-139 | two sorted sequences with the same elements are equal, so an unstable sort of a permutation of `INTERFACE_NAMES` yields `INTERFACE_NAMES` |
| Driver.Retry | e2e-test/src/main.rs:103-120 | `retry` calls the closure at most `times` times; every call but the last returned an error; it returns the first outcome that is not an error (a success or a panic), else "to many attempts" after exactly `times` calls; with `times = 0` it calls nothing |
| Driver.RetrySucceeds | e2e-test/src/main.rs:108-119 | `retry` succeeds if and only if some call within the budget succeeds and every call before it returned an error |
| Driver.RetryWithoutPanics | e2e-test/src/main.rs:108-119 | when no call panics, `retry` succeeds if and only if one of the first `times` calls succeeds |
| Driver.EndpointPath | e2e-test/src/main.rs:190 | the path of an endpoint is `/` followed by the endpoint |
| Driver.EndpointPathInjective | e2e-test/src/main.rs:190 | distinct endpoints get distinct paths |
| Discovery.SortUnstable | e2e-test/src/main.rs:132 | the in-place sort leaves the array sorted and a permutation of what it held |
| Discovery.InterfacesMatch | e2e-test/src/main.rs:131-139 | the sorted copy is a sorted permutation of the report; the comparison passes if and only if it equals `INTERFACE_NAMES`, which holds if and only if the report is a permutation of `INTERFACE_NAMES` |
| Discovery.MatchesRejects | e2e-test/src/main.rs:130-143 | a report of the wrong length, with a duplicated name, with a missing name or with an extra name fails the check |
| Discovery.DiscoveryAttempt | e2e-test/src/main.rs:130-142 | one attempt passes if and only if the API answered and its list is a permutation of `INTERFACE_NAMES`; every failure is an error, so it is retried |
| Discovery.Discover | e2e-test/src/main.rs:130-143 | discovery passes if and only if one of the first twenty attempts passes; it stops at the first one that passes; otherwise it fails with "to many attempts" after twenty attempts |
| DeviceSide.SendIndividuals | e2e-test/src/main.rs:185-194 | the `i`-th request sends the value removed for `ENDPOINTS[i]` at `"/" + ENDPOINTS[i]`, in order; the loop passes if and only if each endpoint is still in the map when reached and the client accepts every send; then the map left is the aggregate minus every endpoint and the barrier was waited once per send; a missing key stops it with "endpoint not found", a refused send with a client error and no wait |
| DeviceSide.UnsetEach | e2e-test/src/main.rs:235-244 | the `i`-th request unsets `"/" + ENDPOINTS[i]`; the loop passes if and only if every endpoint is a key of the map and the client accepts every unset, with one barrier wait per accepted unset |
| DeviceSide.AggregateCheck | e2e-test/src/main.rs:171-181 | an attempt passes if and only if the API answered and the last published object is the fixture; an empty list is "missing data" (retried), a different last object is a panic |
| DeviceSide.PropertyCheck | e2e-test/src/main.rs:246-251 | an attempt passes if and only if the API reports an empty property set; any failure is retried |
| DeviceSide.ExpectedRequests | e2e-test/src/main.rs:159-244 | a complete device run makes `1 + 3·14` client calls |
| DeviceSide.FixtureAvailable | e2e-test/src/main.rs:185-187 | on the fixture's aggregate every endpoint is still present when the loop reaches it, so the loop never reports "endpoint not found" |
| DeviceSide.AggregatePhase | e2e-test/src/main.rs:160-182 | the aggregate is published as the client's call 0, followed by one barrier wait; the phase passes if and only if the client accepts it and the retried check sees the fixture without a panic before |
| DeviceSide.IndividualPhase | e2e-test/src/main.rs:184-208 | corrected form, not used by `SendDeviceData`: the requests are a prefix of the planned sends, all of them on success; the object handed to the check is the whole fixture and holds every value sent; the phase passes if and only if the client accepts all fourteen sends and the check passes within ten attempts |
| DeviceSide.IndividualPhaseAsWritten | e2e-test/src/main.rs:184-208 | as written: the requests are a prefix of the planned sends, all of them once the loop completes; then the object handed to `check_individual` is empty; the phase passes if and only if the loop completes and the check of the empty object passes within ten attempts; the barrier is waited once per accepted send |
| DeviceSide.NothingLeft | e2e-test/src/main.rs:196-208 | removing every endpoint from a record's aggregate leaves the empty map |
| DeviceSide.UnsetPhase | e2e-test/src/main.rs:234-252 | the requests are a prefix of the planned unsets, all of them on success; the phase passes if and only if the client accepts all fourteen unsets and the API reports no property within ten attempts |
| DeviceSide.SendDeviceData | e2e-test/src/main.rs:159-255 | the client only ever receives a prefix of the planned calls; the phase passes if and only if every call is accepted and all four checks pass, the two individual checks being asked about the emptied object as the code does; then all `1 + 3·14` calls were made and the barrier was waited `1 + 3·14` times; in every outcome the barrier is waited once per accepted call |
| ServerSide.AggregateStep | e2e-test/src/main.rs:260-273 | the aggregate step passes if and only if the API accepts the publication and the event is on `ServerAggregate`, at `/sendor_1`, carrying the fixture's aggregate; a non-object payload is an error or a panic |
| ServerSide.IndividualStep | e2e-test/src/main.rs:277-287 | a value step passes if and only if the API accepts the publication and the event is on the phase's interface, at `"/" + k`, carrying `v` as an individual value |
| ServerSide.UnsetStep | e2e-test/src/main.rs:306-314 | an unset step passes if and only if the API accepts the unset and the event is on `ServerProperty`, at `"/" + k`, carrying the unset marker; any other received event panics |
| ServerSide.ReceiveIndividuals | e2e-test/src/main.rs:276-288 | the publications are a prefix of the planned ones, all of them on success: the `i`-th is the `i`-th entry in iteration order; the loop passes if and only if every step passes, each against its own event; otherwise it fails with the first failing step's outcome |
| ServerSide.ReceiveUnsets | e2e-test/src/main.rs:305-315 | the unsets are a prefix of the planned ones, all of them on success: the `i`-th unset is the `i`-th key; each key is checked against exactly one event; the loop passes if and only if every step passes, otherwise it fails with the first failing step's outcome |
| ServerSide.PlannedInjections | e2e-test/src/main.rs:258-318 | the publications of a complete server run are the aggregate fixture first, then one per key of each of the three loops, in that loop's order |
| ServerSide.PublicationOfStep | e2e-test/src/main.rs:276-315 | each loop has fourteen steps; the publication of step `DatastreamStart + i`, `PropertyStart + i` or `UnsetStart + i` is the `i`-th entry or key of that loop, so every event is checked against the publication made just before it |
| ServerSide.ReceiveServerData | e2e-test/src/main.rs:258-318 | the API is only ever asked for a prefix of the planned publications, so the aggregate comes first and the loops follow in order; the phase passes if and only if the aggregate step and every step of the three loops pass; then it made all `1 + 3·14` planned publications |
| EndToEnd.E2eTest | e2e-test/src/main.rs:123-156 | the run passes if and only if discovery, the device phase, the server phase and `node.close()` all pass; nothing reaches the device client before discovery passes; nothing is published by the API before the device phase passes; the client and the API only ever receive prefixes of their plans, and on success all of both plans (`1 + 3·14` publications); the device phase is the one the code runs, with both individual checks asked about the emptied object |

## Left out

- The `tokio` runtime, `main`'s task set (`JoinSet`) and the cancellation handling are
  left out: their point is concurrency. The `Barrier` is counted, not synchronised.
- The `api`, `device_sdk`, `message_hub` and `utils` modules are not part of this model.
  They are network and process I/O, so their answers are inputs. What `check_individual`
  compares on the server is unknown, so its answer is an input function of the object
  it is given.
- `env_filter`, tracing, `color_eyre`, `tempdir`, the `debug!`/`error!` logging and
  `retry`'s `yield_now` are left out: they are environment and logging plumbing.
- The `include_str!` JSON interface schemas and the `INTERFACES`/`ADDITIONAL_INTERFACES`
  lists that hold them are left out: they are opaque blobs.
- The serde codecs (`long_integer`, `blob`, the array variants) are left out. So are
  base64 decoding (section 4 of RFC 4648) and RFC 3339 timestamp parsing. The fixture
  holds their decoded results: the bytes of "hello", and milliseconds since the epoch.
- `f64` values are opaque bit patterns compared by equality. There is no float
  arithmetic. Rust's `==` on `f64` differs from bit equality only for NaN (never equal to
  itself) and for `-0.0 == 0.0`; every comparison in this code is against a fixture value,
  which is neither NaN nor zero, so no outcome changes.
- `msghub.close()` returns nothing and is left out.
- Interfaces.ToAggregate: the conversion is total in the model. The code's
  `astarte_aggregate()?` / `into_object()` error branch is not represented, because the
  SDK conversion is not part of this model.
- Interfaces.FromAggregate: which error comes first when several are possible is a
  modelling choice. Unknown keys come first, then the first bad field in declaration
  order. Serde's own order depends on the input's key order, which the map does not keep.
- DeviceSide.AggregatePhase: the API's answer is taken as already decoded into records.
  The decoding inside `aggregate_value` belongs to the `api` module.
- ServerSide.ReceiveServerData: requires that each iteration order lists the fixture's
  keys once each. That is what iterating an `AstarteObject` yields; the model takes it as
  given rather than modelling the library type.
- EndToEnd.E2eTest: carries the same requirement on the three iteration orders.
- DeviceSide.SendDeviceData: composes the phases as written. The corrected phase
  `DeviceSide.IndividualPhase` is proved on its own; no corrected `send_device_data` is
  composed from it, so the end-to-end contract describes the code as it runs.

## Findings

| source | as written | input that shows it | evidently intended | confidence | as-written member | corrected member |
|---|---|---|---|---|---|---|
| e2e-test/src/main.rs:196-208 | the retried check clones `data` after the send loop has removed every endpoint from it | any run in which the datastream loop completes: the map is empty after the fourteen removals, so `check_individual` is asked about `{}` | ask the check about the fixture that was sent (clone before the loop) | not executed; high that the object is empty, unknown what the check then accepts | DeviceSide.IndividualPhaseAsWritten | DeviceSide.IndividualPhase |
| e2e-test/src/main.rs:222-232 | the same clone-after-removal for the property interface | any run in which the property loop completes: `check_individual` is asked about `{}` | ask the check about the property fixture that was sent | not executed; high that the object is empty, unknown what the check then accepts | DeviceSide.IndividualPhaseAsWritten | DeviceSide.IndividualPhase |
