# Manufacturer verification registry

A model of the manufacturer-verification contract of a luxury-goods
authentication system, as its behaviour is fixed by the contract mock in
`tests/manufacturer-verification.test.ts`. The registry holds one
administrator and a set of verified manufacturers. Only the administrator
may add a manufacturer (error 100 otherwise, 101 if it is already
verified), remove one (100, or 102 if it is not verified) or hand the
administrator role to another principal (100). Anyone may ask whether a
manufacturer is verified. Every mutating entry point checks the admin
first, then membership, and changes the state only when every check has
passed.

The project has two modules:

- `RegistryState` (`registry_state.dfy`): the registry as a pure state
  machine. `State` holds `admin` and `verified`. Each entry point is a
  function from a state, a caller and an argument to a `Response` (`Ok(true)`
  or `Err(code)`) and the next state. `Run` applies a sequence of calls. The
  lemmas state what holds of single calls and of whole call sequences.
- `ManufacturerVerification` (`registry.dfy`): the contract state as the
  mock keeps it, a `Registry` object whose `admin` and `verified` fields the
  methods update in place. Each mutating method is proved to return the
  response and leave the state that the matching `RegistryState` function
  prescribes, so the lemmas about the functions hold of the object too.
  `TestCases` replays the five test cases against fresh objects.

Principals are an abstract type `Identity` compared by equality. The caller
is an explicit parameter of every entry point. In the mock, `isAdmin`
compares the admin with a fixed ambient sender. The unit values stored in
the mock's `Map` are dropped, because only key membership is ever observed.

## Model

| member | source | states |
|---|---|---|
| `ManufacturerVerification.Registry.constructor` | tests/manufacturer-verification.test.ts:9-12 | a new registry has its creator as admin and no verified manufacturer, as the state is reset before each test |
| `ManufacturerVerification.Registry.IsAdmin` | tests/manufacturer-verification.test.ts:16 | reads only: true exactly when the caller is the current admin |
| `ManufacturerVerification.Registry.IsVerifiedManufacturer` | tests/manufacturer-verification.test.ts:44-46 | reads only, no authorisation: true exactly when the identity is in the verified set |
| `ManufacturerVerification.Registry.AddManufacturer` | tests/manufacturer-verification.test.ts:18-29 | the response and the new fields are those `RegistryState.AddManufacturer` gives for the old fields |
| `ManufacturerVerification.Registry.RemoveManufacturer` | tests/manufacturer-verification.test.ts:31-42 | the response and the new fields are those `RegistryState.RemoveManufacturer` gives for the old fields |
| `ManufacturerVerification.Registry.TransferAdmin` | tests/manufacturer-verification.test.ts:48-55 | the response and the new fields are those `RegistryState.TransferAdmin` gives for the old fields |
| `ManufacturerVerification.TestCases` | tests/manufacturer-verification.test.ts:67-95 | on fresh registries: add succeeds and makes the target verified; a second add gives 101; remove after add succeeds and unverifies; remove of an absent target gives 102; transfer succeeds and sets the admin |
| `RegistryState.AddManufacturer` | tests/manufacturer-verification.test.ts:18-29 | err 100 exactly when the caller is not admin; err 101 exactly when the admin adds a verified target; ok(true) otherwise; on error nothing changes; on success the target is verified, the admin is kept and every other identity keeps its status |
| `RegistryState.RemoveManufacturer` | tests/manufacturer-verification.test.ts:31-42 | err 100 exactly when the caller is not admin; err 102 exactly when the admin removes an unverified target; ok(true) otherwise; on error nothing changes; on success the target is unverified, the admin is kept and every other identity keeps its status |
| `RegistryState.TransferAdmin` | tests/manufacturer-verification.test.ts:48-55 | err 100 exactly when the caller is not admin, with nothing changed; otherwise ok(true), the admin becomes `newAdmin` whoever it is, and the verified set is kept |
| `RegistryState.Run` | tests/manufacturer-verification.test.ts:15-56 | one response per call; a call from someone other than the starting admin succeeds only after an earlier successful transfer |
| `RegistryState.AddTwiceRejected` | tests/manufacturer-verification.test.ts:23-25 | after the admin adds a target, adding it again gives 101, changes nothing, and the set holds the target once |
| `RegistryState.AddThenRemoveRestores` | tests/manufacturer-verification.test.ts:27-40 | an admin's add of an unverified target followed by its removal both succeed and restore the exact starting state |
| `RegistryState.RejectionIsRepeatable` | tests/manufacturer-verification.test.ts:19-37 | a refused call leaves no trace, so repeating it gives the same refusal and the same state |
| `RegistryState.TransferHandsOverControl` | tests/manufacturer-verification.test.ts:48-55 | after the admin transfers to someone else, the old admin is refused with 100 on every mutating entry point and the new admin's add or remove succeeds |
| `RegistryState.NonAdminCallsChangeNothing` | tests/manufacturer-verification.test.ts:19-21 | a sequence of calls none of which comes from the admin is refused call by call with 100 and leaves the state unchanged |
| `RegistryState.UntargetedStatusPreserved` | tests/manufacturer-verification.test.ts:27-40 | over any sequence of calls, an identity that no add or remove names keeps its verified status |
| `RegistryState.AdminChangesOnlyByTransfer` | tests/manufacturer-verification.test.ts:53 | over any sequence of calls with no transfer, the admin stays the same |
| `RegistryState.TransferScenario` | tests/manufacturer-verification.test.ts:67-95 | add, add again, remove, remove again, a non-admin add, a transfer, then adds by the new and the old admin give ok, 101, ok, 102, 100, ok, ok, 100, and end with the new admin and one verified manufacturer |

## Left out

- The test harness (`describe`, `it`, `expect`, `beforeEach`). Its assertions appear as `TestCases` and the lemmas, and the state reset appears as the constructor.
- The ambient transaction sender. The caller is an explicit parameter, and the test cases pass the creator as caller, as the mock does.
- The concrete principal addresses and their wrapper objects. The mock compares principals by object reference, while the model compares identities by value, which is how principals of the underlying contract compare.
- The `true` values stored in the mock's `Map`, because only key membership is ever read.
- Ledger semantics (transaction ordering, persistence, deployment). The Clarity contract itself is not part of this model, so the mock is the behaviour modelled.
