# Token balance contract: a Dafny model

This project models the instruction processor of a small Solana program that keeps per-token user balances. The processor handles four instructions against one nested map, `all_token_balances: token -> user -> u64`:

- `AdminAddSupportedToken` registers a token with an empty balance table.
- `AdminDeleteSupportedToken` unregisters a token, together with all of its balances.
- `UserDeposit` credits a user's balance in a registered token.
- `UserWithdraw` debits a user's balance if the balance covers the amount.

Each arm first asks a signature verifier whether the admin key or the user key signs the call. It then checks whether the token is registered: the add arm requires it to be absent, the other three require it to be present. The map changes only after those checks pass. Each failure has its own error: `Custom(0)` to `Custom(3)`, `MissingRequiredSignature` or `InsufficientFunds`.

Files and modules:

- `types.dfy` (`Types`): the data model. Contents:
  - `uint64` and `uint32` as bounded newtypes.
  - `Pubkey` as opaque bytes.
  - `TokenType`, `ContractInstruction`, `ProgramError`, and `Outcome` (`Ok`, `Err(e)`, or `OverflowPanic` for the panic of an overflowing `+=`).
  - The admin key, as the 32 bytes its base58 text stands for.
  - The 65-byte zero mock signature.
  - The shipped verifier `VerifySignature`, which accepts everything.
  - `BalanceOf`, which reads an absent entry as 0.
- `ledger.dfy` (`Ledger`): `Step`, the function that says what one instruction does, and one lemma per property of each arm.
- `supply.dfy` (`Supply`): the total held in a token, and how each instruction changes it.
- `runs.dfy` (`Runs`): sequences of instructions and what holds across them.
- `contract.dfy` (`Contract`): the class `ContractState` with the map field `allTokenBalances`. Its method `ProcessInstruction` updates that field in place, in the order the Rust code does, and is proved to end in exactly the state and outcome that `Ledger.Step` gives. Two client methods replay the repository's test and a register / deposit / withdraw / deregister session.

The verifier is a parameter `verify: (Pubkey, seq<bv8>) -> bool`. The add, deposit and withdraw arms pass it the mock signature. The delete arm passes the raw instruction bytes, as the code does.

Behaviour of the code a reader may not expect, which the model keeps:

- A withdraw that fails for insufficient funds still runs `entry(user).or_insert(0)` first. It therefore leaves a zero entry behind for a user who had none (`Ledger.WithdrawInsufficient`, `Ledger.WithdrawInsufficientAddsEntry`). The failed withdraw changes no balance read as "absent means 0", and no token total (`Supply.FailedStepKeepsSupply`).
- An overflowing deposit returns no error. With overflow checks on, the unchecked `+=` panics; the model has the outcome `OverflowPanic`, with the state unchanged (`Ledger.DepositOverflowPanics`).
- Deleting a token silently discards every balance held in it, nonzero ones included (`Supply.DeleteDiscardsSupply`).
- The caller's identity is never compared with anything. The admin arms ask the verifier about the fixed admin key, and the user arms about the user named in the instruction (`Ledger.SignatureRejection`).
- Nothing in the model stops later calls after a deposit panics: `Runs.Run` processes each call against the state the previous one left. In the code the panic poisons the lock, and every later call panics too.

## Model

| member | source | states |
|---|---|---|
| `Contract.ContractState.constructor` | src/lib.rs:50-54 | the contract starts with no token registered |
| `Contract.TestAdd` | src/lib.rs:160-172 | adding "sol" to a fresh state returns `Ok` and leaves exactly "sol" registered with an empty table |
| `Contract.ContractState.ProcessInstruction` | src/lib.rs:60-140 | updating the map in place, arm by arm, ends in exactly the state and outcome of `Ledger.Step` on the old state |
| `Ledger.OrInsertZero` | src/lib.rs:112-130 | `or_insert(0)` keeps the registered tokens and every other token's table, adds at most the user's key to the token's table, makes that entry hold its old balance (0 if absent), and changes no balance |
| `Ledger.Step` | src/lib.rs:69-136 | any outcome other than `Ok` leaves the set of registered tokens and every balance (absent read as 0) unchanged: check before mutate |
| `Ledger.SignatureRejection` | src/lib.rs:73-122 | the outcome is `MissingRequiredSignature` if and only if the verifier refuses `Signer(i)` (the admin key for add and delete, the instruction's user for deposit and withdraw) with `SignatureFor(i, d)` (the instruction bytes for delete, 65 zero bytes otherwise); the state is then untouched |
| `Ledger.StubVerifierAcceptsAll` | src/lib.rs:150-152 | with the shipped always-true verifier, no instruction is rejected for its signature |
| `Ledger.AddDuplicateRejected` | src/lib.rs:78-81 | adding a registered token returns `Custom(0)` and leaves the whole state unchanged |
| `Ledger.AddRegistersEmpty` | src/lib.rs:82-83 | adding a new token succeeds, registers exactly that token with an empty table, and keeps every other token's entry |
| `Ledger.DeleteAbsentRejected` | src/lib.rs:90-92 | deleting an unregistered token returns `Custom(1)` and changes nothing |
| `Ledger.DeletePresentRemoves` | src/lib.rs:93-94 | deleting a registered token succeeds, unregisters exactly that token with all its balances, and keeps every other token's entry |
| `Ledger.DepositUnknownTokenRejected` | src/lib.rs:106-109 | a deposit into an unregistered token returns `Custom(2)` and changes nothing |
| `Ledger.WithdrawUnknownTokenRejected` | src/lib.rs:124-127 | a withdraw from an unregistered token returns `Custom(3)` and changes nothing |
| `Ledger.DepositCredits` | src/lib.rs:111-112 | a deposit that fits in a u64 sets the balance to old (absent as 0) plus amount; every other user, token and registration is unchanged |
| `Ledger.DepositOverflowPanics` | src/lib.rs:112 | a deposit whose sum exceeds the u64 range panics and leaves the state unchanged; it never wraps |
| `Ledger.WithdrawDebits` | src/lib.rs:129-134 | a withdraw with amount at most the balance sets the balance to balance minus amount, never below 0; nothing else changes |
| `Ledger.WithdrawInsufficient` | src/lib.rs:129-133 | a withdraw beyond the balance returns `InsufficientFunds`; the only change is that the user's entry now exists, holding the old balance (0 if absent) |
| `Ledger.WithdrawInsufficientAddsEntry` | src/lib.rs:130-132 | any positive withdraw by a user with no entry in a registered token fails with `InsufficientFunds` and still changes the map: a zero entry appears |
| `Ledger.CustomCodes` | src/lib.rs:78-127 | `Custom(c)` comes back if and only if the signature passed and c names its arm's failed registration check: 0 add-duplicate, 1 delete-absent, 2 deposit-unknown, 3 withdraw-unknown |
| `Ledger.DepositThenWithdraw` | src/lib.rs:107-134 | depositing a1 and then withdrawing a2 <= a1 both succeed and raise the balance by a1 - a2 |
| `Supply.OrInsertZeroSupply` | src/lib.rs:130 | the `or_insert(0)` before a deposit or withdraw changes no token's total |
| `Supply.FailedStepKeepsSupply` | src/lib.rs:69-136 | an instruction that does not succeed changes no token's total, a zero entry left by a failed withdraw included |
| `Supply.DepositSupply` | src/lib.rs:111-112 | a successful deposit raises its token's total by exactly the amount and no other token's total |
| `Supply.WithdrawSupply` | src/lib.rs:129-134 | a successful withdraw lowers its token's total by exactly the amount and no other token's total |
| `Supply.DeleteDiscardsSupply` | src/lib.rs:91-94 | a successful delete drops its token's whole, non-negative total to 0 and keeps every other total |
| `Runs.RejectingVerifierRunIsNoop` | src/lib.rs:73-122 | with a verifier that refuses everything, every call of any run returns `MissingRequiredSignature` and the state never changes |
| `Runs.UserRunKeepsRegistry` | src/lib.rs:96-135 | any run of deposits and withdraws leaves the set of registered tokens unchanged |
| `Runs.StepFrame` | src/lib.rs:69-136 | an instruction that neither deletes the token nor deposits or withdraws for that user leaves that user's balance unchanged |
| `Runs.RunFrame` | src/lib.rs:69-136 | a run none of whose calls names (token, user) leaves that balance unchanged |
| `Runs.FailedRunKeepsBalances` | src/lib.rs:69-136 | a run whose every call fails leaves the registered tokens and every balance unchanged |

## Left out

- The Solana entry point (`entrypoint!`, `program_id`, `accounts`, `ProgramResult`, src/lib.rs:1-5, 57, 60-64): this is the runtime boundary. `ProcessInstruction` takes the decoded instruction and its bytes.
- `deserialize_instruction` (src/lib.rs:142-148), which decodes JSON with `serde_json`, panics on malformed input and logs with `println!`. The model receives the instruction already decoded and does not relate it to its bytes.
- The `lazy_static` global and its `Mutex` (src/lib.rs:50-54, 66): the state is an explicit `ContractState` object. Concurrency and lock poisoning are not modelled. In the code, a panic during a deposit would poison the lock and make later calls panic too.
- Base58 parsing of the admin key (`Pubkey::from_str`, src/lib.rs:49, 73, 86): the key is a constant holding the decoded bytes.
- Real signature cryptography (src/lib.rs:150-152): the verdict comes from the injected `verify` parameter. The shipped always-true stub is `Types.VerifySignature`.
- Builds without overflow checks, where the deposit's `+=` would wrap silently: the model takes the overflow-checked behaviour, a panic.
- The unfinished part of the test (src/lib.rs:174-176), which takes the lock and asserts nothing.
