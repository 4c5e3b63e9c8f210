# Primal Health claim program, modelled in Dafny

This project models the on-chain Anchor program of Primal Health
(`primal-health-solana-program/programs/primal-health-solana-program/src/lib.rs`).
The program keeps four kinds of accounts:

- patient accounts, one per signing authority;
- provider accounts, one per signing authority;
- health-data accounts, one per `data_hash`;
- insurance claim accounts, one per `claim_id`.

It has six instructions. A patient files a claim naming a provider and an
amount. The provider may set the claim's status. Once a claim is `Verified`,
the provider pays the amount to the patient in lamports, and the claim
becomes `Paid`.

The model follows the program's structure:

- `accounts.dfy` (module `Accounts`): the integer widths (`u64`, `i64`), byte strings, 32-byte public keys, the four account records, `ClaimStatus`, the program's `ErrorCode` and the runtime errors an instruction can end with.
- `space.dfy` (module `Space`): the four `space =` formulas and the Borsh size of each record. It proves that a claim fits its account exactly when its health-data hash is at most 129 bytes.
- `lamports.dfy` (module `Lamports`): balances per public key, their total, and the system program's `transfer`.
- `registry.dfy` (module `Registry`): the program state as one map per account kind, keyed by the value its PDA seed is derived from, plus the balance map. It also defines the invariant of reachable states.
- `instructions.dfy` (module `Instructions`): each instruction handler as a function from a state to a new state or an error.
- `ledger.dfy` (module `Ledger`): instruction dispatch and sequences of atomic transactions. It proves the properties that span several instructions: conservation of lamports, uniqueness of seeded accounts, and when a claim can or cannot be paid.
- `program.dfy` (module `PrimalHealth`): class `Program` holds the maps and updates them in place, with one method per instruction. Each method is proved to commit exactly the state its function in `Instructions` describes, or nothing on error.

Modelling choices:

- The runtime discards every change of a failed instruction. An error therefore carries no state, and the class methods leave the object unchanged on error.
- Anchor's `init` with PDA `seeds` fails when the account already exists. This is modelled as inserting into a map, failing with `AccountAlreadyInUse` when the key is present.
- An `Account<ClaimAccount>` argument that names no existing claim fails with `AccountNotInitialized`.
- Signer keys, the unchecked provider and patient keys, and the clock's unix timestamp are parameters.
- Strings are byte sequences, because `String::len()` counts UTF-8 bytes.
- The system `transfer` fails with `ResultWithNegativeLamports` when the source balance is below the amount. It fails with `ArithmeticOverflow` when the destination balance would exceed `u64`. A key absent from the balance map holds 0 lamports. The runtime's rent-state rule on the transferred accounts is not modelled (see "Left out").
- When the claim account is written back on exit, it must fit its allocated space, or the instruction fails with `AccountDidNotSerialize`. The claim formula (226 plus the claim id length) leaves room for a health-data hash of at most 129 bytes. `create_claim` with a longer hash fails. The other three formulas always leave exactly 64 spare bytes.

The program does not enforce a forward-only claim lifecycle:
`verify_claim` lets the claim's provider set any status from any status. The
model follows the code. `Ledger.ReverifyAllowsSecondPayment` shows a paid
claim being set back to `Verified` and paid a second time.
`Ledger.NoPaymentWithoutReverify` shows that a claim can be paid twice only if
its own provider calls `verify_claim` in between to set it back to `Verified`.

## Model

| member | source | states |
|---|---|---|
| `Space.ClosedForms` | primal-health-solana-program/programs/primal-health-solana-program/src/lib.rs:107-165 | the four allocations are 108 + len(did), 112 + len(did) + len(name), 120 + len(data_hash) + len(encrypted_data) and 226 + len(claim_id) bytes |
| `Space.StrictlyIncreasing` | primal-health-solana-program/programs/primal-health-solana-program/src/lib.rs:107-165 | each allocation grows strictly with each string length it depends on |
| `Space.FixedSlack` | primal-health-solana-program/programs/primal-health-solana-program/src/lib.rs:107-153 | patient, provider and health-data accounts are allocated exactly 64 bytes more than their serialized records need |
| `Space.ClaimFitsIff` | primal-health-solana-program/programs/primal-health-solana-program/src/lib.rs:155-171 | a claim record fits its allocation iff its health-data hash is at most 129 bytes; the spare room is 129 minus the hash length, whatever the claim id |
| `Lamports.Transfer` | primal-health-solana-program/programs/primal-health-solana-program/src/lib.rs:87-98 | succeeds iff the source holds at least the amount and the destination does not overflow `u64`, reporting which check failed; on success debits the source and credits the destination by exactly the amount, changes no other balance and keeps the total |
| `Instructions.InitializePatient` | primal-health-solana-program/programs/primal-health-solana-program/src/lib.rs:9-14 | fails with `AccountAlreadyInUse` iff the authority already has a patient account; otherwise adds exactly the record (authority, did) under that authority and changes nothing else |
| `Instructions.InitializeProvider` | primal-health-solana-program/programs/primal-health-solana-program/src/lib.rs:16-22 | fails with `AccountAlreadyInUse` iff the authority already has a provider account; otherwise adds exactly (authority, did, name) and changes nothing else |
| `Instructions.SubmitHealthData` | primal-health-solana-program/programs/primal-health-solana-program/src/lib.rs:24-35 | fails with `AccountAlreadyInUse` iff a record with that data hash exists; otherwise adds (owner, hash, data, clock time) under the hash and changes nothing else |
| `Instructions.CreateClaim` | primal-health-solana-program/programs/primal-health-solana-program/src/lib.rs:37-52 | succeeds iff the claim id is unused and the hash is at most 129 bytes, reporting `AccountAlreadyInUse` before `AccountDidNotSerialize`; adds a `Pending` claim whose id, patient, provider, hash, amount and timestamp are the inputs, signer keys and clock time, and changes nothing else |
| `Instructions.VerifyClaim` | primal-health-solana-program/programs/primal-health-solana-program/src/lib.rs:54-65 | succeeds iff the claim exists and the signer is its provider (else `AccountNotInitialized` or `Unauthorized`); sets the status to the argument whatever it was, and changes no other field, claim or account |
| `Instructions.PaymentCheck` | primal-health-solana-program/programs/primal-health-solana-program/src/lib.rs:73-85 | passes iff provider, patient and `Verified` status all match; otherwise reports the first failing check in the order `Unauthorized`, `InvalidPatient`, `ClaimNotVerified` |
| `Instructions.ProcessPayment` | primal-health-solana-program/programs/primal-health-solana-program/src/lib.rs:67-104 | a missing claim, then the three checks in order, then the transfer decide the error; succeeds iff all pass; on success the provider is debited and the patient credited by exactly the claim amount, no other balance changes, total lamports are unchanged, the claim becomes `Paid` with its other fields kept, and nothing else changes |
| `Ledger.Apply` | primal-health-solana-program/programs/primal-health-solana-program/src/lib.rs:5-105 | every successful instruction keeps every existing account (only a claim's status may change), keeps total lamports, leaves balances alone unless it is a payment, and preserves the seed/space invariant |
| `Ledger.RunExtends` | primal-health-solana-program/programs/primal-health-solana-program/src/lib.rs:5-105 | over any sequence of transactions no account is closed and no field except a claim's status ever changes |
| `Ledger.RunConservesLamports` | primal-health-solana-program/programs/primal-health-solana-program/src/lib.rs:87-101 | over any sequence of transactions the total of all balances is unchanged |
| `Ledger.RunPreservesValid` | primal-health-solana-program/programs/primal-health-solana-program/src/lib.rs:107-165 | over any sequence of transactions each account stays keyed by its own seed field and each claim fits its allocation |
| `Ledger.Reachable` | primal-health-solana-program/programs/primal-health-solana-program/src/lib.rs:5-105 | every state reachable from deployment satisfies the invariant and has the initial total of lamports |
| `Ledger.SecondInitFails` | primal-health-solana-program/programs/primal-health-solana-program/src/lib.rs:107-165 | a second `init` at the same seed (authority, data hash or claim id) fails with `AccountAlreadyInUse` and leaves every account as it was |
| `Ledger.OnlyVerifyClaimVerifies` | primal-health-solana-program/programs/primal-health-solana-program/src/lib.rs:54-65 | the only successful instruction that makes a non-verified claim `Verified` is `verify_claim` for that claim, signed by its provider, with status `Verified` |
| `Ledger.NoPaymentWithoutReverify` | primal-health-solana-program/programs/primal-health-solana-program/src/lib.rs:82-101 | a claim that is not `Verified` (a paid claim in particular) stays unpayable by anyone, and keeps its provider, through any sequence of transactions in which its provider does not call `verify_claim` with `Verified`; such calls by anyone else fail and are allowed in the sequence |
| `Ledger.DoublePaymentFails` | primal-health-solana-program/programs/primal-health-solana-program/src/lib.rs:82-101 | right after a successful payment, the same payment fails with `ClaimNotVerified` |
| `Ledger.ReverifyAllowsSecondPayment` | primal-health-solana-program/programs/primal-health-solana-program/src/lib.rs:54-101 | as written, the provider can set a paid claim back to `Verified` and pay it again when balances allow |
| `PrimalHealth.Program.constructor` | primal-health-solana-program/programs/primal-health-solana-program/src/lib.rs:5-7 | a freshly deployed program holds no accounts and the given balances |
| `PrimalHealth.Program.InitializePatient` | primal-health-solana-program/programs/primal-health-solana-program/src/lib.rs:9-14 | updates the patient map in place exactly as `Instructions.InitializePatient`, or changes nothing on error |
| `PrimalHealth.Program.InitializeProvider` | primal-health-solana-program/programs/primal-health-solana-program/src/lib.rs:16-22 | updates the provider map in place exactly as `Instructions.InitializeProvider`, or changes nothing on error |
| `PrimalHealth.Program.SubmitHealthData` | primal-health-solana-program/programs/primal-health-solana-program/src/lib.rs:24-35 | updates the health-data map in place exactly as `Instructions.SubmitHealthData`, or changes nothing on error |
| `PrimalHealth.Program.CreateClaim` | primal-health-solana-program/programs/primal-health-solana-program/src/lib.rs:37-52 | updates the claim map in place exactly as `Instructions.CreateClaim`, or changes nothing on error |
| `PrimalHealth.Program.VerifyClaim` | primal-health-solana-program/programs/primal-health-solana-program/src/lib.rs:54-65 | assigns the claim's status in place exactly as `Instructions.VerifyClaim`, or changes nothing on error |
| `PrimalHealth.Program.ProcessPayment` | primal-health-solana-program/programs/primal-health-solana-program/src/lib.rs:67-104 | makes the checks in order, transfers, then marks the claim paid, exactly as `Instructions.ProcessPayment`; a failed transfer leaves the status unchanged |

## Left out

- Borsh encoding itself, the 8-byte account discriminator and `declare_id!`: only the sizes they imply are modelled.
- PDA derivation: seeds are map keys. Address derivation also rejects any seed longer than 32 bytes, which would make `create_claim` fail for a `claim_id`, and `submit_health_data` fail for a `data_hash`, over 32 bytes. The model does not capture this limit.
- Rent: `init` makes the payer fund the new account. The model neither debits the payer nor fails when the payer cannot pay. Balances change only through `process_payment`, and the balance map holds wallet keys, not the program's own accounts.
- Lamports.Transfer: does not model the runtime's rent-state rule, which rejects a transaction that leaves a writable account with a balance above 0 but below the rent-exempt minimum. A payment that leaves the provider with a few lamports, or credits an empty patient wallet with less than that minimum, fails on chain; the model's transfer succeeds. The minimum comes from the rent sysvar, which is outside the program.
- Instructions.ProcessPayment: succeeds in the model in the rent-state cases just described, where the payment fails on chain; every other success and failure condition is as stated.
- Transaction fees, compute limits and the size limit on instruction data are not modelled.
- `Clock::get()` is the timestamp parameter `now`; the model does not capture a failure to read the clock.
- Anchor's account validation beyond existence is not modelled: the signature check, the owner and discriminator check, and the system program's rule that the transfer source carries no data.
- The TypeScript web application, its API routes, the encryption and DID utilities and the payment middleware are not part of this model.
