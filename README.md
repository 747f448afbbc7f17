# Escrow program model

This is a Dafny model of the Anchor escrow program in `programs/escrow/src/lib.rs`, together with proofs about it. The program lets a *maker* offer `amount_a` tokens of mint A in exchange for `amount_b` tokens of mint B. It has three instructions:

- **make** records the terms in an `Escrow` account. The escrow account is a fresh keypair, and its size is `INIT_SPACE` = 121 bytes. make also creates a *vault*: a token account of mint A at the program-derived address `[b"vault", escrow, bump]`, whose authority is the vault itself. make then moves `amount_a` from the maker's `maker_ata_a` into the vault.
- **take** lets any *taker* pay `amount_b` of mint B into `maker_ata_b` and receive `amount_a` from the vault. The vault and the record are then closed into the maker.
- **refund** lets the maker take `amount_a` back from the vault. The vault and the record are closed in the same way.

The ledger is the set of mints, the token accounts, the escrow records and the lamport balances. The code is in five modules:

- `Solana` (solana.dfy) covers keys, program-derived addresses, lamports, and the system program's `create_account`.
- `Token` (token.dfy) covers the three SPL token instructions the program invokes: InitializeAccount, Transfer and CloseAccount. It models their failure conditions in the token program's own order.
- `MintSupply` (supply.dfy) defines the amount of each mint held across all token accounts.
- `EscrowProgram` (escrow.dfy) gives each instruction twice:
  - as a function on ledger snapshots (`MakeOutcome`, `TakeOutcome`, `RefundOutcome`), returning the new ledger or the error that aborts the instruction;
  - as a method of the class `Ledger`. The method performs the same steps one at a time on its fields and undoes them all if a later step fails.
- `EscrowProperties` (properties.dfy) holds the properties of the three instructions.
- `Findings` (findings.dfy) and `Scenario` (scenario.dfy) hold one concrete ledger each.
  - `Findings` shows two weaknesses of take and a corrected take.
  - `Scenario` replays the trade and the refund of `tests/escrow.ts`.

Several checks that look like the escrow program's own are made by the SPL token program, or by nothing at all. The model keeps them apart:

- **Token program checks.** Both legs of each transfer must use the same mint. The vault must be empty before CloseAccount. The vault can only be spent with the vault's own signature. `Token` states these as the token program's conditions, not the escrow program's.
- **Not checked by the escrow program:**
  - take and refund do not re-derive the vault address;
  - no token account is tied to the maker or to the record's mints;
  - zero amounts are accepted.

  The model does not add these checks.
- **Vault address.** A successful take or refund whose `vault` account did not itself sign the transaction emptied the derived vault (`TakeDrainsDerivedVault`, `RefundDrainsDerivedVault`). A taker who passes a token account at a keypair of its own, and signs for it, gets the transfer and the close to act on that decoy. The record is then closed while the maker's deposit stays in the derived vault (see Findings).
- **Vault balance.** "The vault holds exactly `amount_a`" is not an invariant, because anyone may deposit into the vault. The invariant proved is that every open escrow's vault holds at least `amount_a` (`VaultsFunded`). A vault holding more blocks every take and refund that names the derived vault (`DepositBlocksSettlement`).
- **Re-creating a record.** A closed record's address holds no lamports and no data afterwards. Another make with the same keypair can therefore create it again. The program never re-creates a record that is still open.

## Model

| member | source | states |
|---|---|---|
| EscrowProgram.MakeOutcome | programs/escrow/src/lib.rs:120-141 | make without the maker's signature fails with AccountNotSigner. A successful make had all of the following: the maker's and the escrow keypair's signatures, both mints and maker_ata_a loaded, an unused escrow address, and the vault at the address derived from `[b"vault", escrow]` and the bump. It leaves the mints alone, and afterwards the record and the vault exist. |
| EscrowProgram.TakeOutcome | programs/escrow/src/lib.rs:143-161 | take without the taker's signature fails with AccountNotSigner. A successful take had the taker's signature, the record, the four token accounts loaded and has_one = maker satisfied, and the escrow account was not the maker: `close = maker` refuses to close an account into itself (ConstraintClose). It removes exactly this record and the account passed as the vault. |
| EscrowProgram.RefundOutcome | programs/escrow/src/lib.rs:163-174 | refund without the maker's signature fails with AccountNotSigner. A successful refund had the record, the vault and maker_ata_a loaded and has_one = maker satisfied, and the escrow account was not the maker (`close = maker`, ConstraintClose). It removes exactly this record and the account passed as the vault. |
| EscrowProgram.Ledger.Make | programs/escrow/src/lib.rs:10-31 | Performing make step by step leaves the ledger exactly as `MakeOutcome` describes when make succeeds, and unchanged when any step fails. The returned status is make's error or Ok. |
| EscrowProgram.Ledger.Take | programs/escrow/src/lib.rs:33-73 | Performing take step by step gives `TakeOutcome`'s ledger on success. Any failure, including one after the first transfer, leaves the ledger unchanged. |
| EscrowProgram.Ledger.Refund | programs/escrow/src/lib.rs:75-103 | Performing refund step by step gives `RefundOutcome`'s ledger on success, and leaves everything unchanged on failure. |
| Solana.CreateAccount | programs/escrow/src/lib.rs:126-136 | Account creation by `init, payer = maker` succeeds exactly when the new address is unused, both parties signed and the payer can afford the rent. The rent moves from payer to new account and no other balance changes. |
| Solana.Reclaim | programs/escrow/src/lib.rs:147 | `close = maker` removes the record's account and, when the maker is another account, credits all its lamports to the maker. Every other balance stays the same. |
| Token.InitializeAccount | programs/escrow/src/lib.rs:128-136 | The vault's initialisation as a token account of mint_a owned by the vault succeeds exactly when the address is free and the mint exists. It yields an empty account and changes no other account. |
| Token.Transfer | programs/escrow/src/lib.rs:20-30 | A `token::transfer` succeeds exactly when both accounts exist, the balance suffices, the mints match, the authority owns the source and signed, and the destination does not overflow u64. It moves exactly the amount, keeps every mint and owner, and touches no third account. |
| Token.CloseAccount | programs/escrow/src/lib.rs:64-72 | `token::close_account` succeeds exactly when the account exists and is not its own destination, its balance is zero, and its owner signed. It removes the account and credits its lamports to the destination. |
| MintSupply.TransferPreservesSupply | programs/escrow/src/lib.rs:39-62 | A successful token transfer leaves the total of every mint unchanged. |
| MintSupply.CloseAccountPreservesSupply | programs/escrow/src/lib.rs:94-102 | Closing the (necessarily empty) vault leaves the total of every mint unchanged. |
| MintSupply.InitializeAccountPreservesSupply | programs/escrow/src/lib.rs:128-136 | Creating the empty vault leaves the total of every mint unchanged. |
| MintSupply.SupplyUpdate | programs/escrow/src/lib.rs:39-62 | Replacing one token account changes a mint's total by the difference of the old and new contributions. |
| MintSupply.SupplyInsert | programs/escrow/src/lib.rs:128-136 | Adding a token account adds its contribution to the mint's total. |
| MintSupply.SupplyRemove | programs/escrow/src/lib.rs:94-102 | Removing a token account subtracts its contribution from the mint's total. |
| EscrowProperties.SignerSeedsNameVault | programs/escrow/src/lib.rs:36-37 | The signer seeds take and refund rebuild from the escrow key and the stored bump name the same address make derived for the vault. |
| EscrowProperties.VaultAddressInjective | programs/escrow/src/lib.rs:133-134 | Two escrows, or two bumps, never share a vault address. |
| EscrowProperties.MakeWritesRecord | programs/escrow/src/lib.rs:11-18 | After make, the record holds exactly the maker, both mints, both amounts and the vault's bump, and no other record changes. |
| EscrowProperties.MakeFundsVault | programs/escrow/src/lib.rs:20-30 | After make, the vault is a token account of mint_a whose authority is the vault and which holds amount_a. maker_ata_a has lost exactly amount_a, and no other token account changes. |
| EscrowProperties.MakeVaultIsSignerAddress | programs/escrow/src/lib.rs:128-136 | The vault make creates is the address that the seeds rebuilt from the stored bump sign for. |
| EscrowProperties.MakePaysRent | programs/escrow/src/lib.rs:126-136 | When both rents are non-zero, the maker pays both rents. The escrow and vault accounts hold exactly their rent, and no other lamport balance changes. |
| EscrowProperties.MakeFailsWithoutDeposit | programs/escrow/src/lib.rs:20-30 | make fails, and so changes nothing, when maker_ata_a holds less than amount_a. |
| EscrowProperties.MakeFailsOnUsedEscrow | programs/escrow/src/lib.rs:126-127 | make fails on an escrow address that is already in use, so an open record is never overwritten. |
| EscrowProperties.MakeSucceedsWhen | programs/escrow/src/lib.rs:120-141 | make succeeds when all of the following hold: the signatures are present, the accounts are loaded, the vault address is the derived one, both addresses are unused, the maker can pay both rents, and maker_ata_a is the maker's account of mint_a holding at least amount_a. |
| EscrowProperties.MakeTwiceFails | programs/escrow/src/lib.rs:126-127 | A second make on the same escrow address fails, so the first record is never overwritten. |
| EscrowProperties.TakeChecksMaker | programs/escrow/src/lib.rs:147 | has_one = maker: take fails when the record's maker is not the maker account given. When the accounts load, the error is ConstraintHasOne, raised before any transfer. |
| EscrowProperties.TakeSettles | programs/escrow/src/lib.rs:33-73 | A successful take has exact effects: amount_b moves from taker_ata_b to maker_ata_b and amount_a from the vault to taker_ata_a. The vault, which held exactly amount_a, and the record are removed, and their lamports go to the maker. Nothing else changes. This holds when taker_ata_a, taker_ata_b, maker_ata_b and the vault are four distinct accounts, and the vault is not the escrow account. The maker is never the escrow account once take succeeds. The source also accepts aliased accounts, which this row does not cover. |
| EscrowProperties.TakeDrainsDerivedVault | programs/escrow/src/lib.rs:51-72 | take checks no seeds. Still, a successful take whose `vault` account did not sign the transaction emptied the vault derived for the record. |
| EscrowProperties.RefundDrainsDerivedVault | programs/escrow/src/lib.rs:81-102 | refund checks no seeds either. Still, a successful refund whose `vault` account did not sign the transaction emptied the vault derived for the record. |
| EscrowProperties.TakeSucceedsWhen | programs/escrow/src/lib.rs:143-161 | take succeeds when all of the following hold: the taker signed, the maker matches and is not the escrow account, the vault is the derived one holding exactly amount_a, the maker is not the account passed as the vault (CloseAccount refuses to close an account into itself), the four accounts are distinct, and the balances, mints and owners allow both transfers. |
| EscrowProperties.RefundChecksMaker | programs/escrow/src/lib.rs:163-168 | refund fails with AccountNotSigner without the maker's signature. It fails with ConstraintHasOne when the signer is not the record's maker. |
| EscrowProperties.RefundReturnsDeposit | programs/escrow/src/lib.rs:75-103 | A successful refund has exact effects: amount_a moves from the vault back to maker_ata_a. The vault and the record are removed and their lamports go to the maker. Nothing else changes. This holds when maker_ata_a is not the vault and the vault is not the escrow account. |
| EscrowProperties.MakeThenRefundRestores | programs/escrow/src/lib.rs:10-103 | When both rents are non-zero, make followed by a successful refund into the same maker_ata_a restores every token account, every record and every lamport balance. The maker's net change is zero. |
| EscrowProperties.RefundAfterMakeSucceeds | programs/escrow/src/lib.rs:10-103 | Right after a successful make (with non-zero rents), a refund signed by the maker succeeds when it names the same escrow, the derived vault and the same maker_ata_a. |
| EscrowProperties.RefundSucceedsWhen | programs/escrow/src/lib.rs:163-174 | refund succeeds when the maker signed, matches the record and is neither the escrow account nor the account passed as the vault, the vault is the derived one holding exactly amount_a, and maker_ata_a can receive it. |
| EscrowProperties.ClosedEscrowRejected | programs/escrow/src/lib.rs:147-148 | Once a record is closed, take and refund of it both fail. |
| EscrowProperties.TakeIsFinal | programs/escrow/src/lib.rs:147 | After a take, a second take and a refund of the same escrow both fail. |
| EscrowProperties.RefundIsFinal | programs/escrow/src/lib.rs:167 | After a refund, a take and a second refund of the same escrow both fail. |
| EscrowProperties.MakeConservesSupply | programs/escrow/src/lib.rs:10-31 | make leaves the total of every mint unchanged. |
| EscrowProperties.TakeConservesSupply | programs/escrow/src/lib.rs:33-73 | take leaves the total of every mint unchanged. |
| EscrowProperties.RefundConservesSupply | programs/escrow/src/lib.rs:75-103 | refund leaves the total of every mint unchanged. |
| EscrowProperties.TransferSparesVaults | programs/escrow/src/lib.rs:128-136 | A transfer signed with private keys and at most one program address leaves every other vault at least as full, with the same mint and owner. |
| EscrowProperties.MakeKeepsVaultsFunded | programs/escrow/src/lib.rs:10-31 | make keeps every open escrow's vault funded with at least its amount_a, and funds the new escrow's vault. |
| EscrowProperties.TakeKeepsVaultsFunded | programs/escrow/src/lib.rs:33-73 | take keeps every remaining open escrow's vault funded. |
| EscrowProperties.RefundKeepsVaultsFunded | programs/escrow/src/lib.rs:75-103 | refund keeps every remaining open escrow's vault funded. |
| EscrowProperties.OutsideTransferKeepsVaultsFunded | programs/escrow/src/lib.rs:132 | A token transfer outside the program cannot take tokens out of a vault whose authority is its derived address. |
| EscrowProperties.OverfundedVaultBlocksRefund | programs/escrow/src/lib.rs:81-102 | refund moves exactly amount_a and then needs the vault empty, so every refund fails while the account it names as the vault holds more than amount_a. |
| EscrowProperties.OverfundedVaultBlocksTake | programs/escrow/src/lib.rs:51-72 | While the derived vault holds more than amount_a, every take that names it and is signed only by keypairs fails. |
| EscrowProperties.DepositBlocksSettlement | programs/escrow/src/lib.rs:64-72 | After anyone deposits mint-A tokens into an open escrow's vault, no take or refund of that escrow that names the derived vault can succeed. |
| Findings.TakePaysAnyAccount | programs/escrow/src/lib.rs:39-49 | On a concrete ledger, take succeeds while the taker pays 200 junk tokens into a second account of its own. The taker receives the 100 tokens of mint A, and the maker's mint-B account is untouched. The checked take refuses the same accounts. |
| Findings.TakeCheckedOutcome | programs/escrow/src/lib.rs:143-161 | The corrected take adds two constraints: the vault's seeds are checked against the record, and maker_ata_b must hold mint_b and belong to the maker. A success is a success of take as written, and it guarantees the vault was the derived one and maker_ata_b was the maker's account of mint_b. |
| Findings.TakeCheckedAgreesOnHonestAccounts | programs/escrow/src/lib.rs:143-161 | On accounts that meet the two added constraints (the vault is the derived one, and maker_ata_b is the maker's account of mint_b), the checked take gives exactly take's result. It refuses no honest take that take as written would allow. |
| Findings.TakeCheckedReleasesVault | programs/escrow/src/lib.rs:143-161 | A successful checked take empties and removes the derived vault and credits amount_a to taker_ata_a. The record cannot be closed while the deposit stays behind. This is stated for four distinct token accounts, with the vault not being the escrow account. |
| Findings.DecoyTakeSucceeds | programs/escrow/src/lib.rs:51-72 | On a concrete ledger, take as written succeeds with a decoy vault: a keypair-owned account of a worthless mint that the taker signs for. |
| Findings.TakeWithDecoyVault | programs/escrow/src/lib.rs:152-153 | After the decoy take, the record is gone and the derived vault still holds the maker's 100 tokens of mint A. Every refund of the escrow then fails, and the checked take refuses the decoy with ConstraintSeeds. |
| Findings.TakeCheckedPaysMaker | programs/escrow/src/lib.rs:143-161 | With maker_ata_b constrained to the record's mint_b and maker, a successful take leaves the maker's mint-B account at least amount_b richer. This holds when neither the taker nor the vault is the maker. |
| Scenario.MakeOpens | tests/escrow.ts:78-98 | On the test's ledger, make(100, 200) succeeds and leaves the 100 tokens of mint A in the vault, with the record and the two rents in place. |
| Scenario.TakeCompletesTrade | tests/escrow.ts:99-116 | take on that ledger succeeds. The taker ends with 100 of mint A and the maker with 200 of mint B. The record and the vault are closed, and the maker's lamports are back at their starting amount. The corrected take of Findings gives the same result on this honest trade. |
| Scenario.MakeThenRefund | tests/escrow.ts:118-161 | make(100, 200) then refund succeeds and gives back the maker's 100 tokens of mint A, leaving no record. |

## Left out

- The bump is a parameter. How Anchor finds the canonical bump (`find_program_address` searching from 255 downwards) is not modelled. The model checks only that the vault address is derived with the given bump.
- Program-derived addresses are modelled as an injective function of their seeds. Hash collisions, and the requirement that the address lies off the curve, are not modelled.
- Rents are parameters, given as the rent-exempt minimums for INIT_SPACE and 165 bytes. The rent calculation is not modelled.
- Anchor's init path for an address that already holds lamports (transfer, allocate and assign) is not modelled. Any address holding lamports or data counts as in use, and init fails on it.
- Writable flags, account owner checks, the 8-byte discriminator, record serialization, and program-id checks for the token and system programs are not modelled. Mints are modelled as a set of addresses with no supply, decimals or authority.
- The token program's delegates, frozen accounts, close authorities and native (wrapped SOL) accounts are not modelled.
- Lamport balances are unbounded: u64 overflow of lamports is not modelled. Token amounts are u64, and the token program's overflow check is modelled.
- Concurrency and transaction ordering are not modelled. Instructions apply one at a time to one ledger.
- Lemmas that rely on signatures assume, as hypothesis `NoProgramAddressSigners`, that transaction signers are keypairs. A program-derived address can sign only through a program invocation with the right seeds.
- refund has the same missing seeds check on its vault. Only the maker can sign a refund, so a decoy there only strands the maker's own deposit. The model keeps refund as written, and the corrected take is the only corrected handler.
- Anyone can lock an open escrow by depositing mint-A tokens into its vault (`DepositBlocksSettlement`). The model records this, but no corrected close (one that sweeps the surplus) is modelled.
- The record can be re-created after it is closed, and the model follows the code in this. The claim that a closed escrow is never re-created holds only while the record is open (`MakeFailsOnUsedEscrow`) or until the same keypair signs another make.

## Findings

| source | as written | input that shows it | evidently intended | confidence | as-written member | corrected member |
|---|---|---|---|---|---|---|
| programs/escrow/src/lib.rs:143-161 | take checks nothing about `maker_ata_b`: neither its mint nor its owner is tied to the record. The token program only asks that `taker_ata_b` and `maker_ata_b` hold the same mint. | Escrow: 100 of mint A for 200 of mint B. The taker passes two of its own accounts of a worthless mint as `taker_ata_b` and `maker_ata_b`. take succeeds, the taker gets 100 of mint A, and the maker gets nothing. | `maker_ata_b` must hold the record's `mint_b` and belong to the record's maker, so that a successful take pays the maker. | high, not executed | Findings.TakePaysAnyAccount | Findings.TakeCheckedPaysMaker |
| programs/escrow/src/lib.rs:152-153 | The vault in take has no `seeds` constraint, and nothing else ties it to the record. The token program accepts any account whose owner signed. | Escrow: 100 of mint A. The taker passes as `vault` an account at its own keypair holding 100 of a worthless mint, and signs for it. take succeeds and `close = maker` removes the record. The maker's 100 tokens of mint A stay in the derived vault. Only take or refund of the removed record could sign for that vault, so the tokens are locked. | The vault must be checked with `seeds = [b"vault", escrow], bump = escrow.bump`, so that a successful take empties and removes the derived vault. | high, not executed | Findings.TakeWithDecoyVault | Findings.TakeCheckedReleasesVault |
