/**
 * What the escrow program guarantees, stated about the instruction outcomes of
 * EscrowProgram: the terms recorded by make, the exact effects of take and refund, the
 * has_one and signer checks, that a settled escrow cannot be settled again, that every
 * instruction keeps the supply of every mint, and that every open escrow's vault stays
 * funded whatever else happens on the ledger.
 */
module EscrowProperties {
  import opened Solana
  import opened Token
  import opened MintSupply
  import opened EscrowProgram

  /** The vault of open escrow `e` exists at its derived address and holds at least amount_a. */
  ghost predicate VaultFunded(s: LedgerState, e: Pubkey)
    requires e in s.escrows
  {
    var record := s.escrows[e];
    var vault := VaultAddress(e, record.bump);
    vault in s.tokens && s.tokens[vault].mint == record.mintA &&
    s.tokens[vault].owner == vault && s.tokens[vault].amount >= record.amountA
  }

  ghost predicate VaultsFunded(s: LedgerState)
  {
    forall e :: e in s.escrows ==> VaultFunded(s, e)
  }

  // ---------------------------------------------------------------------------
  // Derived addresses

  /** The seeds take and refund rebuild name the vault make derived with the same bump. */
  lemma SignerSeedsNameVault(escrow: Pubkey, bump: u8)
    ensures CreateProgramAddress(SignerSeeds(escrow, bump)) == VaultAddress(escrow, bump)
  {
    assert VaultSeeds(escrow) + [Bytes([bump])] == SignerSeeds(escrow, bump);
  }

  /** Different escrows have different vaults, whatever their bumps. */
  lemma VaultAddressInjective(e1: Pubkey, b1: u8, e2: Pubkey, b2: u8)
    requires VaultAddress(e1, b1) == VaultAddress(e2, b2)
    ensures e1 == e2 && b1 == b2
  {
    var s1, s2 := VaultSeeds(e1) + [Bytes([b1])], VaultSeeds(e2) + [Bytes([b2])];
    assert s1[1] == s2[1] && s1[2] == s2[2];
    assert [b1][0] == [b2][0];
  }

  // ---------------------------------------------------------------------------
  // make

  /** make records exactly the maker, the two mints, the two amounts and the vault's bump. */
  lemma MakeWritesRecord(s: LedgerState, a: MakeAccounts, signers: set<Pubkey>, bump: u8,
                         amountA: u64, amountB: u64, escrowRent: nat, vaultRent: nat)
    requires MakeOutcome(s, a, signers, bump, amountA, amountB, escrowRent, vaultRent).Ok?
    ensures var after := MakeOutcome(s, a, signers, bump, amountA, amountB, escrowRent, vaultRent).value;
      a.escrow !in s.escrows && after.mints == s.mints &&
      after.escrows == s.escrows[a.escrow := Escrow(a.maker, a.mintA, a.mintB, amountA, amountB, bump)]
  {
  }

  /**
   * make creates the vault as a token account of mint A whose authority is the vault,
   * holding amount_a, all of it taken from maker_ata_a; no other token account changes.
   */
  lemma MakeFundsVault(s: LedgerState, a: MakeAccounts, signers: set<Pubkey>, bump: u8,
                       amountA: u64, amountB: u64, escrowRent: nat, vaultRent: nat)
    requires MakeOutcome(s, a, signers, bump, amountA, amountB, escrowRent, vaultRent).Ok?
    ensures var after := MakeOutcome(s, a, signers, bump, amountA, amountB, escrowRent, vaultRent).value;
      a.vault == VaultAddress(a.escrow, bump) &&
      a.vault !in s.tokens && a.makerAtaA in s.tokens &&
      after.tokens.Keys == s.tokens.Keys + {a.vault} &&
      after.tokens[a.vault] == TokenAccount(a.mintA, a.vault, amountA) &&
      after.tokens[a.makerAtaA].amount == s.tokens[a.makerAtaA].amount - amountA &&
      (forall k :: k in s.tokens && k != a.makerAtaA ==> after.tokens[k] == s.tokens[k])
  {
  }

  /** The vault's authority is the address take and refund sign for with the stored bump. */
  lemma MakeVaultIsSignerAddress(s: LedgerState, a: MakeAccounts, signers: set<Pubkey>, bump: u8,
                                 amountA: u64, amountB: u64, escrowRent: nat, vaultRent: nat)
    requires MakeOutcome(s, a, signers, bump, amountA, amountB, escrowRent, vaultRent).Ok?
    ensures var after := MakeOutcome(s, a, signers, bump, amountA, amountB, escrowRent, vaultRent).value;
      var record := after.escrows[a.escrow];
      CreateProgramAddress(SignerSeeds(a.escrow, record.bump)) == a.vault &&
      after.tokens[a.vault].owner == a.vault
  {
    SignerSeedsNameVault(a.escrow, bump);
  }

  /** The maker pays the rent of both new accounts, which then hold exactly that rent. */
  lemma MakePaysRent(s: LedgerState, a: MakeAccounts, signers: set<Pubkey>, bump: u8,
                     amountA: u64, amountB: u64, escrowRent: nat, vaultRent: nat)
    requires escrowRent > 0 && vaultRent > 0
    requires MakeOutcome(s, a, signers, bump, amountA, amountB, escrowRent, vaultRent).Ok?
    ensures var after := MakeOutcome(s, a, signers, bump, amountA, amountB, escrowRent, vaultRent).value;
      a.maker != a.escrow && a.maker != a.vault && a.escrow != a.vault &&
      Balance(after.lamports, a.maker) == Balance(s.lamports, a.maker) - escrowRent - vaultRent &&
      Balance(after.lamports, a.escrow) == escrowRent &&
      Balance(after.lamports, a.vault) == vaultRent &&
      (forall k :: k != a.maker && k != a.escrow && k != a.vault ==>
        Balance(after.lamports, k) == Balance(s.lamports, k))
  {
  }

  /** make fails, and so changes nothing, when maker_ata_a holds less than amount_a. */
  lemma MakeFailsWithoutDeposit(s: LedgerState, a: MakeAccounts, signers: set<Pubkey>, bump: u8,
                                amountA: u64, amountB: u64, escrowRent: nat, vaultRent: nat)
    requires a.makerAtaA in s.tokens && s.tokens[a.makerAtaA].amount < amountA
    ensures MakeOutcome(s, a, signers, bump, amountA, amountB, escrowRent, vaultRent).Err?
  {
  }

  /** make fails on an escrow address that is already in use: an open trade is never overwritten. */
  lemma MakeFailsOnUsedEscrow(s: LedgerState, a: MakeAccounts, signers: set<Pubkey>, bump: u8,
                              amountA: u64, amountB: u64, escrowRent: nat, vaultRent: nat)
    requires InUse(s, a.escrow)
    ensures var outcome := MakeOutcome(s, a, signers, bump, amountA, amountB, escrowRent, vaultRent);
      outcome.Err? &&
      (a.maker in signers && a.mintA in s.mints && a.mintB in s.mints && a.makerAtaA in s.tokens ==>
        outcome.error == System(AccountAlreadyInUse))
  {
  }

  /** When its checks pass and the maker can pay, make succeeds. */
  lemma MakeSucceedsWhen(s: LedgerState, a: MakeAccounts, signers: set<Pubkey>, bump: u8,
                         amountA: u64, amountB: u64, escrowRent: nat, vaultRent: nat)
    requires a.maker in signers && a.escrow in signers
    requires a.mintA in s.mints && a.mintB in s.mints && a.makerAtaA in s.tokens
    requires a.vault == VaultAddress(a.escrow, bump)
    requires !InUse(s, a.escrow) && !InUse(s, a.vault)
    requires a.maker != a.escrow && a.maker != a.vault && a.escrow != a.vault
    requires escrowRent + vaultRent <= Balance(s.lamports, a.maker)
    requires s.tokens[a.makerAtaA].owner == a.maker && s.tokens[a.makerAtaA].mint == a.mintA
    requires amountA <= s.tokens[a.makerAtaA].amount
    ensures MakeOutcome(s, a, signers, bump, amountA, amountB, escrowRent, vaultRent).Ok?
  {
  }

  /** A second make on the same escrow address fails; the first trade is unaffected. */
  lemma MakeTwiceFails(s: LedgerState, a: MakeAccounts, signers: set<Pubkey>, bump: u8,
                       amountA: u64, amountB: u64, escrowRent: nat, vaultRent: nat,
                       a2: MakeAccounts, signers2: set<Pubkey>, bump2: u8,
                       amountA2: u64, amountB2: u64, escrowRent2: nat, vaultRent2: nat)
    requires MakeOutcome(s, a, signers, bump, amountA, amountB, escrowRent, vaultRent).Ok?
    requires a2.escrow == a.escrow
    ensures var after := MakeOutcome(s, a, signers, bump, amountA, amountB, escrowRent, vaultRent).value;
      MakeOutcome(after, a2, signers2, bump2, amountA2, amountB2, escrowRent2, vaultRent2).Err?
  {
    var after := MakeOutcome(s, a, signers, bump, amountA, amountB, escrowRent, vaultRent).value;
    MakeWritesRecord(s, a, signers, bump, amountA, amountB, escrowRent, vaultRent);
    MakeFailsOnUsedEscrow(after, a2, signers2, bump2, amountA2, amountB2, escrowRent2, vaultRent2);
  }

  // ---------------------------------------------------------------------------
  // take

  /** take aborts before any transfer when the record's maker is not the maker account given. */
  lemma TakeChecksMaker(s: LedgerState, a: TakeAccounts, signers: set<Pubkey>)
    requires a.escrow in s.escrows && s.escrows[a.escrow].maker != a.maker
    ensures TakeOutcome(s, a, signers).Err?
    ensures a.taker in signers && a.vault in s.tokens && a.takerAtaA in s.tokens &&
            a.takerAtaB in s.tokens && a.makerAtaB in s.tokens ==>
            TakeOutcome(s, a, signers).error == ConstraintHasOne
  {
  }

  /**
   * A successful take moves amount_b from taker_ata_b to maker_ata_b and amount_a from the
   * vault to taker_ata_a, retires the vault (which therefore held exactly amount_a) and the
   * record, and credits both accounts' lamports to the maker. Nothing else changes.
   */
  lemma TakeSettles(s: LedgerState, a: TakeAccounts, signers: set<Pubkey>)
    requires TakeOutcome(s, a, signers).Ok?
    requires a.takerAtaA != a.takerAtaB && a.takerAtaA != a.makerAtaB && a.takerAtaA != a.vault
    requires a.takerAtaB != a.makerAtaB && a.takerAtaB != a.vault && a.makerAtaB != a.vault
    requires a.vault != a.escrow
    ensures var after := TakeOutcome(s, a, signers).value;
      var record := s.escrows[a.escrow];
      after.mints == s.mints && after.escrows == s.escrows - {a.escrow} &&
      s.tokens[a.vault].amount == record.amountA &&
      after.tokens.Keys == s.tokens.Keys - {a.vault} &&
      after.tokens[a.takerAtaB].amount == s.tokens[a.takerAtaB].amount - record.amountB &&
      after.tokens[a.makerAtaB].amount == s.tokens[a.makerAtaB].amount + record.amountB &&
      after.tokens[a.takerAtaA].amount == s.tokens[a.takerAtaA].amount + record.amountA &&
      (forall k :: k in after.tokens ==> after.tokens[k].mint == s.tokens[k].mint && after.tokens[k].owner == s.tokens[k].owner) &&
      (forall k :: k in s.tokens && k != a.takerAtaA && k != a.takerAtaB && k != a.makerAtaB && k != a.vault ==>
        after.tokens[k] == s.tokens[k]) &&
      a.vault !in after.lamports && a.escrow !in after.lamports &&
      Balance(after.lamports, a.maker) ==
        Balance(s.lamports, a.maker) + Balance(s.lamports, a.vault) + Balance(s.lamports, a.escrow) &&
      (forall k :: k != a.maker && k != a.vault && k != a.escrow ==> Balance(after.lamports, k) == Balance(s.lamports, k))
  {
  }

  /**
   * The vault take drains is the one make derived for this record, unless the account
   * passed as the vault signed the transaction itself (then it is some other account
   * whose owner is itself, and its own holder spends it).
   */
  lemma TakeDrainsDerivedVault(s: LedgerState, a: TakeAccounts, signers: set<Pubkey>)
    requires TakeOutcome(s, a, signers).Ok?
    requires a.vault !in signers
    ensures a.vault == VaultAddress(a.escrow, s.escrows[a.escrow].bump)
  {
    SignerSeedsNameVault(a.escrow, s.escrows[a.escrow].bump);
  }

  /**
   * The vault refund empties is the one make derived for this record, unless the account
   * passed as the vault signed the transaction itself.
   */
  lemma RefundDrainsDerivedVault(s: LedgerState, a: RefundAccounts, signers: set<Pubkey>)
    requires RefundOutcome(s, a, signers).Ok?
    requires a.vault !in signers
    ensures a.vault == VaultAddress(a.escrow, s.escrows[a.escrow].bump)
  {
    SignerSeedsNameVault(a.escrow, s.escrows[a.escrow].bump);
  }

  /** When its checks pass and the balances allow, take succeeds. */
  lemma TakeSucceedsWhen(s: LedgerState, a: TakeAccounts, signers: set<Pubkey>)
    requires a.taker in signers && a.escrow in s.escrows
    requires a.maker == s.escrows[a.escrow].maker && a.maker != a.vault && a.maker != a.escrow
    requires a.vault == VaultAddress(a.escrow, s.escrows[a.escrow].bump)
    requires a.vault in s.tokens && a.takerAtaA in s.tokens && a.takerAtaB in s.tokens && a.makerAtaB in s.tokens
    requires a.takerAtaA != a.takerAtaB && a.takerAtaA != a.makerAtaB && a.takerAtaA != a.vault
    requires a.takerAtaB != a.makerAtaB && a.takerAtaB != a.vault && a.makerAtaB != a.vault
    requires var record := s.escrows[a.escrow];
      s.tokens[a.takerAtaB].owner == a.taker && s.tokens[a.takerAtaB].amount >= record.amountB &&
      s.tokens[a.takerAtaB].mint == s.tokens[a.makerAtaB].mint &&
      s.tokens[a.makerAtaB].amount + record.amountB <= U64_MAX &&
      s.tokens[a.vault].owner == a.vault && s.tokens[a.vault].amount == record.amountA &&
      s.tokens[a.vault].mint == s.tokens[a.takerAtaA].mint &&
      s.tokens[a.takerAtaA].amount + record.amountA <= U64_MAX
    ensures TakeOutcome(s, a, signers).Ok?
  {
    SignerSeedsNameVault(a.escrow, s.escrows[a.escrow].bump);
  }

  // ---------------------------------------------------------------------------
  // refund

  /** refund needs the maker's signature, and the maker must be the record's. */
  lemma RefundChecksMaker(s: LedgerState, a: RefundAccounts, signers: set<Pubkey>)
    ensures a.maker !in signers ==> RefundOutcome(s, a, signers) == Err(AccountNotSigner)
    ensures a.escrow in s.escrows && s.escrows[a.escrow].maker != a.maker ==>
      RefundOutcome(s, a, signers).Err?
    ensures a.maker in signers && a.escrow in s.escrows && a.vault in s.tokens && a.makerAtaA in s.tokens &&
            s.escrows[a.escrow].maker != a.maker ==>
            RefundOutcome(s, a, signers) == Err(ConstraintHasOne)
  {
  }

  /**
   * A successful refund moves amount_a from the vault to maker_ata_a, retires the vault
   * (which therefore held exactly amount_a) and the record, and credits both accounts'
   * lamports to the maker. Nothing else changes.
   */
  lemma RefundReturnsDeposit(s: LedgerState, a: RefundAccounts, signers: set<Pubkey>)
    requires RefundOutcome(s, a, signers).Ok?
    requires a.makerAtaA != a.vault && a.vault != a.escrow
    ensures var after := RefundOutcome(s, a, signers).value;
      var record := s.escrows[a.escrow];
      a.maker == record.maker && a.maker in signers &&
      after.mints == s.mints && after.escrows == s.escrows - {a.escrow} &&
      s.tokens[a.vault].amount == record.amountA &&
      after.tokens.Keys == s.tokens.Keys - {a.vault} &&
      after.tokens[a.makerAtaA] == s.tokens[a.makerAtaA].(amount := s.tokens[a.makerAtaA].amount + record.amountA) &&
      (forall k :: k in s.tokens && k != a.makerAtaA && k != a.vault ==> after.tokens[k] == s.tokens[k]) &&
      a.vault !in after.lamports && a.escrow !in after.lamports &&
      Balance(after.lamports, a.maker) ==
        Balance(s.lamports, a.maker) + Balance(s.lamports, a.vault) + Balance(s.lamports, a.escrow) &&
      (forall k :: k != a.maker && k != a.vault && k != a.escrow ==> Balance(after.lamports, k) == Balance(s.lamports, k))
  {
  }

  /**
   * make followed by refund of the same escrow into the same maker_ata_a leaves the token
   * accounts and the records as they were and every lamport balance where it was.
   */
  lemma MakeThenRefundRestores(s: LedgerState, a: MakeAccounts, signers: set<Pubkey>, bump: u8,
                               amountA: u64, amountB: u64, escrowRent: nat, vaultRent: nat,
                               signers2: set<Pubkey>)
    requires escrowRent > 0 && vaultRent > 0
    requires MakeOutcome(s, a, signers, bump, amountA, amountB, escrowRent, vaultRent).Ok?
    requires var made := MakeOutcome(s, a, signers, bump, amountA, amountB, escrowRent, vaultRent).value;
      RefundOutcome(made, RefundAccounts(a.maker, a.escrow, a.vault, a.makerAtaA), signers2).Ok?
    ensures var made := MakeOutcome(s, a, signers, bump, amountA, amountB, escrowRent, vaultRent).value;
      var after := RefundOutcome(made, RefundAccounts(a.maker, a.escrow, a.vault, a.makerAtaA), signers2).value;
      after.tokens == s.tokens && after.escrows == s.escrows &&
      forall k :: Balance(after.lamports, k) == Balance(s.lamports, k)
  {
    var made := MakeOutcome(s, a, signers, bump, amountA, amountB, escrowRent, vaultRent).value;
    var r := RefundAccounts(a.maker, a.escrow, a.vault, a.makerAtaA);
    MakeWritesRecord(s, a, signers, bump, amountA, amountB, escrowRent, vaultRent);
    MakeFundsVault(s, a, signers, bump, amountA, amountB, escrowRent, vaultRent);
    MakePaysRent(s, a, signers, bump, amountA, amountB, escrowRent, vaultRent);
    RefundReturnsDeposit(made, r, signers2);
    var after := RefundOutcome(made, r, signers2).value;
    assert after.tokens.Keys == s.tokens.Keys;
    forall k | k in s.tokens ensures after.tokens[k] == s.tokens[k] {
    }
    assert after.escrows == s.escrows;
  }

  /**
   * Right after a successful make, the maker can always refund: a refund signed by the
   * maker, naming the derived vault and the same maker_ata_a, succeeds.
   */
  lemma RefundAfterMakeSucceeds(s: LedgerState, a: MakeAccounts, signers: set<Pubkey>, bump: u8,
                                amountA: u64, amountB: u64, escrowRent: nat, vaultRent: nat,
                                signers2: set<Pubkey>)
    requires escrowRent > 0 && vaultRent > 0
    requires MakeOutcome(s, a, signers, bump, amountA, amountB, escrowRent, vaultRent).Ok?
    requires a.maker in signers2
    ensures var made := MakeOutcome(s, a, signers, bump, amountA, amountB, escrowRent, vaultRent).value;
      RefundOutcome(made, RefundAccounts(a.maker, a.escrow, a.vault, a.makerAtaA), signers2).Ok?
  {
    var made := MakeOutcome(s, a, signers, bump, amountA, amountB, escrowRent, vaultRent).value;
    MakeWritesRecord(s, a, signers, bump, amountA, amountB, escrowRent, vaultRent);
    MakeFundsVault(s, a, signers, bump, amountA, amountB, escrowRent, vaultRent);
    MakePaysRent(s, a, signers, bump, amountA, amountB, escrowRent, vaultRent);
    RefundSucceedsWhen(made, RefundAccounts(a.maker, a.escrow, a.vault, a.makerAtaA), signers2);
  }

  /** When its checks pass and the balances allow, refund succeeds. */
  lemma RefundSucceedsWhen(s: LedgerState, a: RefundAccounts, signers: set<Pubkey>)
    requires a.maker in signers && a.escrow in s.escrows
    requires a.maker == s.escrows[a.escrow].maker && a.maker != a.vault && a.maker != a.escrow
    requires a.vault == VaultAddress(a.escrow, s.escrows[a.escrow].bump)
    requires a.vault in s.tokens && a.makerAtaA in s.tokens && a.makerAtaA != a.vault
    requires var record := s.escrows[a.escrow];
      s.tokens[a.vault].owner == a.vault && s.tokens[a.vault].amount == record.amountA &&
      s.tokens[a.vault].mint == s.tokens[a.makerAtaA].mint &&
      s.tokens[a.makerAtaA].amount + record.amountA <= U64_MAX
    ensures RefundOutcome(s, a, signers).Ok?
  {
    SignerSeedsNameVault(a.escrow, s.escrows[a.escrow].bump);
  }

  // ---------------------------------------------------------------------------
  // Settlement happens at most once

  /** Once an escrow's record is gone, neither take nor refund can act on it. */
  lemma ClosedEscrowRejected(s: LedgerState, e: Pubkey, t: TakeAccounts, r: RefundAccounts, signers: set<Pubkey>)
    requires e !in s.escrows && t.escrow == e && r.escrow == e
    ensures TakeOutcome(s, t, signers).Err? && RefundOutcome(s, r, signers).Err?
  {
  }

  /** After a take, a second take and a refund of the same escrow both fail. */
  lemma TakeIsFinal(s: LedgerState, a: TakeAccounts, signers: set<Pubkey>,
                    t: TakeAccounts, r: RefundAccounts, signers2: set<Pubkey>)
    requires TakeOutcome(s, a, signers).Ok?
    requires t.escrow == a.escrow && r.escrow == a.escrow
    ensures var after := TakeOutcome(s, a, signers).value;
      TakeOutcome(after, t, signers2).Err? && RefundOutcome(after, r, signers2).Err?
  {
    ClosedEscrowRejected(TakeOutcome(s, a, signers).value, a.escrow, t, r, signers2);
  }

  /** After a refund, a take and a second refund of the same escrow both fail. */
  lemma RefundIsFinal(s: LedgerState, a: RefundAccounts, signers: set<Pubkey>,
                      t: TakeAccounts, r: RefundAccounts, signers2: set<Pubkey>)
    requires RefundOutcome(s, a, signers).Ok?
    requires t.escrow == a.escrow && r.escrow == a.escrow
    ensures var after := RefundOutcome(s, a, signers).value;
      TakeOutcome(after, t, signers2).Err? && RefundOutcome(after, r, signers2).Err?
  {
    ClosedEscrowRejected(RefundOutcome(s, a, signers).value, a.escrow, t, r, signers2);
  }

  // ---------------------------------------------------------------------------
  // Conservation of every mint's supply

  lemma MakeConservesSupply(s: LedgerState, a: MakeAccounts, signers: set<Pubkey>, bump: u8,
                            amountA: u64, amountB: u64, escrowRent: nat, vaultRent: nat, mint: Pubkey)
    requires MakeOutcome(s, a, signers, bump, amountA, amountB, escrowRent, vaultRent).Ok?
    ensures Supply(MakeOutcome(s, a, signers, bump, amountA, amountB, escrowRent, vaultRent).value.tokens, mint)
         == Supply(s.tokens, mint)
  {
    var initialized := InitializeAccount(s.tokens, s.mints, a.vault, a.mintA, a.vault).value;
    InitializeAccountPreservesSupply(s.tokens, s.mints, a.vault, a.mintA, a.vault, mint);
    TransferPreservesSupply(initialized, a.makerAtaA, a.vault, a.maker, signers, amountA, mint);
  }

  lemma TakeConservesSupply(s: LedgerState, a: TakeAccounts, signers: set<Pubkey>, mint: Pubkey)
    requires TakeOutcome(s, a, signers).Ok?
    ensures Supply(TakeOutcome(s, a, signers).value.tokens, mint) == Supply(s.tokens, mint)
  {
    var escrow := s.escrows[a.escrow];
    var vaultSigners := signers + {CreateProgramAddress(SignerSeeds(a.escrow, escrow.bump))};
    var paid := Transfer(s.tokens, a.takerAtaB, a.makerAtaB, a.taker, signers, escrow.amountB).value;
    var released := Transfer(paid, a.vault, a.takerAtaA, a.vault, vaultSigners, escrow.amountA).value;
    TransferPreservesSupply(s.tokens, a.takerAtaB, a.makerAtaB, a.taker, signers, escrow.amountB, mint);
    TransferPreservesSupply(paid, a.vault, a.takerAtaA, a.vault, vaultSigners, escrow.amountA, mint);
    CloseAccountPreservesSupply(released, s.lamports, a.vault, a.maker, a.vault, vaultSigners, mint);
  }

  lemma RefundConservesSupply(s: LedgerState, a: RefundAccounts, signers: set<Pubkey>, mint: Pubkey)
    requires RefundOutcome(s, a, signers).Ok?
    ensures Supply(RefundOutcome(s, a, signers).value.tokens, mint) == Supply(s.tokens, mint)
  {
    var escrow := s.escrows[a.escrow];
    var vaultSigners := signers + {CreateProgramAddress(SignerSeeds(a.escrow, escrow.bump))};
    var returned := Transfer(s.tokens, a.vault, a.makerAtaA, a.vault, vaultSigners, escrow.amountA).value;
    TransferPreservesSupply(s.tokens, a.vault, a.makerAtaA, a.vault, vaultSigners, escrow.amountA, mint);
    CloseAccountPreservesSupply(returned, s.lamports, a.vault, a.maker, a.vault, vaultSigners, mint);
  }

  // ---------------------------------------------------------------------------
  // Every open escrow's vault stays funded

  /**
   * A transfer whose signers include no program address other than `pda` leaves every
   * vault except the one at `pda` at least as full as before, with the same mint and owner.
   */
  lemma TransferSparesVaults(s: LedgerState, tokens: Accounts, source: Pubkey, destination: Pubkey,
                             authority: Pubkey, signers: set<Pubkey>, amount: u64, pda: Pubkey)
    requires NoProgramAddressSigners(signers - {pda})
    requires Transfer(tokens, source, destination, authority, signers, amount).Ok?
    ensures var moved := Transfer(tokens, source, destination, authority, signers, amount).value;
      forall e :: e in s.escrows && VaultAddress(e, s.escrows[e].bump) in tokens &&
                  VaultAddress(e, s.escrows[e].bump) != pda &&
                  tokens[VaultAddress(e, s.escrows[e].bump)].owner == VaultAddress(e, s.escrows[e].bump) ==>
        var v := VaultAddress(e, s.escrows[e].bump);
        v in moved && moved[v].mint == tokens[v].mint && moved[v].owner == v && moved[v].amount >= tokens[v].amount
  {
    var moved := Transfer(tokens, source, destination, authority, signers, amount).value;
    forall e | e in s.escrows && VaultAddress(e, s.escrows[e].bump) in tokens &&
               VaultAddress(e, s.escrows[e].bump) != pda &&
               tokens[VaultAddress(e, s.escrows[e].bump)].owner == VaultAddress(e, s.escrows[e].bump)
      ensures var v := VaultAddress(e, s.escrows[e].bump);
        v in moved && moved[v].mint == tokens[v].mint && moved[v].owner == v && moved[v].amount >= tokens[v].amount
    {
      var v := VaultAddress(e, s.escrows[e].bump);
      // a vault is its own owner, and a program address cannot have signed, so it is not the source
      assert v.ProgramAddress? && v !in signers - {pda};
    }
  }

  /** make keeps every vault funded and funds the new one. */
  lemma MakeKeepsVaultsFunded(s: LedgerState, a: MakeAccounts, signers: set<Pubkey>, bump: u8,
                              amountA: u64, amountB: u64, escrowRent: nat, vaultRent: nat)
    requires VaultsFunded(s) && NoProgramAddressSigners(signers)
    requires MakeOutcome(s, a, signers, bump, amountA, amountB, escrowRent, vaultRent).Ok?
    ensures VaultsFunded(MakeOutcome(s, a, signers, bump, amountA, amountB, escrowRent, vaultRent).value)
  {
    var after := MakeOutcome(s, a, signers, bump, amountA, amountB, escrowRent, vaultRent).value;
    MakeWritesRecord(s, a, signers, bump, amountA, amountB, escrowRent, vaultRent);
    MakeFundsVault(s, a, signers, bump, amountA, amountB, escrowRent, vaultRent);
    forall e | e in after.escrows ensures VaultFunded(after, e) {
      if e != a.escrow {
        assert VaultFunded(s, e);
      }
    }
  }

  /** take keeps every other open escrow's vault funded. */
  lemma TakeKeepsVaultsFunded(s: LedgerState, a: TakeAccounts, signers: set<Pubkey>)
    requires VaultsFunded(s) && NoProgramAddressSigners(signers)
    requires TakeOutcome(s, a, signers).Ok?
    ensures VaultsFunded(TakeOutcome(s, a, signers).value)
  {
    var after := TakeOutcome(s, a, signers).value;
    var escrow := s.escrows[a.escrow];
    var pda := CreateProgramAddress(SignerSeeds(a.escrow, escrow.bump));
    var vaultSigners := signers + {pda};
    SignerSeedsNameVault(a.escrow, escrow.bump);
    var paid := Transfer(s.tokens, a.takerAtaB, a.makerAtaB, a.taker, signers, escrow.amountB).value;
    var released := Transfer(paid, a.vault, a.takerAtaA, a.vault, vaultSigners, escrow.amountA).value;
    assert vaultSigners - {pda} <= signers;
    TransferSparesVaults(s, s.tokens, a.takerAtaB, a.makerAtaB, a.taker, signers, escrow.amountB, pda);
    TransferSparesVaults(s, paid, a.vault, a.takerAtaA, a.vault, vaultSigners, escrow.amountA, pda);
    forall e | e in after.escrows ensures VaultFunded(after, e) {
      assert VaultFunded(s, e);
      var v := VaultAddress(e, s.escrows[e].bump);
      if v == pda {
        VaultAddressInjective(e, s.escrows[e].bump, a.escrow, escrow.bump);
      }
      assert v != a.vault;
    }
  }

  /** refund keeps every other open escrow's vault funded. */
  lemma RefundKeepsVaultsFunded(s: LedgerState, a: RefundAccounts, signers: set<Pubkey>)
    requires VaultsFunded(s) && NoProgramAddressSigners(signers)
    requires RefundOutcome(s, a, signers).Ok?
    ensures VaultsFunded(RefundOutcome(s, a, signers).value)
  {
    var after := RefundOutcome(s, a, signers).value;
    var escrow := s.escrows[a.escrow];
    var pda := CreateProgramAddress(SignerSeeds(a.escrow, escrow.bump));
    var vaultSigners := signers + {pda};
    SignerSeedsNameVault(a.escrow, escrow.bump);
    assert vaultSigners - {pda} <= signers;
    TransferSparesVaults(s, s.tokens, a.vault, a.makerAtaA, a.vault, vaultSigners, escrow.amountA, pda);
    forall e | e in after.escrows ensures VaultFunded(after, e) {
      assert VaultFunded(s, e);
      var v := VaultAddress(e, s.escrows[e].bump);
      if v == pda {
        VaultAddressInjective(e, s.escrows[e].bump, a.escrow, escrow.bump);
      }
      assert v != a.vault;
    }
  }

  /**
   * A token transfer by anyone else, signed only with private keys, cannot take tokens out
   * of a vault: vaults stay funded.
   */
  lemma OutsideTransferKeepsVaultsFunded(s: LedgerState, source: Pubkey, destination: Pubkey,
                                         authority: Pubkey, signers: set<Pubkey>, amount: u64)
    requires VaultsFunded(s) && NoProgramAddressSigners(signers)
    requires Transfer(s.tokens, source, destination, authority, signers, amount).Ok?
    ensures VaultsFunded(s.(tokens := Transfer(s.tokens, source, destination, authority, signers, amount).value))
  {
    var after := s.(tokens := Transfer(s.tokens, source, destination, authority, signers, amount).value);
    forall e | e in after.escrows ensures VaultFunded(after, e) {
      assert VaultFunded(s, e);
    }
  }

  // ---------------------------------------------------------------------------
  // A vault holding more than amount_a cannot be settled

  /**
   * refund moves exactly amount_a and then needs the vault empty to close it: while the
   * derived vault holds more than amount_a, every refund of the escrow fails.
   */
  lemma OverfundedVaultBlocksRefund(s: LedgerState, a: RefundAccounts, signers: set<Pubkey>)
    requires a.escrow in s.escrows
    requires a.vault in s.tokens && s.tokens[a.vault].amount > s.escrows[a.escrow].amountA
    ensures RefundOutcome(s, a, signers).Err?
  {
  }

  /** The same holds for take: while the vault holds more than amount_a, every take fails. */
  lemma OverfundedVaultBlocksTake(s: LedgerState, a: TakeAccounts, signers: set<Pubkey>)
    requires NoProgramAddressSigners(signers)
    requires a.escrow in s.escrows
    requires a.vault == VaultAddress(a.escrow, s.escrows[a.escrow].bump)
    requires a.vault in s.tokens && s.tokens[a.vault].owner == a.vault
    requires s.tokens[a.vault].amount > s.escrows[a.escrow].amountA
    ensures TakeOutcome(s, a, signers).Err?
  {
    var escrow := s.escrows[a.escrow];
    var paid := Transfer(s.tokens, a.takerAtaB, a.makerAtaB, a.taker, signers, escrow.amountB);
    if paid.Ok? {
      assert a.takerAtaB != a.vault;
      assert paid.value[a.vault].amount >= s.tokens[a.vault].amount;
    }
  }

  /**
   * Anyone holding tokens of mint A can send some to an open escrow's vault, and from then
   * on neither refund nor take of that escrow can succeed.
   */
  lemma DepositBlocksSettlement(s: LedgerState, e: Pubkey, source: Pubkey, authority: Pubkey,
                                signers: set<Pubkey>, amount: u64,
                                t: TakeAccounts, r: RefundAccounts, signers2: set<Pubkey>)
    requires VaultsFunded(s) && e in s.escrows
    requires amount > 0 && source != VaultAddress(e, s.escrows[e].bump)
    requires Transfer(s.tokens, source, VaultAddress(e, s.escrows[e].bump), authority, signers, amount).Ok?
    requires NoProgramAddressSigners(signers2)
    requires t.escrow == e && t.vault == VaultAddress(e, s.escrows[e].bump)
    requires r.escrow == e && r.vault == VaultAddress(e, s.escrows[e].bump)
    ensures var after := s.(tokens := Transfer(s.tokens, source, VaultAddress(e, s.escrows[e].bump), authority, signers, amount).value);
      TakeOutcome(after, t, signers2).Err? && RefundOutcome(after, r, signers2).Err?
  {
    var v := VaultAddress(e, s.escrows[e].bump);
    var after := s.(tokens := Transfer(s.tokens, source, v, authority, signers, amount).value);
    assert VaultFunded(s, e);
    OverfundedVaultBlocksRefund(after, r, signers2);
    OverfundedVaultBlocksTake(after, t, signers2);
  }
}
