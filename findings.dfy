/**
 * Two weaknesses of take as written, each shown on a concrete ledger, and a take that
 * adds the constraints an honest take needs.
 *
 * First, nothing ties maker_ata_b to the record's maker or to mint_b, and the token
 * program only asks that taker_ata_b and maker_ata_b hold the same mint. A taker can
 * therefore pay amount_b of a worthless mint into an account of its own and still receive
 * amount_a from the vault (`TakePaysAnyAccount`).
 *
 * Second, take does not re-derive the vault from the record's seeds. A taker can pass as
 * `vault` a token account at a keypair of its own, which it signs for: the transfer and
 * the close then act on that decoy, `close = maker` removes the record, and the maker's
 * deposit stays in the derived vault, which only take or refund of the now missing record
 * could sign for (`TakeWithDecoyVault`).
 *
 * `TakeCheckedOutcome` is take with `seeds = [b"vault", escrow], bump = escrow.bump` on
 * the vault and with maker_ata_b constrained to hold mint_b and to belong to the maker.
 * `TakeCheckedReleasesVault` and `TakeCheckedPaysMaker` prove what it then guarantees.
 */
module Findings {
  import opened Solana
  import opened Token
  import opened EscrowProgram
  import opened EscrowProperties

  /**
   * take with the vault's seeds checked against the record and with maker_ata_b
   * constrained to the record's mint_b and maker. Anchor checks these constraints after
   * the accounts are loaded and after has_one; the handler itself is take's.
   */
  function TakeCheckedOutcome(s: LedgerState, a: TakeAccounts, signers: set<Pubkey>): (r: Result<LedgerState, Error>)
    ensures r.Ok? ==> TakeOutcome(s, a, signers) == r
    ensures r.Ok? ==> a.vault == VaultAddress(a.escrow, s.escrows[a.escrow].bump)
    ensures r.Ok? ==> s.tokens[a.makerAtaB].mint == s.escrows[a.escrow].mintB &&
                      s.tokens[a.makerAtaB].owner == s.escrows[a.escrow].maker
  {
    if a.taker !in signers then Err(AccountNotSigner)
    else if a.escrow !in s.escrows then Err(AccountNotInitialized)
    else if a.vault !in s.tokens || a.takerAtaA !in s.tokens || a.takerAtaB !in s.tokens
         || a.makerAtaB !in s.tokens then Err(AccountNotInitialized)
    else if s.escrows[a.escrow].maker != a.maker then Err(ConstraintHasOne)
    else if a.escrow == a.maker then Err(ConstraintClose)
    else if a.vault != VaultAddress(a.escrow, s.escrows[a.escrow].bump) then Err(ConstraintSeeds)
    else if s.tokens[a.makerAtaB].mint != s.escrows[a.escrow].mintB then Err(ConstraintTokenMint)
    else if s.tokens[a.makerAtaB].owner != s.escrows[a.escrow].maker then Err(ConstraintTokenOwner)
    else TakeOutcome(s, a, signers)
  }

  /**
   * On accounts that meet the two added constraints the checked take is take as written:
   * it refuses nothing an honest take would be allowed, and succeeds exactly when take does.
   */
  lemma TakeCheckedAgreesOnHonestAccounts(s: LedgerState, a: TakeAccounts, signers: set<Pubkey>)
    requires a.escrow in s.escrows && a.makerAtaB in s.tokens
    requires a.vault == VaultAddress(a.escrow, s.escrows[a.escrow].bump)
    requires s.tokens[a.makerAtaB].mint == s.escrows[a.escrow].mintB &&
             s.tokens[a.makerAtaB].owner == s.escrows[a.escrow].maker
    ensures TakeCheckedOutcome(s, a, signers) == TakeOutcome(s, a, signers)
  {
  }

  /**
   * A successful checked take empties and removes the vault derived for the record: the
   * record cannot be closed while the maker's deposit stays behind in its vault.
   */
  lemma TakeCheckedReleasesVault(s: LedgerState, a: TakeAccounts, signers: set<Pubkey>)
    requires TakeCheckedOutcome(s, a, signers).Ok?
    requires a.takerAtaA != a.takerAtaB && a.takerAtaA != a.makerAtaB && a.takerAtaA != a.vault
    requires a.takerAtaB != a.makerAtaB && a.takerAtaB != a.vault && a.makerAtaB != a.vault
    requires a.vault != a.escrow
    ensures var after := TakeCheckedOutcome(s, a, signers).value;
      var record := s.escrows[a.escrow];
      var v := VaultAddress(a.escrow, record.bump);
      v in s.tokens && s.tokens[v].amount == record.amountA && v !in after.tokens &&
      after.tokens[a.takerAtaA].amount == s.tokens[a.takerAtaA].amount + record.amountA &&
      after.escrows == s.escrows - {a.escrow}
  {
    TakeSettles(s, a, signers);
  }

  /**
   * A successful checked take, by a taker other than the maker, leaves the maker's own
   * mint-B account at least amount_b richer.
   */
  lemma TakeCheckedPaysMaker(s: LedgerState, a: TakeAccounts, signers: set<Pubkey>)
    requires TakeCheckedOutcome(s, a, signers).Ok?
    requires a.taker != s.escrows[a.escrow].maker && a.vault != s.escrows[a.escrow].maker
    ensures var after := TakeCheckedOutcome(s, a, signers).value;
      var record := s.escrows[a.escrow];
      a.makerAtaB in after.tokens &&
      after.tokens[a.makerAtaB].mint == record.mintB &&
      after.tokens[a.makerAtaB].owner == record.maker &&
      after.tokens[a.makerAtaB].amount >= s.tokens[a.makerAtaB].amount + record.amountB
  {
    var record := s.escrows[a.escrow];
    var vaultSigners := signers + {CreateProgramAddress(SignerSeeds(a.escrow, record.bump))};
    var paid := Transfer(s.tokens, a.takerAtaB, a.makerAtaB, a.taker, signers, record.amountB).value;
    assert a.takerAtaB != a.makerAtaB;
    assert paid[a.makerAtaB].amount == s.tokens[a.makerAtaB].amount + record.amountB;
    var released := Transfer(paid, a.vault, a.takerAtaA, a.vault, vaultSigners, record.amountA).value;
    assert a.vault != a.makerAtaB;
    assert released[a.makerAtaB].amount >= paid[a.makerAtaB].amount;
  }

  // A concrete ledger on which take as written lets the taker keep its payment.
  const Maker := Keypair(1)
  const Taker := Keypair(2)
  const EscrowKey := Keypair(3)
  const MintA := Keypair(10)
  const MintB := Keypair(11)
  const Junk := Keypair(12)
  const TakerAtaA := Keypair(21)
  const TakerJunk := Keypair(22)
  const TakerJunk2 := Keypair(23)
  const MakerAtaB := Keypair(24)
  const Bump: u8 := 254

  const Vault := VaultAddress(EscrowKey, Bump)

  /** An open escrow: 100 of mint A in the vault, 200 of mint B asked for. */
  function OpenLedger(): LedgerState
  {
    LedgerState(
      {MintA, MintB, Junk},
      map[Vault := TokenAccount(MintA, Vault, 100),
          TakerAtaA := TokenAccount(MintA, Taker, 0),
          TakerJunk := TokenAccount(Junk, Taker, 200),
          TakerJunk2 := TokenAccount(Junk, Taker, 0),
          MakerAtaB := TokenAccount(MintB, Maker, 0)],
      map[EscrowKey := Escrow(Maker, MintA, MintB, 100, 200, Bump)],
      map[])
  }

  /** The taker passes two junk accounts of its own as taker_ata_b and maker_ata_b. */
  function SelfPayingTake(): TakeAccounts
  {
    TakeAccounts(Taker, EscrowKey, Maker, Vault, TakerAtaA, TakerJunk, TakerJunk2)
  }

  /**
   * On that ledger take succeeds: the taker receives the 100 tokens of mint A, the escrow
   * is closed, the maker's mint-B account is untouched, and the taker still holds all 200
   * junk tokens. The checked take refuses the same accounts.
   */
  lemma TakePaysAnyAccount()
    ensures var s, a := OpenLedger(), SelfPayingTake();
      var outcome := TakeOutcome(s, a, {Taker});
      outcome.Ok? &&
      outcome.value.tokens[TakerAtaA].amount == 100 &&
      EscrowKey !in outcome.value.escrows && Vault !in outcome.value.tokens &&
      outcome.value.tokens[MakerAtaB] == s.tokens[MakerAtaB] &&
      outcome.value.tokens[TakerJunk].amount + outcome.value.tokens[TakerJunk2].amount == 200 &&
      outcome.value.tokens[TakerJunk2].owner == Taker &&
      TakeCheckedOutcome(s, a, {Taker}) == Err(ConstraintTokenMint)
  {
    var s, a := OpenLedger(), SelfPayingTake();
    assert Vault != TakerAtaA && Vault != TakerJunk && Vault != TakerJunk2 && Vault != MakerAtaB;
    TakeSucceedsWhen(s, a, {Taker});
    TakeSettles(s, a, {Taker});
  }

  const Decoy := Keypair(30)
  const TakerJunkA := Keypair(31)

  /** The open escrow of `OpenLedger`, plus a decoy vault and a second junk account of the taker. */
  function DecoyLedger(): LedgerState
  {
    var s := OpenLedger();
    s.(tokens := s.tokens[Decoy := TokenAccount(Junk, Decoy, 100)]
                         [TakerJunkA := TokenAccount(Junk, Taker, 0)])
  }

  /** The taker passes the decoy as the vault and signs for it; every leg moves junk tokens. */
  function DecoyTake(): TakeAccounts
  {
    TakeAccounts(Taker, EscrowKey, Maker, Decoy, TakerJunkA, TakerJunk, TakerJunk2)
  }

  /** On that ledger the decoy take passes every check of take as written. */
  lemma DecoyTakeSucceeds()
    ensures TakeOutcome(DecoyLedger(), DecoyTake(), {Taker, Decoy}).Ok?
  {
    var s, a := DecoyLedger(), DecoyTake();
    var signers := {Taker, Decoy};
    var vaultSigners := signers + {CreateProgramAddress(SignerSeeds(EscrowKey, Bump))};
    assert s.tokens[TakerJunk] == TokenAccount(Junk, Taker, 200);
    assert s.tokens[TakerJunk2] == TokenAccount(Junk, Taker, 0);
    assert s.tokens[Decoy] == TokenAccount(Junk, Decoy, 100);
    assert s.tokens[TakerJunkA] == TokenAccount(Junk, Taker, 0);
    var paid := Transfer(s.tokens, TakerJunk, TakerJunk2, Taker, signers, 200);
    assert paid.Ok?;
    assert paid.value[Decoy] == TokenAccount(Junk, Decoy, 100);
    var released := Transfer(paid.value, Decoy, TakerJunkA, Decoy, vaultSigners, 100);
    assert released.Ok?;
    assert released.value[Decoy].amount == 0;
  }

  /**
   * The decoy take removes the record, while the maker's 100 tokens of mint A stay in the
   * derived vault; the maker's refund then fails whatever accounts it names. The checked
   * take refuses the decoy.
   */
  lemma TakeWithDecoyVault(r: RefundAccounts)
    requires r.escrow == EscrowKey
    ensures var s, a := DecoyLedger(), DecoyTake();
      var outcome := TakeOutcome(s, a, {Taker, Decoy});
      outcome.Ok? &&
      EscrowKey !in outcome.value.escrows &&
      outcome.value.tokens[Vault] == TokenAccount(MintA, Vault, 100) &&
      RefundOutcome(outcome.value, r, {Maker}).Err? &&
      TakeCheckedOutcome(s, a, {Taker, Decoy}) == Err(ConstraintSeeds)
  {
    var s, a := DecoyLedger(), DecoyTake();
    DecoyTakeSucceeds();
    assert s.tokens[Vault] == TokenAccount(MintA, Vault, 100);
    assert s.escrows[EscrowKey].bump == Bump;
    assert a.vault != VaultAddress(EscrowKey, Bump);
    var after := TakeOutcome(s, a, {Taker, Decoy}).value;
    assert after.escrows == map[];
    TakeSettles(s, a, {Taker, Decoy});
    ClosedEscrowRejected(after, EscrowKey, a, r, {Maker});
  }
}
