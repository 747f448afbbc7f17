/**
 * The escrow program (programs/escrow/src/lib.rs): the `Escrow` record, the vault's
 * derived address, and the three instructions make, take and refund.
 *
 * Each instruction is given twice. `MakeOutcome`, `TakeOutcome` and `RefundOutcome` say
 * what the instruction does to a ledger snapshot: the new ledger, or the error that aborts
 * it. The class `Ledger` holds the ledger and its methods `Make`, `Take` and `Refund`
 * perform the same steps one at a time, undoing them all when a later step fails, as the
 * runtime discards every write of a failed instruction.
 */
module EscrowProgram {
  import opened Solana
  import opened Token

  /** The record's account size: an 8-byte discriminator, three keys, two u64s and a u8. */
  const INIT_SPACE: nat := 8 + 32 + 32 + 32 + 8 + 8 + 1

  /** The seed tag b"vault". */
  const VAULT_TAG: seq<u8> := [0x76, 0x61, 0x75, 0x6c, 0x74]

  /** The terms of one open trade. */
  datatype Escrow = Escrow(maker: Pubkey, mintA: Pubkey, mintB: Pubkey,
                           amountA: u64, amountB: u64, bump: u8)

  /** The seeds from which `make` derives the vault, before the bump is appended. */
  function VaultSeeds(escrow: Pubkey): seq<Seed>
  {
    [Bytes(VAULT_TAG), KeyBytes(escrow)]
  }

  /** The address the vault of `escrow` is derived at with the bump `bump`. */
  function VaultAddress(escrow: Pubkey, bump: u8): Pubkey
  {
    CreateProgramAddress(VaultSeeds(escrow) + [Bytes([bump])])
  }

  /** The signer seeds `take` and `refund` rebuild from the escrow key and its stored bump. */
  function SignerSeeds(escrow: Pubkey, bump: u8): seq<Seed>
  {
    [Bytes(VAULT_TAG), KeyBytes(escrow), Bytes([bump])]
  }

  /** Everything the three instructions read or write. Mint accounts are never changed. */
  datatype LedgerState = LedgerState(mints: set<Pubkey>, tokens: Accounts,
                                     escrows: map<Pubkey, Escrow>, lamports: Lamports)

  /** An address holding data or lamports cannot be created again. */
  predicate InUse(s: LedgerState, k: Pubkey)
  {
    k in s.mints || k in s.tokens || k in s.escrows || Balance(s.lamports, k) > 0
  }

  datatype Error =
    | AccountNotSigner
    | AccountNotInitialized
    | ConstraintHasOne
    | ConstraintClose
    | ConstraintSeeds
    | ConstraintTokenMint   // raised only by the corrected take in module Findings
    | ConstraintTokenOwner  // raised only by the corrected take in module Findings
    | System(systemError: SystemError)
    | Token(tokenError: TokenError)

  /** The accounts of the `Make` context. */
  datatype MakeAccounts = MakeAccounts(maker: Pubkey, mintA: Pubkey, mintB: Pubkey,
                                       escrow: Pubkey, vault: Pubkey, makerAtaA: Pubkey)

  /** The accounts of the `Take` context. */
  datatype TakeAccounts = TakeAccounts(taker: Pubkey, escrow: Pubkey, maker: Pubkey, vault: Pubkey,
                                       takerAtaA: Pubkey, takerAtaB: Pubkey, makerAtaB: Pubkey)

  /** The accounts of the `Refund` context. */
  datatype RefundAccounts = RefundAccounts(maker: Pubkey, escrow: Pubkey, vault: Pubkey, makerAtaA: Pubkey)

  /**
   * make: Anchor first checks that the maker signed, that both mints and maker_ata_a are
   * initialised accounts, then creates the escrow account (a keypair that signs) and the
   * vault at its derived address, both paid for by the maker, and makes the vault a token
   * account of mint A whose authority is the vault itself. The handler then writes the
   * record and moves amount_a from maker_ata_a to the vault under the maker's signature.
   * `bump` is the bump Anchor found for the vault, the rents are the runtime's rent-exempt
   * minimums for INIT_SPACE and ACCOUNT_LEN bytes.
   */
  function MakeOutcome(s: LedgerState, a: MakeAccounts, signers: set<Pubkey>, bump: u8,
                       amountA: u64, amountB: u64, escrowRent: nat, vaultRent: nat)
    : (r: Result<LedgerState, Error>)
    ensures a.maker !in signers ==> r == Err(AccountNotSigner)
    ensures r.Ok? ==>
      a.maker in signers && a.escrow in signers &&
      a.mintA in s.mints && a.mintB in s.mints && a.makerAtaA in s.tokens &&
      !InUse(s, a.escrow) && a.vault == VaultAddress(a.escrow, bump) &&
      r.value.mints == s.mints && a.escrow in r.value.escrows && a.vault in r.value.tokens
  {
    if a.maker !in signers then Err(AccountNotSigner)
    else if a.mintA !in s.mints || a.mintB !in s.mints || a.makerAtaA !in s.tokens then
      Err(AccountNotInitialized)
    else match CreateAccount(s.lamports, a.maker, a.escrow, escrowRent, signers, InUse(s, a.escrow))
      case Err(e) => Err(System(e))
      case Ok(withEscrow) =>
        if a.vault != VaultAddress(a.escrow, bump) then Err(ConstraintSeeds)
        else match CreateAccount(withEscrow, a.maker, a.vault, vaultRent, signers + {a.vault},
                                 InUse(s.(lamports := withEscrow), a.vault))
          case Err(e) => Err(System(e))
          case Ok(withVault) =>
            match InitializeAccount(s.tokens, s.mints, a.vault, a.mintA, a.vault)
            case Err(e) => Err(Token(e))
            case Ok(initialized) =>
              var record := Escrow(a.maker, a.mintA, a.mintB, amountA, amountB, bump);
              match Transfer(initialized, a.makerAtaA, a.vault, a.maker, signers, amountA)
              case Err(e) => Err(Token(e))
              case Ok(deposited) =>
                Ok(LedgerState(s.mints, deposited, s.escrows[a.escrow := record], withVault))
  }

  /**
   * take: Anchor checks that the taker signed, loads the escrow record and the four token
   * accounts, and checks has_one = maker. The handler moves amount_b from taker_ata_b to
   * maker_ata_b under the taker's signature, then amount_a from the vault to taker_ata_a
   * and closes the vault into the maker, both signed by the vault's derived address. On
   * exit Anchor closes the record into the maker (close = maker).
   */
  function TakeOutcome(s: LedgerState, a: TakeAccounts, signers: set<Pubkey>): (r: Result<LedgerState, Error>)
    ensures a.taker !in signers ==> r == Err(AccountNotSigner)
    ensures r.Ok? ==>
      a.taker in signers && a.escrow in s.escrows && s.escrows[a.escrow].maker == a.maker && a.escrow != a.maker &&
      a.vault in s.tokens && a.takerAtaA in s.tokens && a.takerAtaB in s.tokens && a.makerAtaB in s.tokens &&
      r.value.mints == s.mints && r.value.escrows == s.escrows - {a.escrow} && a.vault !in r.value.tokens &&
      r.value.tokens.Keys == s.tokens.Keys - {a.vault}
  {
    if a.taker !in signers then Err(AccountNotSigner)
    else if a.escrow !in s.escrows then Err(AccountNotInitialized)
    else if a.vault !in s.tokens || a.takerAtaA !in s.tokens || a.takerAtaB !in s.tokens
         || a.makerAtaB !in s.tokens then Err(AccountNotInitialized)
    else if s.escrows[a.escrow].maker != a.maker then Err(ConstraintHasOne)
    else if a.escrow == a.maker then Err(ConstraintClose)
    else
      var escrow := s.escrows[a.escrow];
      var vaultSigners := signers + {CreateProgramAddress(SignerSeeds(a.escrow, escrow.bump))};
      match Transfer(s.tokens, a.takerAtaB, a.makerAtaB, a.taker, signers, escrow.amountB)
      case Err(e) => Err(Token(e))
      case Ok(paid) =>
        match Transfer(paid, a.vault, a.takerAtaA, a.vault, vaultSigners, escrow.amountA)
        case Err(e) => Err(Token(e))
        case Ok(released) =>
          match CloseAccount(released, s.lamports, a.vault, a.maker, a.vault, vaultSigners)
          case Err(e) => Err(Token(e))
          case Ok(closed) =>
            Ok(LedgerState(s.mints, closed.accounts, s.escrows - {a.escrow},
                           Reclaim(closed.lamports, a.escrow, a.maker)))
  }

  /**
   * refund: Anchor checks that the maker signed, loads the record, the vault and
   * maker_ata_a, and checks has_one = maker. The handler moves amount_a from the vault back
   * to maker_ata_a and closes the vault into the maker, signed by the vault's derived
   * address; on exit Anchor closes the record into the maker.
   */
  function RefundOutcome(s: LedgerState, a: RefundAccounts, signers: set<Pubkey>): (r: Result<LedgerState, Error>)
    ensures a.maker !in signers ==> r == Err(AccountNotSigner)
    ensures r.Ok? ==>
      a.maker in signers && a.escrow in s.escrows && s.escrows[a.escrow].maker == a.maker && a.escrow != a.maker &&
      a.vault in s.tokens && a.makerAtaA in s.tokens &&
      r.value.mints == s.mints && r.value.escrows == s.escrows - {a.escrow} && a.vault !in r.value.tokens &&
      r.value.tokens.Keys == s.tokens.Keys - {a.vault}
  {
    if a.maker !in signers then Err(AccountNotSigner)
    else if a.escrow !in s.escrows then Err(AccountNotInitialized)
    else if a.vault !in s.tokens || a.makerAtaA !in s.tokens then Err(AccountNotInitialized)
    else if s.escrows[a.escrow].maker != a.maker then Err(ConstraintHasOne)
    else if a.escrow == a.maker then Err(ConstraintClose)
    else
      var escrow := s.escrows[a.escrow];
      var vaultSigners := signers + {CreateProgramAddress(SignerSeeds(a.escrow, escrow.bump))};
      match Transfer(s.tokens, a.vault, a.makerAtaA, a.vault, vaultSigners, escrow.amountA)
      case Err(e) => Err(Token(e))
      case Ok(returned) =>
        match CloseAccount(returned, s.lamports, a.vault, a.maker, a.vault, vaultSigners)
        case Err(e) => Err(Token(e))
        case Ok(closed) =>
          Ok(LedgerState(s.mints, closed.accounts, s.escrows - {a.escrow},
                         Reclaim(closed.lamports, a.escrow, a.maker)))
  }

  /** The ledger after an instruction: its effects if it succeeded, else nothing at all. */
  function Commit(before: LedgerState, outcome: Result<LedgerState, Error>): LedgerState
  {
    if outcome.Ok? then outcome.value else before
  }

  /** What the instruction reports to its caller. */
  function Status(outcome: Result<LedgerState, Error>): Result<(), Error>
  {
    if outcome.Ok? then Ok(()) else Err(outcome.error)
  }

  /** The ledger the program runs against, updated in place by each instruction. */
  class Ledger {
    var mints: set<Pubkey>
    var tokens: Accounts
    var escrows: map<Pubkey, Escrow>
    var lamports: Lamports

    function State(): LedgerState
      reads this
    {
      LedgerState(mints, tokens, escrows, lamports)
    }

    constructor (genesis: LedgerState)
      ensures State() == genesis
    {
      mints, tokens, escrows, lamports := genesis.mints, genesis.tokens, genesis.escrows, genesis.lamports;
    }

    /** Discards every write of the failing instruction. */
    method Restore(saved: LedgerState)
      modifies this
      ensures State() == saved
    {
      mints, tokens, escrows, lamports := saved.mints, saved.tokens, saved.escrows, saved.lamports;
    }

    method Make(a: MakeAccounts, signers: set<Pubkey>, bump: u8, amountA: u64, amountB: u64,
                escrowRent: nat, vaultRent: nat) returns (r: Result<(), Error>)
      modifies this
      ensures State() == Commit(old(State()), MakeOutcome(old(State()), a, signers, bump, amountA, amountB, escrowRent, vaultRent))
      ensures r == Status(MakeOutcome(old(State()), a, signers, bump, amountA, amountB, escrowRent, vaultRent))
    {
      var saved := State();
      if a.maker !in signers {
        return Err(AccountNotSigner);
      }
      if a.mintA !in mints || a.mintB !in mints || a.makerAtaA !in tokens {
        return Err(AccountNotInitialized);
      }
      // init escrow, payer = maker, space = INIT_SPACE
      var created := CreateAccount(lamports, a.maker, a.escrow, escrowRent, signers, InUse(State(), a.escrow));
      if created.Err? {
        return Err(System(created.error));
      }
      lamports := created.value;
      // init vault, payer = maker, seeds = [b"vault", escrow], bump
      if a.vault != VaultAddress(a.escrow, bump) {
        Restore(saved);
        return Err(ConstraintSeeds);
      }
      created := CreateAccount(lamports, a.maker, a.vault, vaultRent, signers + {a.vault}, InUse(State(), a.vault));
      if created.Err? {
        Restore(saved);
        return Err(System(created.error));
      }
      lamports := created.value;
      // token::mint = mint_a, token::authority = vault; this cannot fail once the vault
      // address was found unused and mint_a was loaded
      var initialized := InitializeAccount(tokens, mints, a.vault, a.mintA, a.vault);
      tokens := initialized.value;
      // set_inner
      escrows := escrows[a.escrow := Escrow(a.maker, a.mintA, a.mintB, amountA, amountB, bump)];
      // token::transfer(maker_ata_a -> vault, authority = maker)
      var deposited := Transfer(tokens, a.makerAtaA, a.vault, a.maker, signers, amountA);
      if deposited.Err? {
        Restore(saved);
        return Err(Token(deposited.error));
      }
      tokens := deposited.value;
      r := Ok(());
    }

    method Take(a: TakeAccounts, signers: set<Pubkey>) returns (r: Result<(), Error>)
      modifies this
      ensures State() == Commit(old(State()), TakeOutcome(old(State()), a, signers))
      ensures r == Status(TakeOutcome(old(State()), a, signers))
    {
      var saved := State();
      if a.taker !in signers {
        return Err(AccountNotSigner);
      }
      if a.escrow !in escrows {
        return Err(AccountNotInitialized);
      }
      if a.vault !in tokens || a.takerAtaA !in tokens || a.takerAtaB !in tokens || a.makerAtaB !in tokens {
        return Err(AccountNotInitialized);
      }
      if escrows[a.escrow].maker != a.maker {
        return Err(ConstraintHasOne);
      }
      if a.escrow == a.maker {
        return Err(ConstraintClose);
      }
      var escrow := escrows[a.escrow];
      var vaultSigners := signers + {CreateProgramAddress(SignerSeeds(a.escrow, escrow.bump))};
      // token::transfer(taker_ata_b -> maker_ata_b, authority = taker)
      var moved := Transfer(tokens, a.takerAtaB, a.makerAtaB, a.taker, signers, escrow.amountB);
      if moved.Err? {
        return Err(Token(moved.error));
      }
      tokens := moved.value;
      // token::transfer(vault -> taker_ata_a, authority = vault), signed with the vault seeds
      moved := Transfer(tokens, a.vault, a.takerAtaA, a.vault, vaultSigners, escrow.amountA);
      if moved.Err? {
        Restore(saved);
        return Err(Token(moved.error));
      }
      tokens := moved.value;
      // token::close_account(vault -> maker), signed with the vault seeds
      var closed := CloseAccount(tokens, lamports, a.vault, a.maker, a.vault, vaultSigners);
      if closed.Err? {
        Restore(saved);
        return Err(Token(closed.error));
      }
      tokens, lamports := closed.value.accounts, closed.value.lamports;
      // close = maker on the record, when the instruction exits
      escrows := escrows - {a.escrow};
      lamports := Reclaim(lamports, a.escrow, a.maker);
      r := Ok(());
    }

    method Refund(a: RefundAccounts, signers: set<Pubkey>) returns (r: Result<(), Error>)
      modifies this
      ensures State() == Commit(old(State()), RefundOutcome(old(State()), a, signers))
      ensures r == Status(RefundOutcome(old(State()), a, signers))
    {
      var saved := State();
      if a.maker !in signers {
        return Err(AccountNotSigner);
      }
      if a.escrow !in escrows {
        return Err(AccountNotInitialized);
      }
      if a.vault !in tokens || a.makerAtaA !in tokens {
        return Err(AccountNotInitialized);
      }
      if escrows[a.escrow].maker != a.maker {
        return Err(ConstraintHasOne);
      }
      if a.escrow == a.maker {
        return Err(ConstraintClose);
      }
      var escrow := escrows[a.escrow];
      var vaultSigners := signers + {CreateProgramAddress(SignerSeeds(a.escrow, escrow.bump))};
      // token::transfer(vault -> maker_ata_a, authority = vault), signed with the vault seeds
      var returned := Transfer(tokens, a.vault, a.makerAtaA, a.vault, vaultSigners, escrow.amountA);
      if returned.Err? {
        return Err(Token(returned.error));
      }
      tokens := returned.value;
      // token::close_account(vault -> maker), signed with the vault seeds
      var closed := CloseAccount(tokens, lamports, a.vault, a.maker, a.vault, vaultSigners);
      if closed.Err? {
        Restore(saved);
        return Err(Token(closed.error));
      }
      tokens, lamports := closed.value.accounts, closed.value.lamports;
      // close = maker on the record, when the instruction exits
      escrows := escrows - {a.escrow};
      lamports := Reclaim(lamports, a.escrow, a.maker);
      r := Ok(());
    }
  }
}
