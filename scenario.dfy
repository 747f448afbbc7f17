/**
 * The scenario of tests/escrow.ts, replayed on the model: the maker holds 100 of mint A, the taker 200 of
 * mint B; make(100, 200) followed by take leaves the taker with 100 of mint A and the maker
 * with 200 of mint B, and make(100, 200) followed by refund gives the maker back its 100.
 */
module Scenario {
  import opened Solana
  import opened Token
  import opened EscrowProgram
  import opened EscrowProperties
  import Findings

  const Maker := Keypair(1)
  const Taker := Keypair(2)
  const EscrowKey := Keypair(3)
  const MintA := Keypair(10)
  const MintB := Keypair(11)
  const MakerAtaA := Keypair(20)
  const TakerAtaA := Keypair(21)
  const TakerAtaB := Keypair(22)
  const MakerAtaB := Keypair(24)
  const Bump: u8 := 255
  const EscrowRent: nat := 1_900_000
  const VaultRent: nat := 2_000_000

  const Vault := VaultAddress(EscrowKey, Bump)

  function Genesis(): LedgerState
  {
    LedgerState(
      {MintA, MintB},
      map[MakerAtaA := TokenAccount(MintA, Maker, 100),
          TakerAtaA := TokenAccount(MintA, Taker, 0),
          TakerAtaB := TokenAccount(MintB, Taker, 200),
          MakerAtaB := TokenAccount(MintB, Maker, 0)],
      map[],
      map[Maker := 1_000_000_000, Taker := 1_000_000_000])
  }

  function MakeAccountsOf(): MakeAccounts
  {
    MakeAccounts(Maker, MintA, MintB, EscrowKey, Vault, MakerAtaA)
  }

  /** The ledger once make(100, 200) has run: the 100 tokens sit in the vault. */
  function Opened(): LedgerState
  {
    LedgerState(
      {MintA, MintB},
      map[MakerAtaA := TokenAccount(MintA, Maker, 0),
          TakerAtaA := TokenAccount(MintA, Taker, 0),
          TakerAtaB := TokenAccount(MintB, Taker, 200),
          MakerAtaB := TokenAccount(MintB, Maker, 0),
          Vault := TokenAccount(MintA, Vault, 100)],
      map[EscrowKey := Escrow(Maker, MintA, MintB, 100, 200, Bump)],
      map[Maker := 1_000_000_000 - EscrowRent - VaultRent, Taker := 1_000_000_000,
          EscrowKey := EscrowRent, Vault := VaultRent])
  }

  /** make(100, 200) on the initial ledger succeeds and opens the escrow. */
  lemma MakeOpens()
    ensures MakeOutcome(Genesis(), MakeAccountsOf(), {Maker, EscrowKey}, Bump, 100, 200, EscrowRent, VaultRent)
         == Ok(Opened())
  {
    var s, a := Genesis(), MakeAccountsOf();
    assert Vault != MakerAtaA && Vault != TakerAtaA && Vault != TakerAtaB && Vault != MakerAtaB;
    MakeSucceedsWhen(s, a, {Maker, EscrowKey}, Bump, 100, 200, EscrowRent, VaultRent);
    MakeWritesRecord(s, a, {Maker, EscrowKey}, Bump, 100, 200, EscrowRent, VaultRent);
    MakeFundsVault(s, a, {Maker, EscrowKey}, Bump, 100, 200, EscrowRent, VaultRent);
    var made := MakeOutcome(s, a, {Maker, EscrowKey}, Bump, 100, 200, EscrowRent, VaultRent).value;
    assert made.tokens == Opened().tokens;
    assert made.lamports == Opened().lamports;
  }

  /** take on the opened escrow: the trade of tests/escrow.ts. */
  lemma TakeCompletesTrade()
    ensures var taken := TakeOutcome(Opened(), TakeAccounts(Taker, EscrowKey, Maker, Vault, TakerAtaA, TakerAtaB, MakerAtaB), {Taker});
      taken.Ok? &&
      taken.value.tokens[TakerAtaA].amount == 100 && taken.value.tokens[TakerAtaB].amount == 0 &&
      taken.value.tokens[MakerAtaA].amount == 0 && taken.value.tokens[MakerAtaB].amount == 200 &&
      taken.value.escrows == map[] && Vault !in taken.value.tokens &&
      Balance(taken.value.lamports, Maker) == 1_000_000_000 &&
      Findings.TakeCheckedOutcome(Opened(), TakeAccounts(Taker, EscrowKey, Maker, Vault, TakerAtaA, TakerAtaB, MakerAtaB), {Taker}) == taken
  {
    var s := Opened();
    var t := TakeAccounts(Taker, EscrowKey, Maker, Vault, TakerAtaA, TakerAtaB, MakerAtaB);
    assert Vault != MakerAtaA && Vault != TakerAtaA && Vault != TakerAtaB && Vault != MakerAtaB;
    TakeSucceedsWhen(s, t, {Taker});
    TakeSettles(s, t, {Taker});
    Findings.TakeCheckedAgreesOnHonestAccounts(s, t, {Taker});
  }

  /** make(100, 200) then refund: the maker's 100 tokens of mint A come back. */
  lemma MakeThenRefund()
    ensures var made := MakeOutcome(Genesis(), MakeAccountsOf(), {Maker, EscrowKey}, Bump, 100, 200, EscrowRent, VaultRent);
      made.Ok? &&
      var refunded := RefundOutcome(made.value, RefundAccounts(Maker, EscrowKey, Vault, MakerAtaA), {Maker});
      refunded.Ok? && refunded.value.tokens == Genesis().tokens && refunded.value.escrows == map[]
  {
    var s, a := Genesis(), MakeAccountsOf();
    assert Vault != MakerAtaA;
    MakeSucceedsWhen(s, a, {Maker, EscrowKey}, Bump, 100, 200, EscrowRent, VaultRent);
    MakeWritesRecord(s, a, {Maker, EscrowKey}, Bump, 100, 200, EscrowRent, VaultRent);
    MakeFundsVault(s, a, {Maker, EscrowKey}, Bump, 100, 200, EscrowRent, VaultRent);
    MakePaysRent(s, a, {Maker, EscrowKey}, Bump, 100, 200, EscrowRent, VaultRent);
    var made := MakeOutcome(s, a, {Maker, EscrowKey}, Bump, 100, 200, EscrowRent, VaultRent).value;
    var r := RefundAccounts(Maker, EscrowKey, Vault, MakerAtaA);
    RefundSucceedsWhen(made, r, {Maker});
    MakeThenRefundRestores(s, a, {Maker, EscrowKey}, Bump, 100, 200, EscrowRent, VaultRent, {Maker});
  }
}
