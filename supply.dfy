/**
 * The amount of one mint held across all token accounts, and how the token program's
 * instructions leave it unchanged.
 */
module MintSupply {
  import opened Solana
  import opened Token

  /** What one account contributes to the supply of `mint`. */
  function Held(a: TokenAccount, mint: Pubkey): nat
  {
    if a.mint == mint then a.amount else 0
  }

  ghost function SumOver(accounts: Accounts, keys: set<Pubkey>, mint: Pubkey): nat
    requires keys <= accounts.Keys
    decreases keys
  {
    if keys == {} then 0
    else
      var k :| k in keys;
      Held(accounts[k], mint) + SumOver(accounts, keys - {k}, mint)
  }

  /** The number of `mint` tokens held in all token accounts together. */
  ghost function Supply(accounts: Accounts, mint: Pubkey): nat
  {
    SumOver(accounts, accounts.Keys, mint)
  }

  /** The sum does not depend on which key is taken first. */
  lemma {:induction false} SumOverPick(accounts: Accounts, keys: set<Pubkey>, mint: Pubkey, k: Pubkey)
    requires keys <= accounts.Keys && k in keys
    ensures SumOver(accounts, keys, mint) == Held(accounts[k], mint) + SumOver(accounts, keys - {k}, mint)
    decreases keys
  {
    var j :| j in keys && SumOver(accounts, keys, mint) == Held(accounts[j], mint) + SumOver(accounts, keys - {j}, mint);
    if j != k {
      SumOverPick(accounts, keys - {j}, mint, k);
      SumOverPick(accounts, keys - {k}, mint, j);
      assert keys - {j} - {k} == keys - {k} - {j};
    }
  }

  /** Two account maps that agree on every key's contribution have the same sum. */
  lemma {:induction false} SumOverAgree(a: Accounts, b: Accounts, keys: set<Pubkey>, mint: Pubkey)
    requires keys <= a.Keys && keys <= b.Keys
    requires forall k :: k in keys ==> Held(a[k], mint) == Held(b[k], mint)
    ensures SumOver(a, keys, mint) == SumOver(b, keys, mint)
    decreases keys
  {
    if keys != {} {
      var k :| k in keys;
      SumOverPick(a, keys, mint, k);
      SumOverPick(b, keys, mint, k);
      SumOverAgree(a, b, keys - {k}, mint);
    }
  }

  /** Replacing one account changes the supply by the difference of the two contributions. */
  lemma SupplyUpdate(accounts: Accounts, k: Pubkey, v: TokenAccount, mint: Pubkey)
    requires k in accounts
    ensures Supply(accounts[k := v], mint) + Held(accounts[k], mint) == Supply(accounts, mint) + Held(v, mint)
  {
    var updated := accounts[k := v];
    assert updated.Keys == accounts.Keys;
    SumOverPick(accounts, accounts.Keys, mint, k);
    SumOverPick(updated, updated.Keys, mint, k);
    SumOverAgree(accounts, updated, accounts.Keys - {k}, mint);
  }

  /** Adding a new account adds its contribution. */
  lemma SupplyInsert(accounts: Accounts, k: Pubkey, v: TokenAccount, mint: Pubkey)
    requires k !in accounts
    ensures Supply(accounts[k := v], mint) == Supply(accounts, mint) + Held(v, mint)
  {
    var extended := accounts[k := v];
    assert extended.Keys - {k} == accounts.Keys;
    SumOverPick(extended, extended.Keys, mint, k);
    SumOverAgree(accounts, extended, accounts.Keys, mint);
  }

  /** Removing an account removes its contribution. */
  lemma SupplyRemove(accounts: Accounts, k: Pubkey, mint: Pubkey)
    requires k in accounts
    ensures Supply(accounts - {k}, mint) + Held(accounts[k], mint) == Supply(accounts, mint)
  {
    var reduced := accounts - {k};
    assert reduced.Keys == accounts.Keys - {k};
    SumOverPick(accounts, accounts.Keys, mint, k);
    SumOverAgree(accounts, reduced, reduced.Keys, mint);
  }

  /** A token transfer moves tokens between two accounts of the same mint: no supply changes. */
  lemma TransferPreservesSupply(accounts: Accounts, source: Pubkey, destination: Pubkey,
                                authority: Pubkey, signers: set<Pubkey>, amount: u64, mint: Pubkey)
    requires Transfer(accounts, source, destination, authority, signers, amount).Ok?
    ensures Supply(Transfer(accounts, source, destination, authority, signers, amount).value, mint)
         == Supply(accounts, mint)
  {
    if source != destination {
      var src, dst := accounts[source], accounts[destination];
      var debited := accounts[source := src.(amount := src.amount - amount)];
      SupplyUpdate(accounts, source, src.(amount := src.amount - amount), mint);
      SupplyUpdate(debited, destination, dst.(amount := dst.amount + amount), mint);
    }
  }

  /** Closing an account, which must be empty, leaves every supply unchanged. */
  lemma CloseAccountPreservesSupply(accounts: Accounts, lamports: Lamports, account: Pubkey,
                                    destination: Pubkey, authority: Pubkey, signers: set<Pubkey>, mint: Pubkey)
    requires CloseAccount(accounts, lamports, account, destination, authority, signers).Ok?
    ensures Supply(CloseAccount(accounts, lamports, account, destination, authority, signers).value.accounts, mint)
         == Supply(accounts, mint)
  {
    SupplyRemove(accounts, account, mint);
  }

  /** A freshly initialised token account is empty: no supply changes. */
  lemma InitializeAccountPreservesSupply(accounts: Accounts, mints: set<Pubkey>, account: Pubkey,
                                         accountMint: Pubkey, owner: Pubkey, mint: Pubkey)
    requires InitializeAccount(accounts, mints, account, accountMint, owner).Ok?
    ensures Supply(InitializeAccount(accounts, mints, account, accountMint, owner).value, mint)
         == Supply(accounts, mint)
  {
    SupplyInsert(accounts, account, TokenAccount(accountMint, owner, 0), mint);
  }
}
