/**
 * The SPL token program instructions the escrow invokes: InitializeAccount (behind
 * Anchor's `token::mint` / `token::authority` init), Transfer and CloseAccount. They are
 * external to the escrow program; each is modelled as a function from the token-account
 * map to the new map or the error the token program returns. Delegates, freezing,
 * close authorities and native (wrapped SOL) accounts are not modelled.
 */
module Token {
  import opened Solana

  /** The size of an SPL token account, which Anchor allocates for the vault. */
  const ACCOUNT_LEN: nat := 165

  /** A token account: which mint it holds, who may move its tokens, and its balance. */
  datatype TokenAccount = TokenAccount(mint: Pubkey, owner: Pubkey, amount: u64)

  type Accounts = map<Pubkey, TokenAccount>

  datatype TokenError =
    | AlreadyInUse
    | InvalidMint
    | UninitializedState
    | InvalidAccountData
    | InsufficientFunds
    | MintMismatch
    | OwnerMismatch
    | MissingRequiredSignature
    | Overflow
    | NonNativeHasBalance

  /** Initialise a new, empty token account of `mint` whose authority is `owner`. */
  function InitializeAccount(accounts: Accounts, mints: set<Pubkey>, account: Pubkey,
                             mint: Pubkey, owner: Pubkey): (r: Result<Accounts, TokenError>)
    ensures r.Ok? <==> account !in accounts && mint in mints
    ensures r.Ok? ==> r.value.Keys == accounts.Keys + {account}
    ensures r.Ok? ==> r.value[account] == TokenAccount(mint, owner, 0)
    ensures r.Ok? ==> forall k :: k in accounts ==> r.value[k] == accounts[k]
  {
    if account in accounts then Err(AlreadyInUse)
    else if mint !in mints then Err(InvalidMint)
    else Ok(accounts[account := TokenAccount(mint, owner, 0)])
  }

  /**
   * Transfer `amount` from `source` to `destination`. The token program checks, in this
   * order, the balance, that both accounts hold the same mint, that `authority` is the
   * source's owner and that it signed; a transfer to the same account then changes
   * nothing, and otherwise the destination must not overflow 64 bits.
   */
  function Transfer(accounts: Accounts, source: Pubkey, destination: Pubkey, authority: Pubkey,
                    signers: set<Pubkey>, amount: u64): (r: Result<Accounts, TokenError>)
    ensures r.Ok? <==>
      source in accounts && destination in accounts &&
      amount <= accounts[source].amount &&
      accounts[source].mint == accounts[destination].mint &&
      accounts[source].owner == authority && authority in signers &&
      (source == destination || accounts[destination].amount + amount <= U64_MAX)
    ensures r.Ok? ==> r.value.Keys == accounts.Keys
    ensures r.Ok? ==> forall k :: k in accounts ==>
      r.value[k].mint == accounts[k].mint && r.value[k].owner == accounts[k].owner
    ensures r.Ok? && source == destination ==> r.value == accounts
    ensures r.Ok? && source != destination ==>
      r.value[source].amount == accounts[source].amount - amount &&
      r.value[destination].amount == accounts[destination].amount + amount
    ensures r.Ok? ==> forall k :: k in accounts && k != source && k != destination ==>
      r.value[k] == accounts[k]
  {
    if source !in accounts || destination !in accounts then Err(UninitializedState)
    else
      var src := accounts[source];
      var dst := accounts[destination];
      if src.amount < amount then Err(InsufficientFunds)
      else if src.mint != dst.mint then Err(MintMismatch)
      else if src.owner != authority then Err(OwnerMismatch)
      else if authority !in signers then Err(TokenError.MissingRequiredSignature)
      else if source == destination then Ok(accounts)
      else if dst.amount + amount > U64_MAX then Err(Overflow)
      else
        Ok(accounts[source := src.(amount := src.amount - amount)]
                   [destination := dst.(amount := dst.amount + amount)])
  }

  /** The token map and lamport balances after a CloseAccount. */
  datatype Closed = Closed(accounts: Accounts, lamports: Lamports)

  /**
   * Close `account`, sending its lamports to `destination`. The token program refuses a
   * close into the account itself, a balance that is not zero, and an authority that is
   * not the owner or did not sign.
   */
  function CloseAccount(accounts: Accounts, lamports: Lamports, account: Pubkey,
                        destination: Pubkey, authority: Pubkey, signers: set<Pubkey>)
    : (r: Result<Closed, TokenError>)
    ensures r.Ok? <==>
      account != destination && account in accounts && accounts[account].amount == 0 &&
      accounts[account].owner == authority && authority in signers
    ensures r.Ok? ==> r.value.accounts == accounts - {account}
    ensures r.Ok? ==> account !in r.value.lamports
    ensures r.Ok? ==>
      Balance(r.value.lamports, destination) == Balance(lamports, destination) + Balance(lamports, account)
    ensures r.Ok? ==> forall k :: k != account && k != destination ==>
      Balance(r.value.lamports, k) == Balance(lamports, k)
  {
    if account == destination then Err(InvalidAccountData)
    else if account !in accounts then Err(UninitializedState)
    else if accounts[account].amount != 0 then Err(NonNativeHasBalance)
    else if accounts[account].owner != authority then Err(OwnerMismatch)
    else if authority !in signers then Err(TokenError.MissingRequiredSignature)
    else Ok(Closed(accounts - {account}, Reclaim(lamports, account, destination)))
  }
}
