/**
 * The parts of the Solana runtime the escrow program relies on: account addresses,
 * program-derived addresses, lamport balances and the system program's create_account.
 * None of this is code of the escrow program; it is the environment its handlers run in.
 */
module Solana {

  type u8 = x: int | 0 <= x < 0x100
  type u64 = x: int | 0 <= x <= 0xFFFF_FFFF_FFFF_FFFF

  const U64_MAX: int := 0xFFFF_FFFF_FFFF_FFFF

  datatype Result<T, E> = Ok(value: T) | Err(error: E)

  /** One seed of a program-derived address: raw bytes, or the 32 bytes of a key. */
  datatype Seed = Bytes(bytes: seq<u8>) | KeyBytes(key: Pubkey)

  /**
   * An account address. A keypair address has a private key somewhere; a program address
   * is the hash of a program's seeds and lies off the curve, so nobody holds a key for it.
   * The hash is abstracted as this constructor, which makes derivation injective.
   */
  datatype Pubkey = Keypair(id: nat) | ProgramAddress(seeds: seq<Seed>)

  /** create_program_address for this program: the seeds (bump included) name one address. */
  function CreateProgramAddress(seeds: seq<Seed>): Pubkey
  {
    ProgramAddress(seeds)
  }

  /** Transaction signatures come from private keys, which program addresses do not have. */
  ghost predicate NoProgramAddressSigners(signers: set<Pubkey>)
  {
    forall k :: k in signers ==> k.Keypair?
  }

  /** Lamport balances; an address absent from the map holds none. */
  type Lamports = map<Pubkey, nat>

  function Balance(l: Lamports, k: Pubkey): nat
  {
    if k in l then l[k] else 0
  }

  /**
   * Retiring an account: its lamports are added to `destination` and the account, now
   * empty, disappears. Anchor's `close` refuses an account that is its own destination
   * (ConstraintClose), so the instructions never reach the case account == destination.
   */
  function Reclaim(l: Lamports, account: Pubkey, destination: Pubkey): (r: Lamports)
    ensures account !in r
    ensures account != destination ==>
      Balance(r, destination) == Balance(l, destination) + Balance(l, account)
    ensures forall k :: k != account && k != destination ==> Balance(r, k) == Balance(l, k)
  {
    l[destination := Balance(l, destination) + Balance(l, account)] - {account}
  }

  datatype SystemError = AccountAlreadyInUse | MissingRequiredSignature | ResultWithNegativeLamports

  /**
   * The system program's create_account: `to` must be unused and must sign, `from` must
   * sign and afford `lamports`, which move from `from` to `to`. Whether `to` is in use
   * (holds lamports or data) is decided by the caller, who knows every kind of account.
   */
  function CreateAccount(l: Lamports, from: Pubkey, to: Pubkey, lamports: nat,
                         signers: set<Pubkey>, toInUse: bool): (r: Result<Lamports, SystemError>)
    ensures r.Ok? <==> !toInUse && to in signers && from in signers && lamports <= Balance(l, from)
    ensures r.Ok? && from != to ==>
      Balance(r.value, from) == Balance(l, from) - lamports &&
      Balance(r.value, to) == Balance(l, to) + lamports
    ensures r.Ok? ==> forall k :: k != from && k != to ==> Balance(r.value, k) == Balance(l, k)
  {
    if toInUse then Err(AccountAlreadyInUse)
    else if to !in signers || from !in signers then Err(MissingRequiredSignature)
    else if Balance(l, from) < lamports then Err(ResultWithNegativeLamports)
    else
      var debited := l[from := Balance(l, from) - lamports];
      Ok(debited[to := Balance(debited, to) + lamports])
  }
}
