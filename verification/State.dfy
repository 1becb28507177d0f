/** The accounts, events and balances one pool is about (state.rs, events.rs). */
module State {
  import opened Numbers

  import Sums

  datatype Pubkey = Pubkey(bytes: seq<u8>)

  const DEFAULT_PUBKEY := Pubkey(
    [0, 0, 0, 0, 0, 0, 0, 0, 0, 0, 0, 0, 0, 0, 0, 0, 0, 0, 0, 0, 0, 0, 0, 0, 0, 0, 0, 0, 0, 0, 0, 0])

  /** A key used as the address of a signer or contributor. */
  type Wallet = Pubkey

  datatype PoolStatus = Open | Launching | Bought | Finalized | Refundable | Closed

  function StatusName(s: PoolStatus): string {
    match s
    case Open => "Open"
    case Launching => "Launching"
    case Bought => "Bought"
    case Finalized => "Finalized"
    case Refundable => "Refundable"
    case Closed => "Closed"
  }

  datatype Pool = Pool(
    bump: u8,
    buyerBump: u8,
    status: PoolStatus,
    creator: Pubkey,
    seed: u64,
    mint: Pubkey,
    launchAt: i64,
    graceEndsAt: i64,
    minRaise: u64,
    maxPool: u64,
    minContribution: u64,
    totalContributed: u64,
    contributorCount: u32,
    tokensBought: u64,
    distributable: u64,
    burned: u64,
    postVirtualToken: u64,
    postVirtualQuote: u64,
    totalClaimed: u64,
    totalRefunded: u64)

  datatype Contribution = Contribution(
    bump: u8,
    pool: Pubkey,
    contributor: Pubkey,
    amount: u64,
    claimed: bool,
    refunded: bool)

  /** Freshly allocated account data is all zeros. */
  const BLANK_POOL := Pool(0, 0, Open, DEFAULT_PUBKEY, 0, DEFAULT_PUBKEY, 0, 0, 0, 0, 0, 0, 0, 0, 0, 0, 0, 0, 0, 0)
  const BLANK_CONTRIBUTION := Contribution(0, DEFAULT_PUBKEY, DEFAULT_PUBKEY, 0, false, false)

  /** The events of this pool; the `pool` key each of them carries is left implicit. */
  datatype Event =
    | PoolCreated(creator: Pubkey, seed: u64, launchAt: i64, graceEndsAt: i64,
                  minRaise: u64, maxPool: u64, minContribution: u64)
    | Contributed(contributor: Pubkey, amount: u64, totalContributed: u64)
    | LaunchBegun(mint: Pubkey, totalContributed: u64)
    | BuyCompleted(mint: Pubkey, spendable: u64, tokensBought: u64, postVirtualToken: u64, postVirtualQuote: u64)
    | Finalized(mint: Pubkey, totalContributed: u64, tokensBought: u64, distributable: u64, burned: u64,
                postVirtualToken: u64, postVirtualQuote: u64)
    | Claimed(contributor: Pubkey, amount: u64, tokens: u64)
    | Refunded(contributor: Pubkey, amount: u64)
    | MarkedRefundable

  /** The pool account's own life: not yet created, existing, closed. */
  datatype Lifetime = Absent | Live | Gone

  /** Everything one pool's instructions read and write. */
  datatype Chain = Chain(
    key: Wallet,                              // address of the pool account
    rent: nat,                                // rent-exempt minimum of the pool account
    lifetime: Lifetime,
    pool: Pool,
    contributions: map<Wallet, Contribution>, // initialised Contribution accounts, by contributor
    poolLamports: nat,
    buyerLamports: nat,
    vault: nat,                               // tokens in the buyer PDA's account
    wallets: map<Wallet, nat>,                // lamports of signers
    tokens: map<Wallet, nat>,                 // tokens of signers
    outside: nat,                             // lamports everywhere else
    log: seq<Event>)

  /** All lamports there are. */
  ghost function Supply(c: Chain): nat {
    c.poolLamports + c.buyerLamports + c.outside + Sums.Sum(c.wallets)
  }

  /** The state before anything happened to the pool: no accounts, no events, any balances. */
  ghost predicate Genesis(c: Chain) {
    && c.key != DEFAULT_PUBKEY
    && c.lifetime == Absent
    && c.pool == BLANK_POOL
    && c.contributions == map[]
    && c.log == []
    && Supply(c) <= U64_MAX
  }
}
