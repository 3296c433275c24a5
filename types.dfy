/** The values the contract works on: balances, keys, tokens, the four
    instructions and the outcome of processing one of them. */
module Types {

  const U64_LIMIT: int := 0x1_0000_0000_0000_0000

  /** Rust's `u64`: every balance and every amount. */
  newtype uint64 = x: int | 0 <= x < 0x1_0000_0000_0000_0000

  /** Rust's `u32`: the payload of `ProgramError::Custom`. */
  newtype uint32 = x: int | 0 <= x < 0x1_0000_0000

  /** A Solana public key: opaque bytes, compared only for equality. */
  datatype Pubkey = Pubkey(bytes: seq<bv8>)

  /** `TokenType { symbol }`: a token is identified by its symbol alone. */
  datatype TokenType = TokenType(symbol: string)

  /** `ContractInstruction`, already decoded from the instruction bytes. */
  datatype ContractInstruction =
    | AdminAddSupportedToken(token: TokenType)
    | AdminDeleteSupportedToken(token: TokenType)
    | UserDeposit(token: TokenType, user: Pubkey, amount: uint64)
    | UserWithdraw(token: TokenType, user: Pubkey, amount: uint64)

  /** The `ProgramError` values the contract returns. */
  datatype ProgramError =
    | Custom(code: uint32)
    | MissingRequiredSignature
    | InsufficientFunds

  /** What processing one instruction ends in: `Ok(())`, a returned error, or
      the panic raised by an overflowing `+=` on a balance. */
  datatype Outcome = Ok | Err(error: ProgramError) | OverflowPanic

  /** `ContractState.all_token_balances`: token -> user -> balance. */
  type Balances = map<TokenType, map<Pubkey, uint64>>

  /** An injected signature check: is `sig` a valid authorisation by `key`? */
  type Verifier = (Pubkey, seq<bv8>) -> bool

  /** The admin key `D6gQXdUX7AwrGtdQaCuZ5p1MwyXHaidWvKypdKY9bmkA`, as the
      32 bytes its base58 text stands for. */
  const AdminPubkey: Pubkey := Pubkey([
    0xb3, 0xc0, 0xb4, 0x0a, 0x21, 0x9c, 0xb0, 0x7f, 0x24, 0xfc, 0x89, 0xe1, 0x53, 0xe8, 0x24, 0xbb,
    0xef, 0x4a, 0xa5, 0x85, 0x8e, 0xb1, 0xc5, 0x31, 0x32, 0x98, 0x12, 0xbf, 0x51, 0x6c, 0x35, 0xa7])

  /** The all-zero 65-byte buffer passed as the signature by the add, deposit
      and withdraw arms. */
  function MockSignature(): seq<bv8>
  {
    seq(65, _ => 0)
  }

  /** The verifier the contract ships with: it accepts everything. */
  function VerifySignature(pubkey: Pubkey, sig: seq<bv8>): bool
  {
    true
  }

  /** The balance of `user` in `token`, reading a missing token or a missing
      user entry as 0. */
  function BalanceOf(s: Balances, token: TokenType, user: Pubkey): uint64
  {
    if token in s && user in s[token] then s[token][user] else 0
  }
}
