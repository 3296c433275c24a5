/** What one instruction does to the token balances: the specification
    `Contract.ContractState.ProcessInstruction` is proved against, and the
    properties of each of its four arms. */
module Ledger {
  import opened Types

  /** The state after one instruction, and how the instruction ended. */
  datatype Transition = Transition(state: Balances, outcome: Outcome)

  /** The key whose signature an instruction's arm checks first. */
  function Signer(instruction: ContractInstruction): Pubkey
  {
    match instruction
    case AdminAddSupportedToken(_) => AdminPubkey
    case AdminDeleteSupportedToken(_) => AdminPubkey
    case UserDeposit(_, user, _) => user
    case UserWithdraw(_, user, _) => user
  }

  /** The bytes an instruction's arm hands to the verifier as the signature:
      the instruction data for a delete, the mock buffer otherwise. */
  function SignatureFor(instruction: ContractInstruction, instructionData: seq<bv8>): seq<bv8>
  {
    if instruction.AdminDeleteSupportedToken? then instructionData else MockSignature()
  }

  /** Does the verifier accept the signature check of this instruction? */
  predicate Authorised(instruction: ContractInstruction, instructionData: seq<bv8>, verify: Verifier)
  {
    verify(Signer(instruction), SignatureFor(instruction, instructionData))
  }

  /** `entry(user).or_insert(0)` on the inner map of a registered token. */
  function OrInsertZero(s: Balances, token: TokenType, user: Pubkey): (r: Balances)
    requires token in s
    ensures r.Keys == s.Keys && user in r[token]
    ensures r[token][user] == BalanceOf(s, token, user)
    ensures r[token].Keys == s[token].Keys + {user}
    ensures forall u :: BalanceOf(r, token, u) == BalanceOf(s, token, u)
    ensures forall t :: t in s && t != token ==> r[t] == s[t]
  {
    if user in s[token] then s else s[token := s[token][user := 0]]
  }

  /** One instruction against the balances `s`, arm by arm: the signature
      check, then the registration check, then the change. A deposit and a
      withdraw run `or_insert(0)` before looking at the amount. A deposit
      whose sum does not fit in a u64 ends in a panic. Whatever the
      instruction, an outcome other than `Ok` leaves the set of registered
      tokens and every balance (reading absent as 0) as they were. */
  function Step(s: Balances, instruction: ContractInstruction, instructionData: seq<bv8>, verify: Verifier): (r: Transition)
    ensures r.outcome != Ok ==> r.state.Keys == s.Keys
    ensures r.outcome != Ok ==> forall t, u :: BalanceOf(r.state, t, u) == BalanceOf(s, t, u)
  {
    match instruction
    case AdminAddSupportedToken(token) =>
      if !verify(AdminPubkey, MockSignature()) then Transition(s, Err(MissingRequiredSignature))
      else if token in s then Transition(s, Err(Custom(0)))
      else Transition(s[token := map[]], Ok)
    case AdminDeleteSupportedToken(token) =>
      if !verify(AdminPubkey, instructionData) then Transition(s, Err(MissingRequiredSignature))
      else if token !in s then Transition(s, Err(Custom(1)))
      else Transition(s - {token}, Ok)
    case UserDeposit(token, user, amount) =>
      if !verify(user, MockSignature()) then Transition(s, Err(MissingRequiredSignature))
      else if token !in s then Transition(s, Err(Custom(2)))
      else
        var t := OrInsertZero(s, token, user);
        var balance := t[token][user];
        if balance as int + amount as int >= U64_LIMIT then Transition(t, OverflowPanic)
        else Transition(t[token := t[token][user := balance + amount]], Ok)
    case UserWithdraw(token, user, amount) =>
      if !verify(user, MockSignature()) then Transition(s, Err(MissingRequiredSignature))
      else if token !in s then Transition(s, Err(Custom(3)))
      else
        var t := OrInsertZero(s, token, user);
        var balance := t[token][user];
        if balance < amount then Transition(t, Err(InsufficientFunds))
        else Transition(t[token := t[token][user := balance - amount]], Ok)
  }

  /** Every arm rejects with `MissingRequiredSignature` exactly when the
      verifier refuses its check, and then nothing has been touched. */
  lemma SignatureRejection(s: Balances, instruction: ContractInstruction, instructionData: seq<bv8>, verify: Verifier)
    ensures Step(s, instruction, instructionData, verify).outcome == Err(MissingRequiredSignature)
            <==> !Authorised(instruction, instructionData, verify)
    ensures !Authorised(instruction, instructionData, verify) ==> Step(s, instruction, instructionData, verify).state == s
  {
  }

  /** With the verifier the contract ships with, no instruction is ever
      rejected for its signature. */
  lemma StubVerifierAcceptsAll(s: Balances, instruction: ContractInstruction, instructionData: seq<bv8>)
    ensures Step(s, instruction, instructionData, VerifySignature).outcome != Err(MissingRequiredSignature)
  {
  }

  /** Adding a token that is already registered fails with `Custom(0)` and
      leaves the whole state as it was. */
  lemma AddDuplicateRejected(s: Balances, token: TokenType, instructionData: seq<bv8>, verify: Verifier)
    requires verify(AdminPubkey, MockSignature())
    requires token in s
    ensures Step(s, AdminAddSupportedToken(token), instructionData, verify) == Transition(s, Err(Custom(0)))
  {
  }

  /** Adding a new token registers it with no balances and leaves every
      other token's entry as it was. */
  lemma AddRegistersEmpty(s: Balances, token: TokenType, instructionData: seq<bv8>, verify: Verifier)
    requires verify(AdminPubkey, MockSignature())
    requires token !in s
    ensures var r := Step(s, AdminAddSupportedToken(token), instructionData, verify);
      && r.outcome == Ok
      && r.state.Keys == s.Keys + {token}
      && r.state[token] == map[]
      && forall t :: t in s ==> r.state[t] == s[t]
  {
  }

  /** Deleting a token that is not registered fails with `Custom(1)` and
      changes nothing. */
  lemma DeleteAbsentRejected(s: Balances, token: TokenType, instructionData: seq<bv8>, verify: Verifier)
    requires verify(AdminPubkey, instructionData)
    requires token !in s
    ensures Step(s, AdminDeleteSupportedToken(token), instructionData, verify) == Transition(s, Err(Custom(1)))
  {
  }

  /** Deleting a registered token unregisters it together with all of its
      balances, nonzero ones included, and leaves every other token's entry
      as it was. */
  lemma DeletePresentRemoves(s: Balances, token: TokenType, instructionData: seq<bv8>, verify: Verifier)
    requires verify(AdminPubkey, instructionData)
    requires token in s
    ensures var r := Step(s, AdminDeleteSupportedToken(token), instructionData, verify);
      && r.outcome == Ok
      && r.state.Keys == s.Keys - {token}
      && (forall t :: t in r.state ==> r.state[t] == s[t])
      && (forall u :: BalanceOf(r.state, token, u) == 0)
  {
  }

  /** A deposit into an unregistered token fails with `Custom(2)` and
      changes nothing. */
  lemma DepositUnknownTokenRejected(s: Balances, token: TokenType, user: Pubkey, amount: uint64,
                                   instructionData: seq<bv8>, verify: Verifier)
    requires verify(user, MockSignature())
    requires token !in s
    ensures Step(s, UserDeposit(token, user, amount), instructionData, verify) == Transition(s, Err(Custom(2)))
  {
  }

  /** A withdraw from an unregistered token fails with `Custom(3)` and
      changes nothing. */
  lemma WithdrawUnknownTokenRejected(s: Balances, token: TokenType, user: Pubkey, amount: uint64,
                                    instructionData: seq<bv8>, verify: Verifier)
    requires verify(user, MockSignature())
    requires token !in s
    ensures Step(s, UserWithdraw(token, user, amount), instructionData, verify) == Transition(s, Err(Custom(3)))
  {
  }

  /** A deposit that fits in a u64 credits the user with `amount` (an absent
      entry counting as 0, and now present), and leaves every other user,
      every other token and the set of registered tokens as they were. */
  lemma DepositCredits(s: Balances, token: TokenType, user: Pubkey, amount: uint64,
                       instructionData: seq<bv8>, verify: Verifier)
    requires verify(user, MockSignature())
    requires token in s
    requires BalanceOf(s, token, user) as int + amount as int < U64_LIMIT
    ensures var r := Step(s, UserDeposit(token, user, amount), instructionData, verify);
      && r.outcome == Ok
      && r.state.Keys == s.Keys
      && user in r.state[token]
      && r.state[token][user] as int == BalanceOf(s, token, user) as int + amount as int
      && (forall u :: u != user ==> (u in r.state[token] <==> u in s[token]))
      && (forall u :: u != user && u in s[token] ==> r.state[token][u] == s[token][u])
      && (forall t :: t in s && t != token ==> r.state[t] == s[t])
  {
  }

  /** A deposit whose sum does not fit in a u64 panics, and the state is
      as it was: an entry that far from 0 was already present, so the
      `or_insert(0)` before the addition added nothing. */
  lemma DepositOverflowPanics(s: Balances, token: TokenType, user: Pubkey, amount: uint64,
                              instructionData: seq<bv8>, verify: Verifier)
    requires verify(user, MockSignature())
    requires token in s
    requires BalanceOf(s, token, user) as int + amount as int >= U64_LIMIT
    ensures Step(s, UserDeposit(token, user, amount), instructionData, verify) == Transition(s, OverflowPanic)
  {
  }

  /** A withdraw covered by the balance debits exactly `amount`, so the
      balance never goes below 0, and nothing else changes. */
  lemma WithdrawDebits(s: Balances, token: TokenType, user: Pubkey, amount: uint64,
                       instructionData: seq<bv8>, verify: Verifier)
    requires verify(user, MockSignature())
    requires token in s
    requires amount <= BalanceOf(s, token, user)
    ensures var r := Step(s, UserWithdraw(token, user, amount), instructionData, verify);
      && r.outcome == Ok
      && r.state.Keys == s.Keys
      && user in r.state[token]
      && r.state[token][user] as int == BalanceOf(s, token, user) as int - amount as int
      && (forall u :: u != user ==> (u in r.state[token] <==> u in s[token]))
      && (forall u :: u != user && u in s[token] ==> r.state[token][u] == s[token][u])
      && (forall t :: t in s && t != token ==> r.state[t] == s[t])
  {
  }

  /** A withdraw the balance does not cover fails with `InsufficientFunds`.
      No balance changes, but the user's entry now exists: with the old
      balance, which is 0 when the entry was absent. */
  lemma WithdrawInsufficient(s: Balances, token: TokenType, user: Pubkey, amount: uint64,
                             instructionData: seq<bv8>, verify: Verifier)
    requires verify(user, MockSignature())
    requires token in s
    requires BalanceOf(s, token, user) < amount
    ensures var r := Step(s, UserWithdraw(token, user, amount), instructionData, verify);
      && r.outcome == Err(InsufficientFunds)
      && r.state.Keys == s.Keys
      && r.state[token] == s[token][user := BalanceOf(s, token, user)]
      && (forall t :: t in s && t != token ==> r.state[t] == s[t])
  {
  }

  /** The failed withdraw does change the map: a positive withdraw by a
      user with no entry fails and leaves a zero entry behind. */
  lemma WithdrawInsufficientAddsEntry(s: Balances, token: TokenType, user: Pubkey, amount: uint64,
                                      instructionData: seq<bv8>, verify: Verifier)
    requires verify(user, MockSignature())
    requires token in s && user !in s[token]
    requires amount > 0
    ensures var r := Step(s, UserWithdraw(token, user, amount), instructionData, verify);
      && r.outcome == Err(InsufficientFunds)
      && user in r.state[token]
      && r.state[token][user] == 0
      && r.state != s
  {
    var r := Step(s, UserWithdraw(token, user, amount), instructionData, verify);
    assert user in r.state[token];
  }

  /** Each rejecting code names one arm and one reason. */
  lemma CustomCodes(s: Balances, instruction: ContractInstruction, instructionData: seq<bv8>, verify: Verifier, code: uint32)
    ensures Step(s, instruction, instructionData, verify).outcome == Err(Custom(code))
            <==> && Authorised(instruction, instructionData, verify)
                 && ((code == 0 && instruction.AdminAddSupportedToken? && instruction.token in s)
                  || (code == 1 && instruction.AdminDeleteSupportedToken? && instruction.token !in s)
                  || (code == 2 && instruction.UserDeposit? && instruction.token !in s)
                  || (code == 3 && instruction.UserWithdraw? && instruction.token !in s))
  {
  }

  /** Depositing a1 and then withdrawing a2 <= a1 leaves the balance
      raised by a1 - a2. */
  lemma DepositThenWithdraw(s: Balances, token: TokenType, user: Pubkey, a1: uint64, a2: uint64,
                            instructionData: seq<bv8>, verify: Verifier)
    requires verify(user, MockSignature())
    requires token in s
    requires BalanceOf(s, token, user) as int + a1 as int < U64_LIMIT
    requires a2 <= a1
    ensures var r1 := Step(s, UserDeposit(token, user, a1), instructionData, verify);
      var r2 := Step(r1.state, UserWithdraw(token, user, a2), instructionData, verify);
      && r1.outcome == Ok && r2.outcome == Ok
      && BalanceOf(r2.state, token, user) as int == BalanceOf(s, token, user) as int + a1 as int - a2 as int
  {
    DepositCredits(s, token, user, a1, instructionData, verify);
    var r1 := Step(s, UserDeposit(token, user, a1), instructionData, verify);
    WithdrawDebits(r1.state, token, user, a2, instructionData, verify);
  }
}
