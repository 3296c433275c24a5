/** The contract's state object and its entry point, changing the nested
    balance map in place the way `process_instruction` does. */
module Contract {
  import opened Types
  import opened Ledger

  class ContractState {
    /** token -> user -> balance; a token is registered exactly when it is a
        key here. */
    var allTokenBalances: Balances

    /** The state the contract starts with: no token registered. */
    constructor ()
      ensures allTokenBalances == map[]
    {
      allTokenBalances := map[];
    }

    /** Processes one decoded instruction. `instructionData` holds the bytes
        it was decoded from (the delete arm hands them to the verifier), and
        `verify` is the signature check. The new state and the outcome are
        exactly what `Ledger.Step` gives for the old state. */
    method ProcessInstruction(instruction: ContractInstruction, instructionData: seq<bv8>, verify: Verifier)
      returns (result: Outcome)
      modifies this
      ensures Transition(allTokenBalances, result) == Step(old(allTokenBalances), instruction, instructionData, verify)
    {
      match instruction {
        case AdminAddSupportedToken(token) =>
          if !verify(AdminPubkey, MockSignature()) {
            return Err(MissingRequiredSignature);
          }
          if token in allTokenBalances {
            return Err(Custom(0));
          }
          var users: map<Pubkey, uint64> := map[];
          allTokenBalances := allTokenBalances[token := users];
        case AdminDeleteSupportedToken(token) =>
          if !verify(AdminPubkey, instructionData) {
            return Err(MissingRequiredSignature);
          }
          if token !in allTokenBalances {
            return Err(Custom(1));
          }
          allTokenBalances := allTokenBalances - {token};
        case UserDeposit(token, user, amount) =>
          if !verify(user, MockSignature()) {
            return Err(MissingRequiredSignature);
          }
          if token !in allTokenBalances {
            return Err(Custom(2));
          }
          var current := allTokenBalances[token];
          if user !in current {
            current := current[user := 0];
            allTokenBalances := allTokenBalances[token := current];
          }
          var balance := current[user];
          if balance as int + amount as int >= U64_LIMIT {
            return OverflowPanic;
          }
          current := current[user := balance + amount];
          allTokenBalances := allTokenBalances[token := current];
        case UserWithdraw(token, user, amount) =>
          if !verify(user, MockSignature()) {
            return Err(MissingRequiredSignature);
          }
          if token !in allTokenBalances {
            return Err(Custom(3));
          }
          var current := allTokenBalances[token];
          if user !in current {
            current := current[user := 0];
            allTokenBalances := allTokenBalances[token := current];
          }
          var balance := current[user];
          if balance < amount {
            return Err(InsufficientFunds);
          }
          current := current[user := balance - amount];
          allTokenBalances := allTokenBalances[token := current];
      }
      return Ok;
    }
  }

  /** The repository's own test: adding "sol" to a fresh state succeeds and
      registers it with no balances. */
  method TestAdd(instructionData: seq<bv8>) returns (result: Outcome, balances: Balances)
    ensures result == Ok
    ensures balances == map[TokenType("sol") := map[]]
  {
    var state := new ContractState();
    var sol := TokenType("sol");
    result := state.ProcessInstruction(AdminAddSupportedToken(sol), instructionData, VerifySignature);
    balances := state.allTokenBalances;
  }

  /** A session with the shipped verifier: register, deposit, withdraw,
      overdraw, deregister. */
  method Session(a: Pubkey, instructionData: seq<bv8>)
  {
    var state := new ContractState();
    var sol, sool := TokenType("sol"), TokenType("sool");
    var r := state.ProcessInstruction(AdminAddSupportedToken(sol), instructionData, VerifySignature);
    assert r == Ok;
    r := state.ProcessInstruction(AdminAddSupportedToken(sol), instructionData, VerifySignature);
    assert r == Err(Custom(0));
    r := state.ProcessInstruction(UserDeposit(sol, a, 100), instructionData, VerifySignature);
    assert r == Ok && BalanceOf(state.allTokenBalances, sol, a) == 100;
    r := state.ProcessInstruction(UserWithdraw(sol, a, 10), instructionData, VerifySignature);
    assert r == Ok && BalanceOf(state.allTokenBalances, sol, a) == 90;
    r := state.ProcessInstruction(UserWithdraw(sol, a, 100), instructionData, VerifySignature);
    assert r == Err(InsufficientFunds) && BalanceOf(state.allTokenBalances, sol, a) == 90;
    r := state.ProcessInstruction(AdminDeleteSupportedToken(sol), instructionData, VerifySignature);
    assert r == Ok;
    r := state.ProcessInstruction(UserWithdraw(sol, a, 0), instructionData, VerifySignature);
    assert r == Err(Custom(3));
    r := state.ProcessInstruction(AdminDeleteSupportedToken(sool), instructionData, VerifySignature);
    assert r == Err(Custom(1));
  }
}
