/** Sequences of instructions processed one after another against the same
    state, and what holds of every such run. */
module Runs {
  import opened Types
  import opened Ledger

  /** One call of the entry point: the decoded instruction and the raw
      instruction bytes it came from. */
  datatype Call = Call(instruction: ContractInstruction, instructionData: seq<bv8>)

  /** The balances after processing `calls` in order, starting from `s`.
      Every call is processed against the state the previous one left, a
      call after an `OverflowPanic` included. */
  function Run(s: Balances, calls: seq<Call>, verify: Verifier): Balances
    decreases |calls|
  {
    if calls == [] then s
    else Run(Step(s, calls[0].instruction, calls[0].instructionData, verify).state, calls[1..], verify)
  }

  /** The outcome of each call of a run, in order. */
  function Outcomes(s: Balances, calls: seq<Call>, verify: Verifier): (r: seq<Outcome>)
    ensures |r| == |calls|
    decreases |calls|
  {
    if calls == [] then []
    else
      var t := Step(s, calls[0].instruction, calls[0].instructionData, verify);
      [t.outcome] + Outcomes(t.state, calls[1..], verify)
  }

  /** Does this instruction name the balance of `user` in `token`, either by
      deleting the token or by depositing into or withdrawing from it for
      that user? */
  predicate Touches(instruction: ContractInstruction, token: TokenType, user: Pubkey)
  {
    match instruction
    case AdminAddSupportedToken(_) => false
    case AdminDeleteSupportedToken(t) => t == token
    case UserDeposit(t, u, _) => t == token && u == user
    case UserWithdraw(t, u, _) => t == token && u == user
  }

  /** With a verifier that refuses everything, every call of a run fails
      with `MissingRequiredSignature` and the state never changes. */
  lemma {:induction false} RejectingVerifierRunIsNoop(s: Balances, calls: seq<Call>, verify: Verifier)
    requires forall k, sig :: !verify(k, sig)
    ensures Run(s, calls, verify) == s
    ensures forall i :: 0 <= i < |calls| ==> Outcomes(s, calls, verify)[i] == Err(MissingRequiredSignature)
    decreases |calls|
  {
    if calls != [] {
      RejectingVerifierRunIsNoop(s, calls[1..], verify);
    }
  }

  /** Only the admin instructions register or unregister tokens: a run of
      deposits and withdraws leaves the set of registered tokens as it was. */
  lemma {:induction false} UserRunKeepsRegistry(s: Balances, calls: seq<Call>, verify: Verifier)
    requires forall i :: 0 <= i < |calls| ==> calls[i].instruction.UserDeposit? || calls[i].instruction.UserWithdraw?
    ensures Run(s, calls, verify).Keys == s.Keys
    decreases |calls|
  {
    if calls != [] {
      UserRunKeepsRegistry(Step(s, calls[0].instruction, calls[0].instructionData, verify).state, calls[1..], verify);
    }
  }

  /** One instruction that does not name (token, user) leaves that balance
      as it was. */
  lemma StepFrame(s: Balances, instruction: ContractInstruction, instructionData: seq<bv8>,
                  verify: Verifier, token: TokenType, user: Pubkey)
    requires !Touches(instruction, token, user)
    ensures BalanceOf(Step(s, instruction, instructionData, verify).state, token, user) == BalanceOf(s, token, user)
  {
  }

  /** A run none of whose calls names (token, user) leaves that balance as
      it was. */
  lemma {:induction false} RunFrame(s: Balances, calls: seq<Call>, verify: Verifier, token: TokenType, user: Pubkey)
    requires forall i :: 0 <= i < |calls| ==> !Touches(calls[i].instruction, token, user)
    ensures BalanceOf(Run(s, calls, verify), token, user) == BalanceOf(s, token, user)
    decreases |calls|
  {
    if calls != [] {
      StepFrame(s, calls[0].instruction, calls[0].instructionData, verify, token, user);
      RunFrame(Step(s, calls[0].instruction, calls[0].instructionData, verify).state, calls[1..], verify, token, user);
    }
  }

  /** A run whose every call fails leaves the set of registered tokens and
      every balance (reading absent as 0) as they were. */
  lemma {:induction false} FailedRunKeepsBalances(s: Balances, calls: seq<Call>, verify: Verifier, token: TokenType, user: Pubkey)
    requires forall i :: 0 <= i < |calls| ==> Outcomes(s, calls, verify)[i] != Ok
    ensures Run(s, calls, verify).Keys == s.Keys
    ensures BalanceOf(Run(s, calls, verify), token, user) == BalanceOf(s, token, user)
    decreases |calls|
  {
    if calls != [] {
      var t := Step(s, calls[0].instruction, calls[0].instructionData, verify);
      assert Outcomes(s, calls, verify)[0] == t.outcome;
      forall i | 0 <= i < |calls| - 1
        ensures Outcomes(t.state, calls[1..], verify)[i] != Ok
      {
        assert Outcomes(s, calls, verify)[i + 1] == Outcomes(t.state, calls[1..], verify)[i];
      }
      FailedRunKeepsBalances(t.state, calls[1..], verify, token, user);
    }
  }
}
