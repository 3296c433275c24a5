/** The total held in one token (the sum of its balances) and how each
    instruction changes it: a deposit mints `amount`, a withdraw burns
    `amount`, a delete discards everything that was held, and a failed
    instruction leaves it alone. */
module Supply {
  import opened Types
  import opened Ledger

  /** The sum of the balances in one token's table. */
  ghost function Sum(m: map<Pubkey, uint64>): int
    decreases |m|
  {
    if m == map[] then 0
    else
      var k :| k in m;
      assert |m - {k}| < |m| by { assert (m - {k}).Keys == m.Keys - {k}; }
      m[k] as int + Sum(m - {k})
  }

  /** The total held in `token`; an unregistered token holds nothing. */
  ghost function TokenSupply(s: Balances, token: TokenType): int
  {
    if token in s then Sum(s[token]) else 0
  }

  lemma {:induction false} SumNonNegative(m: map<Pubkey, uint64>)
    ensures Sum(m) >= 0
    decreases |m|
  {
    if m != map[] {
      var k :| k in m && Sum(m) == m[k] as int + Sum(m - {k});
      assert (m - {k}).Keys == m.Keys - {k};
      SumNonNegative(m - {k});
    }
  }

  /** Any entry can be taken out of the sum first, whichever one the
      definition happens to pick. */
  lemma {:induction false} SumRemove(m: map<Pubkey, uint64>, k: Pubkey)
    requires k in m
    ensures Sum(m) == m[k] as int + Sum(m - {k})
    decreases |m|
  {
    var j :| j in m && Sum(m) == m[j] as int + Sum(m - {j});
    if j != k {
      var mj, mk := m - {j}, m - {k};
      assert mj.Keys == m.Keys - {j};
      assert mk.Keys == m.Keys - {k};
      SumRemove(mj, k);
      SumRemove(mk, j);
      assert mj - {k} == mk - {j};
    }
  }

  /** Setting one entry to `v` moves the sum by `v` minus the entry's old
      value (0 when it was absent). */
  lemma SumUpdate(m: map<Pubkey, uint64>, k: Pubkey, v: uint64)
    ensures Sum(m[k := v]) == Sum(m) - (if k in m then m[k] as int else 0) + v as int
  {
    var m' := m[k := v];
    SumRemove(m', k);
    assert m' - {k} == m - {k};
    if k in m {
      SumRemove(m, k);
    } else {
      assert m - {k} == m;
    }
  }

  /** The `or_insert(0)` that deposit and withdraw start with changes no
      total. */
  lemma OrInsertZeroSupply(s: Balances, token: TokenType, user: Pubkey, t: TokenType)
    requires token in s
    ensures TokenSupply(OrInsertZero(s, token, user), t) == TokenSupply(s, t)
  {
    if user !in s[token] {
      SumUpdate(s[token], user, 0);
    }
  }

  /** An instruction that does not succeed changes no token's total, the
      zero entry a failed withdraw may leave behind included. */
  lemma FailedStepKeepsSupply(s: Balances, instruction: ContractInstruction, instructionData: seq<bv8>,
                              verify: Verifier, t: TokenType)
    requires Step(s, instruction, instructionData, verify).outcome != Ok
    ensures TokenSupply(Step(s, instruction, instructionData, verify).state, t) == TokenSupply(s, t)
  {
    if (instruction.UserDeposit? || instruction.UserWithdraw?) && instruction.token in s {
      OrInsertZeroSupply(s, instruction.token, instruction.user, t);
    }
  }

  /** A successful deposit raises the total of its token by `amount` and no
      other total. */
  lemma DepositSupply(s: Balances, token: TokenType, user: Pubkey, amount: uint64,
                      instructionData: seq<bv8>, verify: Verifier, t: TokenType)
    requires Step(s, UserDeposit(token, user, amount), instructionData, verify).outcome == Ok
    ensures TokenSupply(Step(s, UserDeposit(token, user, amount), instructionData, verify).state, t)
            == TokenSupply(s, t) + (if t == token then amount as int else 0)
  {
    var ins := OrInsertZero(s, token, user);
    OrInsertZeroSupply(s, token, user, t);
    var b := ins[token][user];
    SumUpdate(ins[token], user, b + amount);
  }

  /** A successful withdraw lowers the total of its token by `amount` and no
      other total. */
  lemma WithdrawSupply(s: Balances, token: TokenType, user: Pubkey, amount: uint64,
                       instructionData: seq<bv8>, verify: Verifier, t: TokenType)
    requires Step(s, UserWithdraw(token, user, amount), instructionData, verify).outcome == Ok
    ensures TokenSupply(Step(s, UserWithdraw(token, user, amount), instructionData, verify).state, t)
            == TokenSupply(s, t) - (if t == token then amount as int else 0)
  {
    var ins := OrInsertZero(s, token, user);
    OrInsertZeroSupply(s, token, user, t);
    var b := ins[token][user];
    SumUpdate(ins[token], user, b - amount);
  }

  /** A successful delete discards the whole total of its token, however
      large, and touches no other total. */
  lemma DeleteDiscardsSupply(s: Balances, token: TokenType, instructionData: seq<bv8>,
                             verify: Verifier, t: TokenType)
    requires Step(s, AdminDeleteSupportedToken(token), instructionData, verify).outcome == Ok
    ensures TokenSupply(Step(s, AdminDeleteSupportedToken(token), instructionData, verify).state, t)
            == if t == token then 0 else TokenSupply(s, t)
    ensures TokenSupply(s, token) >= 0
  {
    SumNonNegative(s[token]);
  }
}
