/** Lamport balances per public key and the system program's `transfer`,
    which `process_payment` invokes. */
module Lamports {
  import opened Accounts

  type Balances = map<Pubkey, U64>

  /** A key the map does not mention holds no lamports. */
  function Balance(m: Balances, k: Pubkey): U64 {
    if k in m then m[k] else 0
  }

  /** The sum of all balances. */
  ghost function Total(m: Balances): int
    decreases |m|
  {
    if m == map[] then 0
    else
      var k :| k in m;
      assert |m - {k}| < |m| by {
        assert (m - {k}).Keys == m.Keys - {k};
      }
      m[k] + Total(m - {k})
  }

  /** Total may take out any key first, not only the one it happens to choose. */
  lemma {:induction false} TotalRemove(m: Balances, k: Pubkey)
    requires k in m
    ensures Total(m) == m[k] + Total(m - {k})
    decreases |m|
  {
    var j :| j in m && Total(m) == m[j] + Total(m - {j});
    if j != k {
      var both := m - {j} - {k};
      assert (m - {j}).Keys == m.Keys - {j};
      assert (m - {k}).Keys == m.Keys - {k};
      TotalRemove(m - {j}, k);
      assert (m - {j}) - {k} == both;
      TotalRemove(m - {k}, j);
      assert (m - {k}) - {j} == both;
    }
  }

  /** Setting one balance changes the total by the difference. */
  lemma TotalUpdate(m: Balances, k: Pubkey, v: U64)
    ensures Total(m[k := v]) == Total(m) - Balance(m, k) + v
  {
    var u := m[k := v];
    TotalRemove(u, k);
    if k in m {
      TotalRemove(m, k);
      assert u - {k} == m - {k};
    } else {
      assert u - {k} == m;
    }
  }

  /** The system program's transfer of `amount` lamports from `from` to `to`:
      the source is debited first, then the destination credited. */
  function Transfer(m: Balances, from: Pubkey, to: Pubkey, amount: U64): (r: Result<Balances>)
    ensures r.Ok? <==> amount <= Balance(m, from) && (from == to || Balance(m, to) + amount <= U64_MAX)
    ensures r.Err? ==>
      r.error == (if Balance(m, from) < amount then ResultWithNegativeLamports else ArithmeticOverflow)
    ensures r.Ok? ==> Total(r.value) == Total(m)
    ensures r.Ok? && from != to ==>
      Balance(r.value, from) == Balance(m, from) - amount &&
      Balance(r.value, to) == Balance(m, to) + amount
    ensures r.Ok? ==> forall k | k != from && k != to :: Balance(r.value, k) == Balance(m, k)
    ensures r.Ok? && from == to ==> Balance(r.value, from) == Balance(m, from)
  {
    if Balance(m, from) < amount then Err(ResultWithNegativeLamports)
    else
      var debited: Balances := m[from := Balance(m, from) - amount];
      if Balance(debited, to) + amount > U64_MAX then Err(ArithmeticOverflow)
      else
        var credited: Balances := debited[to := Balance(debited, to) + amount];
        TotalUpdate(m, from, Balance(m, from) - amount);
        TotalUpdate(debited, to, Balance(debited, to) + amount);
        Ok(credited)
  }
}
