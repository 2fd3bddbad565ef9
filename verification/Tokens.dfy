/**
 The token program as the escrow sees it: balances per account and mint, a
 transfer, and the supply of a mint as the sum of its balances.
 */
module Tokens {
  import opened Prelude
  import opened Accounts

  /**
   A token account. Vaults belong to a task's or the configuration's derived
   address; a user's accounts in one mint are collapsed into one wallet, which
   always exists.
   */
  datatype Account =
    | Vault(task: TaskId, mint: Key)
    | FeeVault(mint: Key)
    | Wallet(owner: Key, mint: Key)

  type Ledger = map<Account, nat>

  predicate Exists(l: Ledger, a: Account) {
    a.Wallet? || a in l
  }

  function Bal(l: Ledger, a: Account): nat {
    if a in l then l[a] else 0
  }

  /** The ledger after `amount` went from one account to another. */
  function Move(l: Ledger, src: Account, dst: Account, amount: nat): Ledger
    requires amount <= Bal(l, src)
  {
    if amount == 0 then l
    else
      var debited := l[src := Bal(l, src) - amount];
      debited[dst := Bal(debited, dst) + amount]
  }

  // ----- sums over maps -----

  ghost function Pick<K(!new)>(m: map<K, nat>): (k: K)
    requires m != map[]
    ensures k in m
  {
    assert m.Keys != {};
    var k :| k in m.Keys; k
  }

  ghost function Sum<K(!new)>(m: map<K, nat>): nat {
    if m == map[] then 0
    else var k := Pick(m); m[k] + Sum(m - {k})
  }

  lemma {:induction false} SumSplit<K(!new)>(m: map<K, nat>, k: K)
    requires k in m
    ensures Sum(m) == m[k] + Sum(m - {k})
  {
    var j := Pick(m);
    if j != k {
      SumSplit(m - {j}, k);
      SumSplit(m - {k}, j);
      assert m - {j} - {k} == m - {k} - {j};
    }
  }

  /** Writing one entry of a map changes its sum by the difference. */
  lemma SumWrite<K(!new)>(m: map<K, nat>, k: K, v: nat)
    ensures Sum(m[k := v]) == Sum(m) - (if k in m then m[k] else 0) + v
    ensures k in m ==> m[k] <= Sum(m)
  {
    SumSplit(m[k := v], k);
    assert m[k := v] - {k} == m - {k};
    if k in m {
      SumSplit(m, k);
    } else {
      assert m - {k} == m;
    }
  }

  // ----- supply -----

  ghost function InMint(l: Ledger, mint: Key): map<Account, nat> {
    map a | a in l && a.mint == mint :: l[a]
  }

  /** The sum of all balances in a mint. */
  ghost function Supply(l: Ledger, mint: Key): nat {
    Sum(InMint(l, mint))
  }

  lemma SupplyWrite(l: Ledger, a: Account, v: nat, mint: Key)
    ensures Supply(l[a := v], mint) ==
            if a.mint == mint then Supply(l, mint) - Bal(l, a) + v else Supply(l, mint)
    ensures Bal(l, a) <= Supply(l, a.mint)
  {
    SumWrite(InMint(l, a.mint), a, v);
    if a.mint == mint {
      assert InMint(l[a := v], mint) == InMint(l, mint)[a := v];
    } else {
      assert InMint(l[a := v], mint) == InMint(l, mint);
    }
  }

  /** A transfer within one mint preserves the supply of every mint. */
  lemma SupplyMove(l: Ledger, src: Account, dst: Account, amount: nat, mint: Key)
    requires amount <= Bal(l, src) && src.mint == dst.mint
    ensures Supply(Move(l, src, dst, amount), mint) == Supply(l, mint)
  {
    if amount > 0 {
      var debited := l[src := Bal(l, src) - amount];
      SupplyWrite(l, src, Bal(l, src) - amount, mint);
      SupplyWrite(debited, dst, Bal(debited, dst) + amount, mint);
    }
  }

  /** Closing an empty account preserves the supply of every mint. */
  lemma SupplyClose(l: Ledger, a: Account, mint: Key)
    requires a in l && l[a] == 0
    ensures Supply(l - {a}, mint) == Supply(l, mint)
  {
    if a.mint == mint {
      SumSplit(InMint(l, mint), a);
      assert InMint(l - {a}, mint) == InMint(l, mint) - {a};
    } else {
      assert InMint(l - {a}, mint) == InMint(l, mint);
    }
  }

  /**
   When the supply fits 64 bits, a covered transfer cannot overflow its
   destination.
   */
  lemma NoOverflow(l: Ledger, src: Account, dst: Account, amount: nat)
    requires amount <= Bal(l, src) && src.mint == dst.mint && src != dst
    requires Supply(l, src.mint) <= U64_MAX
    ensures Bal(l, dst) + amount <= U64_MAX
  {
    SupplyWrite(l, src, 0, src.mint);
    SupplyWrite(l[src := 0], dst, 0, src.mint);
  }
}
