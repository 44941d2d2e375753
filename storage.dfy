/**
 * Storage conventions shared by the token and the ledger: an optional value,
 * and Solidity's `mapping(K => uint256)`, in which every key that was never
 * written reads as zero.
 */
module Storage {

  datatype Option<+T> = None | Some(value: T)

  /** Reads a mapping: a key that was never written holds zero. */
  function Lookup<K>(m: map<K, nat>, k: K): (v: nat)
  {
    if k in m then m[k] else 0
  }

  /** `m[k] += amount`: only the entry for `k` changes, and it grows by `amount`. */
  function Credit<K(!new)>(m: map<K, nat>, k: K, amount: nat): (r: map<K, nat>)
    ensures Lookup(r, k) == Lookup(m, k) + amount
    ensures forall j :: j != k ==> Lookup(r, j) == Lookup(m, j)
    ensures r.Keys == m.Keys + {k}
  {
    m[k := Lookup(m, k) + amount]
  }

  /** `m[k] -= amount` for an entry holding at least `amount`. */
  function Debit<K(!new)>(m: map<K, nat>, k: K, amount: nat): (r: map<K, nat>)
    requires amount <= Lookup(m, k)
    ensures Lookup(r, k) + amount == Lookup(m, k)
    ensures forall j :: j != k ==> Lookup(r, j) == Lookup(m, j)
    ensures r.Keys == m.Keys + {k}
  {
    m[k := Lookup(m, k) - amount]
  }
}
