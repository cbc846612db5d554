/** Machine integers, account keys and the map helpers shared by the ledger model. */
module Common {

  const U64_LIMIT: int := 0x1_0000_0000_0000_0000

  type u8 = x: int | 0 <= x < 0x100
  type u16 = x: int | 0 <= x < 0x1_0000
  type u32 = x: int | 0 <= x < 0x1_0000_0000
  type u64 = x: int | 0 <= x < 0x1_0000_0000_0000_0000

  const U64_MAX: u64 := 0xFFFF_FFFF_FFFF_FFFF

  /** A Solana public key: 32 raw bytes. The source keys its maps by the key's
      base58 text, which is injective, so keying by the bytes is equivalent. */
  type Pubkey = s: seq<u8> | |s| == 32 witness seq(32, _ => 0)

  datatype Option<T> = None | Some(value: T)

  /** Two maps agree on every key other than `k`. */
  ghost predicate AgreeExcept<K(!new), V>(m: map<K, V>, m': map<K, V>, k: K)
  {
    forall j :: j != k ==> (j in m <==> j in m') && (j in m ==> m[j] == m'[j])
  }

  /** Rust's `map.entry(k).or_insert(v)`: inserts `v` only when `k` is absent
      and never overwrites an existing value. */
  function OrInsert<K(!new), V>(m: map<K, V>, k: K, v: V): (r: map<K, V>)
    ensures k in r
    ensures k in m ==> r[k] == m[k]
    ensures k !in m ==> r[k] == v
    ensures AgreeExcept(m, r, k)
  {
    if k in m then m else m[k := v]
  }
}
