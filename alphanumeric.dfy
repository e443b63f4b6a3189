/**
 * The `rand::distributions::Alphanumeric` sampler used for session tokens and
 * CSRF states. The random generator is a stream of draws `rng(0), rng(1), ...`;
 * draw i picks character i of the output from the 62-entry table
 * "A".."Z", "a".."z", "0".."9" (in that order).
 */
module Alphanumeric {
  import opened Bytes

  predicate IsAlphanumeric(b: byte) {
    ('A' as int <= b <= 'Z' as int) || ('a' as int <= b <= 'z' as int) || ('0' as int <= b <= '9' as int)
  }

  /** Entry k of the table. */
  function CharsetByte(k: nat): (b: byte)
    requires k < 62
    ensures IsAlphanumeric(b)
  {
    if k < 26 then 'A' as int + k
    else if k < 52 then 'a' as int + (k - 26)
    else '0' as int + (k - 52)
  }

  /** No two table entries are the same byte. */
  lemma CharsetInjective(j: nat, k: nat)
    requires j < 62 && k < 62 && j != k
    ensures CharsetByte(j) != CharsetByte(k)
  {
  }

  /** The byte that draw `d` selects. */
  function Pick(d: nat): (b: byte)
    ensures IsAlphanumeric(b) && b < 128
  {
    CharsetByte(d % 62)
  }

  /** `rng.sample_iter(&Alphanumeric).take(n).collect()`. */
  function Sample(rng: nat -> nat, n: nat): (r: seq<byte>)
    ensures |r| == n
    ensures forall i :: 0 <= i < n ==> r[i] == Pick(rng(i))
    ensures forall i :: 0 <= i < n ==> IsAlphanumeric(r[i]) && r[i] < 128
  {
    if n == 0 then [] else Sample(rng, n - 1) + [Pick(rng(n - 1))]
  }
}
