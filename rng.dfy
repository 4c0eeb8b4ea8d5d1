/** `RNG::generate` as an injected stream of draws, read in call order through a cursor. */
module Rng {

  /** The k-th value the random source produces. */
  type Stream = nat -> int

  /** The draw at cursor k for `RNG::generate(lo, hi)`: the stream's value,
      clamped into the requested closed range. */
  function Generate(s: Stream, k: nat, lo: int, hi: int): (r: int)
    ensures lo <= hi ==> lo <= r <= hi
    ensures lo <= s(k) <= hi ==> r == s(k)
  {
    if s(k) < lo || hi < lo then lo else if hi < s(k) then hi else s(k)
  }
}
