/** The instant a snowflake id carries, and the lookups that are narrowed by it. */
module Snowflake {
  import opened Entities

  const EPOCH_MS: int := 1_288_834_974_657
  const SHIFT: int := 4_194_304              // 2^22: ten node bits and twelve step bits
  const INT64_MIN: int := -0x8000_0000_0000_0000
  const INT64_MAX: int := 0x7FFF_FFFF_FFFF_FFFF

  predicate IsInt64(x: int) { INT64_MIN <= x <= INT64_MAX }

  /** The arithmetic shift rounds towards minus infinity, as does `/` by a positive number here. */
  function MillisOf(id: Id): int { id / SHIFT + EPOCH_MS }

  function TimeOf(id: Id): Time { MillisOf(id) * MILLISECOND }

  /** The generator's id layout: 41 bits of milliseconds since the epoch, 10 of node, 12 of step. */
  function Compose(millis: int, node: int, step: int): Id {
    (millis - 1_288_834_974_657) * 0x40_0000 + node * 4096 + step
  }

  predicate Fields(millis: int, node: int, step: int) {
    0 <= millis - 1_288_834_974_657 < 0x200_0000_0000 && 0 <= node < 1024 && 0 <= step < 4096
  }

  /** Decoding gives back the millisecond the id was generated in, and a composed id is an int64. */
  lemma DecodeCompose(millis: int, node: int, step: int)
    requires Fields(millis, node, step)
    ensures TimeOf(Compose(millis, node, step)) == millis * 1_000_000
    ensures IsInt64(Compose(millis, node, step))
  {
  }

  /** A later id never decodes to an earlier instant. */
  lemma DecodeMonotone(a: Id, b: Id)
    requires a <= b
    ensures TimeOf(a) <= TimeOf(b)
  {
  }

  /** Ids of one node order exactly as their (millisecond, step) pairs do. */
  lemma ComposeOrder(m1: int, m2: int, node: int, s1: int, s2: int)
    requires Fields(m1, node, s1) && Fields(m2, node, s2)
    ensures Compose(m1, node, s1) < Compose(m2, node, s2) <==> m1 < m2 || (m1 == m2 && s1 < s2)
  {
  }

  /** No int64 id makes the nanosecond product overflow. */
  lemma DecodeFits(id: Id)
    requires IsInt64(id)
    ensures IsInt64(MillisOf(id)) && IsInt64(TimeOf(id))
  {
  }
}
