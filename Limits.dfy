/** The largest values of the unsigned integer widths the sources use. */
module Limits {
  /** `u32::MAX` */
  const U32_MAX: nat := 0xFFFF_FFFF
  /** `u64::MAX` */
  const U64_MAX: nat := 0xFFFF_FFFF_FFFF_FFFF
  /** `u128::MAX` */
  const U128_MAX: nat := 0xFFFF_FFFF_FFFF_FFFF_FFFF_FFFF_FFFF_FFFF
}
