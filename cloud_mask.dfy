/**
 * The per-pixel test of maskS2clouds (src/ee_app.js): a Sentinel-2 pixel is
 * kept when neither the opaque-cloud bit (10) nor the cirrus bit (11) of its
 * 16-bit QA60 value is set.
 */
module CloudMask {

  const CloudBitMask: bv16 := 1 << 10
  const CirrusBitMask: bv16 := 1 << 11

  /** Both flags are zero: the pixel stays in the composite. */
  predicate Kept(qa: bv16) {
    qa & CloudBitMask == 0 && qa & CirrusBitMask == 0
  }

  /** Kept exactly when the two flag bits, taken together, are zero. */
  lemma KeptIffFlagsClear(qa: bv16)
    ensures Kept(qa) <==> qa & 0x0C00 == 0
  {
  }

  /** Setting either flag rejects the pixel. */
  lemma FlagRejects(qa: bv16)
    ensures !Kept(qa | CloudBitMask)
    ensures !Kept(qa | CirrusBitMask)
  {
  }

  /** Changing any bit other than 10 and 11 does not change the verdict. */
  lemma OtherBitsIgnored(qa: bv16, flip: bv16)
    requires flip & 0x0C00 == 0
    ensures Kept(qa ^ flip) == Kept(qa)
  {
  }

}
