/** The interrupt lines of the chip and the registers their causes are latched in. */
module IrqLines {
  import opened Words

  datatype Descriptor = Descriptor(mask: bv16, isError: bool)

  const ERR_BIT: bv16 := 0x0001
  const FLASH_BIT: bv16 := 0x0002
  const KEY_BIT: bv16 := 0x0010
  const GCC_BIT: bv16 := 0x0020

  const LINE_COUNT: nat := 5

  type Line = n: nat | n < LINE_COUNT

  /** Whether each line is enabled. */
  type LineMask = m: seq<bool> | |m| == LINE_COUNT witness [false, false, false, false, false]

  const LINE_FLASH: Line := 0
  const LINE_ERR_FLASH: Line := 1
  const LINE_KEY: Line := 2
  const LINE_GENCMD_COMPLETE: Line := 3
  const LINE_GENCMD_ERROR: Line := 4

  const DESCRIPTORS: seq<Descriptor> := [
    Descriptor(FLASH_BIT, false),
    Descriptor(FLASH_BIT, true),
    Descriptor(KEY_BIT, false),
    Descriptor(GCC_BIT, false),
    Descriptor(GCC_BIT, true)
  ]

  /** Whether the values read from IFG and ERR hold the cause of `line`. */
  predicate Fires(line: Line, ifg: bv16, err: bv16) {
    if DESCRIPTORS[line].isError then Has(err, DESCRIPTORS[line].mask)
    else Has(ifg, DESCRIPTORS[line].mask)
  }
}
