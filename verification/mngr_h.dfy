/** The public constants of the apps manager (aoapps_mngr.h). */
module MngrH {

  /** Total number of registration slots for apps. */
  const REGISTRATION_SLOTS := 8

  /** Feature flags an app can ask the manager for (a C `int` mask). */
  const FLAGS_NONE: bv32 := 0x00
  const FLAGS_WITHTOPO: bv32 := 0x01
  const FLAGS_WITHREPAIR: bv32 := 0x02
  const FLAGS_NEXTONERR: bv32 := 0x04
  const FLAGS_ALL: bv32 := FLAGS_WITHTOPO | FLAGS_WITHREPAIR | FLAGS_NEXTONERR

  /** `aoapps_mngr_start(int appix=1)`: slot 0 is the voidapp, so by default
      the first real app starts. */
  const DEFAULT_START_APPIX := 1

  predicate HasFlag(flags: bv32, f: bv32) {
    flags & f != 0
  }

  /** The registration check `0 == (flags & ~FLAGS_ALL)`: no bit outside the
      three known features, that is, the mask is one of the eight combinations. */
  function FlagsKnown(flags: bv32): (b: bool)
    ensures b <==> flags < 8
  {
    flags & !FLAGS_ALL == 0
  }

  /** The three feature flags are distinct single bits and FLAGS_ALL is their union. */
  lemma FlagBits()
    ensures FLAGS_WITHTOPO & FLAGS_WITHREPAIR == 0
    ensures FLAGS_WITHTOPO & FLAGS_NEXTONERR == 0
    ensures FLAGS_WITHREPAIR & FLAGS_NEXTONERR == 0
    ensures FLAGS_ALL == 0x07
    ensures !HasFlag(FLAGS_NONE, FLAGS_WITHTOPO) && !HasFlag(FLAGS_NONE, FLAGS_WITHREPAIR)
    ensures !HasFlag(FLAGS_NONE, FLAGS_NEXTONERR)
  {
  }
}
