/** Types shared by every component. */
module Basics {
  /** Identifiers are opaque; zero stands for the nil UUID. */
  type Uuid = nat

  const NIL: Uuid := 0
  const U64_MAX: nat := 0xFFFF_FFFF_FFFF_FFFF

  datatype Option<+T> = None | Some(value: T)

  /** How an atomic file replacement ends: done, failed with the old file in place, or failed
      after the new file was already in place. A crash is a restart after either. */
  datatype StoreOutcome = Stored | Kept | ReplacedButFailed
}
