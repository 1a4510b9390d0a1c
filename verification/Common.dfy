/** Vocabulary shared by the models of the storage primitives. */
module Common {

  datatype Option<+T> = None | Some(value: T)

  type byte = x: int | 0 <= x < 256
  type Bytes = seq<byte>

  /** The bound of a PostgreSQL bigint and of a Go int64. */
  const MAX_INT64: nat := 0x7fff_ffff_ffff_ffff

  /** The bound of a Go uint64. */
  const MAX_UINT64: nat := 0xffff_ffff_ffff_ffff

  type uint64 = x: nat | x <= MAX_UINT64

  /** How many transactions one call may try (internal/postgres/postgres.go). */
  const ATTEMPTS: nat := 4
}
