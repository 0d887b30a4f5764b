/** The manifest's view of one object, as the planner reads it. */
module Files {
  datatype FileInfo = FileInfo(
    key: string, bucket: string, size: int, raw: int, fingerprint: string, level: nat, storageClass: string)

  datatype Option<+T> = None | Some(value: T)

  /** Time and durations are nanoseconds, as in the source. */
  const HOUR: int := 3_600_000_000_000

  /** An object at least this large is never merged to reduce the file count. */
  const MATURE_BYTES: int := 33_554_432
}
