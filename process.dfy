/**
 * What the memplot package sees of gopsutil's `process` package: the memory
 * figures of one reading, and the outcomes of looking a process up and of
 * asking it for its memory. The operating system itself is not modelled; each
 * call's outcome is supplied to the model from outside.
 */
module Process {
  import opened GoBase

  /** The two fields of `process.MemoryInfoStat` that memplot reads, in bytes. */
  datatype MemoryInfoStat = MemoryInfoStat(RSS: Uint64, VMS: Uint64)

  /** Outcome of `process.NewProcess(pid)`. */
  datatype Lookup = Found | LookupFailed(cause: string)

  /** Outcome of one `proc.MemoryInfo()` call. */
  datatype Probe = Reading(info: MemoryInfoStat) | ProbeFailed(cause: string)
}
