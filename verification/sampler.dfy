/** The sampler: one reading of the operating system's counters turned into
    the memory, swap and combined-totals snapshots, with Go's `uint64` wrap. */
module Sampler {
  import opened Machine

  /** The counters the operating-system query returns (byte counts). */
  datatype RawStats = RawStats(
    active: U64,
    available: U64,
    buffers: U64,
    cached: U64,
    free: U64,
    inactive: U64,
    shared: U64,
    total: U64,
    used: U64,
    wired: U64,
    swapTotal: U64,
    swapFree: U64)

  datatype Memory = Memory(
    active: U64,
    available: U64,
    buffers: U64,
    cached: U64,
    free: U64,
    inactive: U64,
    shared: U64,
    total: U64,
    used: U64,
    wired: U64)

  datatype Swap = Swap(total: U64, used: U64, free: U64)

  datatype Totals = Totals(total: U64, used: U64, free: U64)

  datatype Snapshot = Snapshot(memory: Memory, swap: Swap, totals: Totals)

  /** Swap in use is what the swap total leaves after the free swap, in `uint64`. */
  predicate SwapConsistent(s: Swap) {
    AddU64(s.used, s.free) == s.total
  }

  /** The combined totals are the `uint64` sums of memory and swap, field by field. */
  predicate TotalsConsistent(m: Memory, s: Swap, t: Totals) {
    && SubU64(t.total, s.total) == m.total
    && SubU64(t.used, s.used) == m.used
    && SubU64(t.free, s.free) == m.free
  }

  /** One sample: memory counters copied through, swap used derived as total minus
      free, and totals as memory plus swap for total, used and free. */
  function GatherData(raw: RawStats): (snap: Snapshot)
    ensures snap.memory == Memory(raw.active, raw.available, raw.buffers, raw.cached, raw.free,
                                  raw.inactive, raw.shared, raw.total, raw.used, raw.wired)
    ensures snap.swap.total == raw.swapTotal && snap.swap.free == raw.swapFree
    ensures SwapConsistent(snap.swap)
    ensures raw.swapFree <= raw.swapTotal ==> snap.swap.used + snap.swap.free == snap.swap.total
    ensures TotalsConsistent(snap.memory, snap.swap, snap.totals)
  {
    var memory := Memory(raw.active, raw.available, raw.buffers, raw.cached, raw.free,
                         raw.inactive, raw.shared, raw.total, raw.used, raw.wired);
    var swap := Swap(raw.swapTotal, SubU64(raw.swapTotal, raw.swapFree), raw.swapFree);
    var totals := Totals(AddU64(memory.total, swap.total),
                         AddU64(memory.used, swap.used),
                         AddU64(memory.free, swap.free));
    SubUndoesAdd(memory.total, swap.total);
    SubUndoesAdd(memory.used, swap.used);
    SubUndoesAdd(memory.free, swap.free);
    AddUndoesSub(raw.swapTotal, raw.swapFree);
    Snapshot(memory, swap, totals)
  }

  /** The derived figures are determined by the reading: swap used and every
      total are the unique `uint64` values the consistency rules allow. */
  lemma DerivedFiguresAreForced(raw: RawStats, s: Swap, t: Totals)
    requires s.total == raw.swapTotal && s.free == raw.swapFree
    requires SwapConsistent(s)
    requires TotalsConsistent(GatherData(raw).memory, s, t)
    ensures GatherData(raw) == Snapshot(GatherData(raw).memory, s, t)
  {
    var snap := GatherData(raw);
    AddUndoesSub(s.total, s.free);
    AddUndoesSub(snap.swap.total, snap.swap.free);
    assert s.used == SubU64(s.total, s.free) by {
      SubUndoesAdd(s.used, s.free);
    }
    AddUndoesSub(t.total, s.total);
    AddUndoesSub(t.used, s.used);
    AddUndoesSub(t.free, s.free);
  }

  /** When nothing wraps, the totals are the exact sums and swap used is the
      exact difference. */
  lemma ExactWhenNoWrap(raw: RawStats)
    requires raw.swapFree <= raw.swapTotal
    requires raw.total + raw.swapTotal < U64_MODULUS
    requires raw.used + (raw.swapTotal - raw.swapFree) < U64_MODULUS
    requires raw.free + raw.swapFree < U64_MODULUS
    ensures GatherData(raw).swap.used == raw.swapTotal - raw.swapFree
    ensures GatherData(raw).totals
         == Totals(raw.total + raw.swapTotal,
                   raw.used + raw.swapTotal - raw.swapFree,
                   raw.free + raw.swapFree)
  {
  }
}
