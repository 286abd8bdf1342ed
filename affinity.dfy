/**
 * The CPU-list decode used when reporting queue affinity: from a CPU set
 * and the number of online cores, the ascending list of the set's CPUs
 * below that count.
 */
module Affinity {
  import opened Wire
  import opened Kernel

  /** Whether CPU c is in the set; CPUs outside the set's 1024 bits are read as absent. */
  predicate IsSet(cpus: CpuSet, c: int)
  {
    0 <= c < CPU_SETSIZE && cpus[c]
  }

  /** The CPUs of the set among 0 .. n-1, in ascending order. */
  function CpuList(n: nat, cpus: CpuSet): (r: seq<u32>)
  {
    if n == 0 then []
    else CpuList(n - 1, cpus) + (if IsSet(cpus, n - 1) then [n - 1] else [])
  }

  /** The number of cores, or 0 when the count is negative. */
  function CoreCount(cores: int): (n: nat)
    ensures n == 0 <==> cores <= 0
    ensures cores >= 0 ==> n == cores
  {
    if cores < 0 then 0 else cores
  }

  /** Strictly increasing: ascending with no duplicates. */
  predicate Ascending(s: seq<u32>)
  {
    forall i, j :: 0 <= i < j < |s| ==> s[i] < s[j]
  }

  /** Every CPU listed is below n, and the list is strictly increasing. */
  lemma {:induction false} CpuListAscending(n: nat, cpus: CpuSet)
    ensures forall i :: 0 <= i < |CpuList(n, cpus)| ==> CpuList(n, cpus)[i] < n
    ensures Ascending(CpuList(n, cpus))
  {
    if n > 0 {
      CpuListAscending(n - 1, cpus);
    }
  }

  /** c is listed exactly when c is below n and in the set. */
  lemma {:induction false} CpuListMembers(n: nat, cpus: CpuSet, c: int)
    ensures c in CpuList(n, cpus) <==> 0 <= c < n && IsSet(cpus, c)
  {
    if n > 0 {
      CpuListMembers(n - 1, cpus, c);
      CpuListAscending(n - 1, cpus);
    }
  }

  /** The list holds at most n CPUs, and none at all when n is 0. */
  lemma {:induction false} CpuListLength(n: nat, cpus: CpuSet)
    ensures |CpuList(n, cpus)| <= n
    ensures n == 0 ==> CpuList(n, cpus) == []
  {
    if n > 0 {
      CpuListLength(n - 1, cpus);
    }
  }

  /** Beyond the set's size no further CPU is ever listed. */
  lemma {:induction false} CpuListSaturates(n: nat, cpus: CpuSet)
    requires n >= CPU_SETSIZE
    ensures CpuList(n, cpus) == CpuList(CPU_SETSIZE, cpus)
  {
    if n > CPU_SETSIZE {
      CpuListSaturates(n - 1, cpus);
    }
  }

  /**
   * Lists the set's CPUs among 0 .. cores-1 in ascending order; a negative
   * count lists none, and CPUs beyond the set's 1024 bits read as absent.
   */
  method GetCpuList(cores: i64, cpus: CpuSet) returns (list: seq<u32>)
    ensures list == CpuList(CoreCount(cores), cpus)
  {
    list := [];
    var cpu: i64 := 0;
    while cpu < cores
      invariant 0 <= cpu <= CoreCount(cores)
      invariant list == CpuList(cpu, cpus)
    {
      if IsSet(cpus, cpu) {
        list := list + [cpu as u32];
      }
      cpu := cpu + 1;
    }
  }

  /**
   * The loop as it stands. The list is reserved for `cores` entries by
   * reinterpreting the count as an unsigned size, which aborts for a
   * negative count; and the set's bits are read by indexing, which aborts at
   * CPU 1024. None stands for the abort.
   */
  method GetCpuListAsWritten(cores: i64, cpus: CpuSet) returns (r: Option<seq<u32>>)
    ensures r.None? <==> cores < 0 || cores > CPU_SETSIZE
    ensures r.Some? ==> r.value == CpuList(cores, cpus)
  {
    if cores < 0 {
      return None;
    }
    var list := [];
    var cpu: i64 := 0;
    while cpu < cores
      invariant 0 <= cpu <= cores && cpu <= CPU_SETSIZE
      invariant list == CpuList(cpu, cpus)
    {
      if cpu >= CPU_SETSIZE {
        return None;
      }
      if cpus[cpu] {
        list := list + [cpu as u32];
      }
      cpu := cpu + 1;
    }
    return Some(list);
  }

  /**
   * When the core count cannot be read (the count is -1), the loop as it
   * stands aborts, while the corrected one lists no CPU.
   */
  method UnreadableCoreCount() returns (asWritten: Option<seq<u32>>, corrected: seq<u32>)
    ensures asWritten == None && corrected == []
  {
    asWritten := GetCpuListAsWritten(-1, EmptyCpuSet());
    corrected := GetCpuList(-1, EmptyCpuSet());
  }

  /**
   * On a machine with more than 1024 cores the loop as it stands aborts,
   * while the corrected one lists exactly the set's CPUs.
   */
  method ManyCores(cpus: CpuSet) returns (asWritten: Option<seq<u32>>, corrected: seq<u32>)
    ensures asWritten == None && corrected == CpuList(CPU_SETSIZE, cpus)
  {
    asWritten := GetCpuListAsWritten(CPU_SETSIZE + 1, cpus);
    corrected := GetCpuList(CPU_SETSIZE + 1, cpus);
    CpuListSaturates(CPU_SETSIZE + 1, cpus);
  }
}
