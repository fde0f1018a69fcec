/** The sampling step of `get_system_info`: the metrics the host reports and the
    ranking of the second-pass process list into the top eight by CPU share. */
module SystemInfo {

  /** The attributes `pid`, `name`, `cpu_percent` and `memory_percent` of one
      process, as read on the second pass. */
  datatype ProcessInfo = ProcessInfo(pid: int, name: string, cpuPercent: real, memoryPercent: real)

  datatype Memory = Memory(total: int, available: int, percent: real)
  datatype Disk = Disk(total: int, used: int, free: int, percent: real)
  datatype Network = Network(bytesSent: int, bytesRecv: int)

  /** What the host reports: whole-system CPU over the one-second window, memory,
      the root filesystem, the network counters and the second-pass processes in
      enumeration order. */
  datatype Readings = Readings(cpu: real, mem: Memory, disk: Disk, net: Network, processes: seq<ProcessInfo>)

  /** The dictionary `get_system_info` returns. */
  datatype Snapshot = Snapshot(cpuTotal: real, mem: Memory, disk: Disk, network: Network, topProcesses: seq<ProcessInfo>)

  /** How many processes the ranking keeps. */
  const TopCount := 8

  function Min(a: int, b: int): int { if a <= b then a else b }

  /** Ordered by `cpu_percent`, largest first. */
  predicate NonIncreasing(s: seq<ProcessInfo>) {
    forall i, j :: 0 <= i < j < |s| ==> s[i].cpuPercent >= s[j].cpuPercent
  }

  /** The processes of `s` whose `cpu_percent` is `c`, in the order of `s`. */
  function WithCpu(s: seq<ProcessInfo>, c: real): (r: seq<ProcessInfo>)
    ensures |r| <= |s|
    ensures forall p :: p in r ==> p in s && p.cpuPercent == c
  {
    if s == [] then [] else (if s[0].cpuPercent == c then [s[0]] else []) + WithCpu(s[1..], c)
  }

  /** What Python's `sorted(s, key=cpu_percent, reverse=True)` promises of `r`:
      largest first, and processes with equal `cpu_percent` in the order of `s`. */
  ghost predicate IsStableDescendingSort(s: seq<ProcessInfo>, r: seq<ProcessInfo>) {
    NonIncreasing(r) && forall c :: WithCpu(r, c) == WithCpu(s, c)
  }

  /** Puts `p` in front of the first element whose `cpu_percent` is not larger. */
  function InsertByCpu(p: ProcessInfo, s: seq<ProcessInfo>): (r: seq<ProcessInfo>)
    ensures |r| == |s| + 1
    ensures multiset(r) == multiset(s) + multiset{p}
  {
    if s == [] || s[0].cpuPercent <= p.cpuPercent then [p] + s
    else
      assert s == [s[0]] + s[1..];
      [s[0]] + InsertByCpu(p, s[1..])
  }

  /** A stable sort by `cpu_percent`, largest first (insertion sort). */
  function SortByCpuDesc(s: seq<ProcessInfo>): (r: seq<ProcessInfo>)
    ensures |r| == |s|
    ensures multiset(r) == multiset(s)
  {
    if s == [] then []
    else
      assert s == [s[0]] + s[1..];
      InsertByCpu(s[0], SortByCpuDesc(s[1..]))
  }

  /** `sorted(...)[:8]`: the processes the ranking keeps, before projection. */
  function TopProcesses(s: seq<ProcessInfo>): (r: seq<ProcessInfo>)
    ensures |r| == Min(TopCount, |s|) <= TopCount
  {
    SortByCpuDesc(s)[..Min(TopCount, |s|)]
  }

  // ---------------------------------------------------------------------------
  // Lemmas about the filter by CPU value

  lemma {:induction false} WithCpuAppend(a: seq<ProcessInfo>, b: seq<ProcessInfo>, c: real)
    ensures WithCpu(a + b, c) == WithCpu(a, c) + WithCpu(b, c)
  {
    if a == [] {
      assert a + b == b;
    } else {
      assert (a + b)[1..] == a[1..] + b;
      WithCpuAppend(a[1..], b, c);
    }
  }

  lemma {:induction false} WithCpuInsert(p: ProcessInfo, s: seq<ProcessInfo>, c: real)
    ensures WithCpu(InsertByCpu(p, s), c) == if p.cpuPercent == c then [p] + WithCpu(s, c) else WithCpu(s, c)
  {
    if s == [] || s[0].cpuPercent <= p.cpuPercent {
      assert ([p] + s)[1..] == s;
    } else {
      var r := [s[0]] + InsertByCpu(p, s[1..]);
      assert r[1..] == InsertByCpu(p, s[1..]);
      WithCpuInsert(p, s[1..], c);
    }
  }

  lemma {:induction false} InsertKeepsOrder(p: ProcessInfo, s: seq<ProcessInfo>)
    requires NonIncreasing(s)
    ensures NonIncreasing(InsertByCpu(p, s))
  {
    if s != [] && s[0].cpuPercent > p.cpuPercent {
      var t := InsertByCpu(p, s[1..]);
      InsertKeepsOrder(p, s[1..]);
      forall j | 0 <= j < |t| ensures s[0].cpuPercent >= t[j].cpuPercent {
        assert t[j] in multiset(t);
        assert t[j] in multiset(s[1..]) + multiset{p};
        if t[j] != p {
          assert t[j] in s[1..];
        }
      }
    }
  }

  /** The insertion sort meets the description of Python's stable sort. */
  lemma {:induction false} SortByCpuDescIsStableSort(s: seq<ProcessInfo>)
    ensures IsStableDescendingSort(s, SortByCpuDesc(s))
  {
    if s != [] {
      SortByCpuDescIsStableSort(s[1..]);
      InsertKeepsOrder(s[0], SortByCpuDesc(s[1..]));
      forall c ensures WithCpu(SortByCpuDesc(s), c) == WithCpu(s, c) {
        WithCpuInsert(s[0], SortByCpuDesc(s[1..]), c);
      }
    }
  }

  /** In a largest-first ordering, the first process has the largest CPU value present. */
  lemma HeadIsLargest(r: seq<ProcessInfo>, c: real)
    requires NonIncreasing(r) && WithCpu(r, c) != []
    ensures c <= r[0].cpuPercent
  {
    var q := WithCpu(r, c)[0];
    assert q in r;
  }

  /** Two sequences with the same first element and the same group for `c`
      have the same group for `c` after that element. */
  lemma TailGroups(r1: seq<ProcessInfo>, r2: seq<ProcessInfo>, c: real)
    requires r1 != [] && r2 != [] && r1[0] == r2[0]
    requires WithCpu(r1, c) == WithCpu(r2, c)
    ensures WithCpu(r1[1..], c) == WithCpu(r2[1..], c)
  {
    var h := if r1[0].cpuPercent == c then [r1[0]] else [];
    assert WithCpu(r1, c) == h + WithCpu(r1[1..], c);
    assert WithCpu(r2, c) == h + WithCpu(r2[1..], c);
    assert WithCpu(r1[1..], c) == WithCpu(r1, c)[|h|..];
  }

  /** Two orderings that are both largest-first and agree on every equal-CPU
      group are the same sequence. */
  lemma {:induction false} SameGroupsSameOrder(r1: seq<ProcessInfo>, r2: seq<ProcessInfo>)
    requires NonIncreasing(r1) && NonIncreasing(r2)
    requires forall c :: WithCpu(r1, c) == WithCpu(r2, c)
    ensures r1 == r2
    decreases |r1|
  {
    if r1 != [] {
      assert WithCpu(r1, r1[0].cpuPercent) != [];
    }
    if r2 != [] {
      assert WithCpu(r2, r2[0].cpuPercent) != [];
    }
    if r1 != [] {
      var a, b := r1[0].cpuPercent, r2[0].cpuPercent;
      assert WithCpu(r2, a) != [];
      HeadIsLargest(r2, a);
      assert WithCpu(r1, b) != [];
      HeadIsLargest(r1, b);
      assert WithCpu(r1, a)[0] == r1[0];
      assert WithCpu(r2, a)[0] == r2[0];
      assert r1[0] == r2[0];
      forall c ensures WithCpu(r1[1..], c) == WithCpu(r2[1..], c) {
        TailGroups(r1, r2, c);
      }
      SameGroupsSameOrder(r1[1..], r2[1..]);
      assert r1 == [r1[0]] + r1[1..];
      assert r2 == [r2[0]] + r2[1..];
    }
  }

  /** The stable descending sort of `s` is exactly `SortByCpuDesc(s)`. */
  lemma StableSortIsUnique(s: seq<ProcessInfo>, r: seq<ProcessInfo>)
    ensures IsStableDescendingSort(s, r) <==> r == SortByCpuDesc(s)
  {
    SortByCpuDescIsStableSort(s);
    if IsStableDescendingSort(s, r) {
      SameGroupsSameOrder(r, SortByCpuDesc(s));
    }
  }

  // ---------------------------------------------------------------------------
  // The promises of the ranking

  lemma TopProcessesOrdered(s: seq<ProcessInfo>)
    ensures NonIncreasing(TopProcesses(s))
  {
    SortByCpuDescIsStableSort(s);
  }

  /** Every kept entry is a sampled process, kept no more often than it was sampled. */
  lemma TopProcessesFromSamples(s: seq<ProcessInfo>)
    ensures multiset(TopProcesses(s)) <= multiset(s)
  {
    var sorted := SortByCpuDesc(s);
    var k := Min(TopCount, |s|);
    assert sorted == sorted[..k] + sorted[k..];
    assert multiset(sorted) == multiset(sorted[..k]) + multiset(sorted[k..]);
  }

  /** No process left out has a larger `cpu_percent` than any process kept. */
  lemma TopProcessesExcludeNoHigher(s: seq<ProcessInfo>)
    ensures forall p, q :: p in multiset(s) - multiset(TopProcesses(s)) && q in TopProcesses(s) ==>
              p.cpuPercent <= q.cpuPercent
  {
    var sorted := SortByCpuDesc(s);
    var k := Min(TopCount, |s|);
    SortByCpuDescIsStableSort(s);
    assert sorted == sorted[..k] + sorted[k..];
    assert multiset(s) == multiset(sorted[..k]) + multiset(sorted[k..]);
    forall p, q | p in multiset(s) - multiset(TopProcesses(s)) && q in TopProcesses(s)
      ensures p.cpuPercent <= q.cpuPercent
    {
      assert p in multiset(sorted[k..]);
      var j :| 0 <= j < |sorted[k..]| && sorted[k..][j] == p;
      var i :| 0 <= i < k && sorted[i] == q;
      assert sorted[k + j] == p;
    }
  }

  /** Among processes with equal `cpu_percent`, those kept are the first ones in
      enumeration order. */
  lemma TopProcessesTiesInEnumerationOrder(s: seq<ProcessInfo>, c: real)
    ensures WithCpu(TopProcesses(s), c) <= WithCpu(s, c)
  {
    var sorted := SortByCpuDesc(s);
    var k := Min(TopCount, |s|);
    SortByCpuDescIsStableSort(s);
    assert sorted == sorted[..k] + sorted[k..];
    WithCpuAppend(sorted[..k], sorted[k..], c);
  }

  // ---------------------------------------------------------------------------
  // The loop of get_system_info

  /** The second-pass loop: sort, keep the first eight, and append a record of
      the four attributes of each. */
  method CollectTopProcesses(sampled: seq<ProcessInfo>) returns (processes: seq<ProcessInfo>)
    ensures processes == TopProcesses(sampled)
    ensures |processes| <= TopCount && NonIncreasing(processes)
  {
    var ranked := SortByCpuDesc(sampled)[..Min(TopCount, |sampled|)];
    processes := [];
    for i := 0 to |ranked|
      invariant processes == ranked[..i]
    {
      var proc := ranked[i];
      processes := processes + [ProcessInfo(proc.pid, proc.name, proc.cpuPercent, proc.memoryPercent)];
    }
    TopProcessesOrdered(sampled);
  }

  /** `get_system_info` once the host has been read: copies the metrics and
      ranks the processes. */
  method GetSystemInfo(readings: Readings) returns (info: Snapshot)
    ensures info == SnapshotOf(readings)
  {
    var processes := CollectTopProcesses(readings.processes);
    info := Snapshot(readings.cpu, readings.mem, readings.disk, readings.net, processes);
  }

  /** The snapshot `GetSystemInfo` returns, for use in specifications. */
  function SnapshotOf(readings: Readings): (info: Snapshot)
    ensures |info.topProcesses| <= TopCount && NonIncreasing(info.topProcesses)
    ensures multiset(info.topProcesses) <= multiset(readings.processes)
  {
    TopProcessesOrdered(readings.processes);
    TopProcessesFromSamples(readings.processes);
    Snapshot(readings.cpu, readings.mem, readings.disk, readings.net, TopProcesses(readings.processes))
  }
}
