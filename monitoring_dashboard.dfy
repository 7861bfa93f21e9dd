/** The system monitoring dashboard (`components/monitoring-dashboard.tsx`): four series of ten
    samples that slide by one on every interval tick, the current value of each, the overall system
    status and the card captions. The timer is not modelled; `Tick` is one callback, and the random
    draws are given as natural numbers. */
module MonitoringDashboard {
  import opened Util

  /** Every series holds ten samples. */
  const SampleCount: nat := 10

  /** `Math.floor(Math.random() * span) + base`, with the random part given as `k`. */
  function Draw(k: nat, base: int, span: nat): int
    requires span > 0
  {
    base + k % span
  }

  lemma DrawInRange(k: nat, base: int, span: nat)
    requires span > 0
    ensures base <= Draw(k, base, span) < base + span
  {
  }

  /** `generateRandomData(length, min, max)`: `length` values, each drawn from `min..max`. */
  function GenerateData(length: nat, min: int, max: int, draws: nat -> nat): (r: seq<int>)
    requires min <= max
    ensures |r| == length
    ensures forall i :: 0 <= i < length ==> r[i] == Draw(draws(i), min, max - min + 1)
    ensures forall i :: 0 <= i < length ==> min <= r[i] <= max
  {
    seq(length, i requires 0 <= i < length => Draw(draws(i), min, max - min + 1))
  }

  /** `[...prev.slice(1), newValue]`. */
  function Slide(prev: seq<int>, newValue: int): seq<int>
  {
    (if prev == [] then [] else prev[1..]) + [newValue]
  }

  /** Sliding drops the oldest sample and appends the new one: a series of ten stays a series of ten,
      each sample moves one place towards the front, and the new sample is the last. */
  lemma SlideShifts(prev: seq<int>, newValue: int)
    requires prev != []
    ensures var r := Slide(prev, newValue);
      |r| == |prev| && r[|r| - 1] == newValue &&
      forall i :: 0 <= i < |r| - 1 ==> r[i] == prev[i + 1]
  {
  }

  predicate InRange(s: seq<int>, lo: int, hi: int)
  {
    forall i :: 0 <= i < |s| ==> lo <= s[i] <= hi
  }

  /** A sample inside a range slides into a series that stays inside it. */
  lemma SlideKeepsRange(prev: seq<int>, newValue: int, lo: int, hi: int)
    requires InRange(prev, lo, hi) && lo <= newValue <= hi
    ensures InRange(Slide(prev, newValue), lo, hi)
  {
  }

  /** `cpuUsage[cpuUsage.length - 1]` and its siblings: the current value is the last sample. */
  function Current(series: seq<int>): int
    requires series != []
  {
    series[|series| - 1]
  }

  datatype Status = Healthy | Warning | Critical

  /** `getSystemStatus()`: only the CPU and memory values decide it. */
  function SystemStatus(cpu: int, memory: int): Status
  {
    if cpu > 80 || memory > 85 then Critical
    else if cpu > 60 || memory > 70 then Warning
    else Healthy
  }

  /** Critical exactly above 80% CPU or 85% memory; Warning exactly when not Critical and above 60%
      CPU or 70% memory; Healthy otherwise. */
  lemma SystemStatusThresholds(cpu: int, memory: int)
    ensures SystemStatus(cpu, memory) == Critical <==> cpu > 80 || memory > 85
    ensures SystemStatus(cpu, memory) == Warning <==> !(cpu > 80 || memory > 85) && (cpu > 60 || memory > 70)
    ensures SystemStatus(cpu, memory) == Healthy <==> cpu <= 60 && memory <= 70
  {
  }

  /** The raising of either value never makes the status milder. */
  lemma SystemStatusMonotone(cpu: int, memory: int, cpu': int, memory': int)
    requires cpu <= cpu' && memory <= memory'
    ensures SystemStatus(cpu, memory) == Critical ==> SystemStatus(cpu', memory') == Critical
    ensures SystemStatus(cpu, memory) == Warning ==> SystemStatus(cpu', memory') != Healthy
  {
  }

  /** The captions under the four cards. */
  function CpuCaption(cpu: int): string { if cpu > 70 then "High load" else "Normal operation" }
  function MemoryCaption(memory: int): string { if memory > 75 then "Consider optimization" else "Sufficient memory" }
  function DiskCaption(disk: int): string { if disk > 80 then "Clean up recommended" else "Storage available" }
  function NetworkCaption(network: int): string { if network > 50 then "High traffic" else "Normal traffic" }

  /** Each caption switches to its warning text exactly above 70%, 75%, 80% and 50%. */
  lemma CaptionThresholds(cpu: int, memory: int, disk: int, network: int)
    ensures CpuCaption(cpu) == "High load" <==> cpu > 70
    ensures MemoryCaption(memory) == "Consider optimization" <==> memory > 75
    ensures DiskCaption(disk) == "Clean up recommended" <==> disk > 80
    ensures NetworkCaption(network) == "High traffic" <==> network > 50
  {
  }

  /** The samples a tick appends: CPU 30..59, memory 40..59, disk 40..49, network 10..49. */
  function TickCpu(k: nat): int { Draw(k, 30, 30) }
  function TickMemory(k: nat): int { Draw(k, 40, 20) }
  function TickDisk(k: nat): int { Draw(k, 40, 10) }
  function TickNetwork(k: nat): int { Draw(k, 10, 40) }

  /** Whatever the draws, the samples a tick appends are Healthy and give the normal captions; only a
      refresh (CPU up to 90%, memory up to 80%) can show Warning or Critical as the current state. */
  lemma TickSamplesHealthy(c: nat, m: nat, d: nat, n: nat)
    ensures SystemStatus(TickCpu(c), TickMemory(m)) == Healthy
    ensures CpuCaption(TickCpu(c)) == "Normal operation" && MemoryCaption(TickMemory(m)) == "Sufficient memory"
    ensures DiskCaption(TickDisk(d)) == "Storage available" && NetworkCaption(TickNetwork(n)) == "Normal traffic"
  {
    DrawInRange(c, 30, 30);
    DrawInRange(m, 40, 20);
    DrawInRange(d, 40, 10);
    DrawInRange(n, 10, 40);
  }

  /** A refresh can produce a Critical state: 90% CPU is a possible draw. */
  lemma RefreshCanBeCritical(draws: nat -> nat)
    requires draws(9) == 80
    ensures Current(GenerateData(SampleCount, 10, 90, draws)) == 90
    ensures SystemStatus(Current(GenerateData(SampleCount, 10, 90, draws)), 20) == Critical
  {
  }

  class Dashboard {
    var cpuUsage: seq<int>
    var memoryUsage: seq<int>
    var diskUsage: seq<int>
    var networkUsage: seq<int>
    var lastUpdated: int
    var isRefreshing: bool

    /** Ten samples per series, each inside the range the series is generated from. */
    predicate Valid()
      reads this
    {
      |cpuUsage| == SampleCount && |memoryUsage| == SampleCount &&
      |diskUsage| == SampleCount && |networkUsage| == SampleCount &&
      InRange(cpuUsage, 10, 90) && InRange(memoryUsage, 20, 80) &&
      InRange(diskUsage, 30, 70) && InRange(networkUsage, 5, 60)
    }

    /** The initial state: four generated series. */
    constructor (c: nat -> nat, m: nat -> nat, d: nat -> nat, n: nat -> nat, now: int)
      ensures Valid()
      ensures cpuUsage == GenerateData(SampleCount, 10, 90, c) && memoryUsage == GenerateData(SampleCount, 20, 80, m)
      ensures diskUsage == GenerateData(SampleCount, 30, 70, d) && networkUsage == GenerateData(SampleCount, 5, 60, n)
      ensures lastUpdated == now && !isRefreshing
    {
      cpuUsage := GenerateData(SampleCount, 10, 90, c);
      memoryUsage := GenerateData(SampleCount, 20, 80, m);
      diskUsage := GenerateData(SampleCount, 30, 70, d);
      networkUsage := GenerateData(SampleCount, 5, 60, n);
      lastUpdated := now;
      isRefreshing := false;
    }

    /** `getSystemStatus()` on the current values. */
    function CurrentStatus(): Status
      reads this
      requires Valid()
    {
      SystemStatus(Current(cpuUsage), Current(memoryUsage))
    }

    /** One interval callback: each series slides by one new sample and the time is updated. */
    method Tick(c: nat, m: nat, d: nat, n: nat, now: int)
      requires Valid()
      modifies this`cpuUsage, this`memoryUsage, this`diskUsage, this`networkUsage, this`lastUpdated
      ensures Valid()
      ensures cpuUsage == Slide(old(cpuUsage), TickCpu(c)) && memoryUsage == Slide(old(memoryUsage), TickMemory(m))
      ensures diskUsage == Slide(old(diskUsage), TickDisk(d)) && networkUsage == Slide(old(networkUsage), TickNetwork(n))
      ensures lastUpdated == now
      ensures CurrentStatus() == Healthy
    {
      DrawInRange(c, 30, 30);
      DrawInRange(m, 40, 20);
      DrawInRange(d, 40, 10);
      DrawInRange(n, 10, 40);
      SlideKeepsRange(cpuUsage, TickCpu(c), 10, 90);
      SlideKeepsRange(memoryUsage, TickMemory(m), 20, 80);
      SlideKeepsRange(diskUsage, TickDisk(d), 30, 70);
      SlideKeepsRange(networkUsage, TickNetwork(n), 5, 60);
      cpuUsage := Slide(cpuUsage, TickCpu(c));
      memoryUsage := Slide(memoryUsage, TickMemory(m));
      diskUsage := Slide(diskUsage, TickDisk(d));
      networkUsage := Slide(networkUsage, TickNetwork(n));
      lastUpdated := now;
      TickSamplesHealthy(c, m, d, n);
    }

    /** The click on Refresh: the button is disabled until the data arrives. */
    method StartRefresh()
      modifies this`isRefreshing
      ensures isRefreshing
    {
      isRefreshing := true;
    }

    /** The delayed part of `refreshData`: four freshly generated series of ten. */
    method FinishRefresh(c: nat -> nat, m: nat -> nat, d: nat -> nat, n: nat -> nat, now: int)
      modifies this
      ensures Valid()
      ensures cpuUsage == GenerateData(SampleCount, 10, 90, c) && memoryUsage == GenerateData(SampleCount, 20, 80, m)
      ensures diskUsage == GenerateData(SampleCount, 30, 70, d) && networkUsage == GenerateData(SampleCount, 5, 60, n)
      ensures lastUpdated == now && !isRefreshing
    {
      cpuUsage := GenerateData(SampleCount, 10, 90, c);
      memoryUsage := GenerateData(SampleCount, 20, 80, m);
      diskUsage := GenerateData(SampleCount, 30, 70, d);
      networkUsage := GenerateData(SampleCount, 5, 60, n);
      lastUpdated := now;
      isRefreshing := false;
    }
  }
}
