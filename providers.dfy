/**
 * The telemetry providers of src/main.rs: the resolved command-line
 * configuration, the four provider kinds, the registry `main` builds
 * from the `no_*` flags, and the text templates of the providers whose
 * output is a format over sampled values.
 */
module Providers {
  import opened Wrappers
  import opened Format
  import Snapshot

  /** The resolved command-line flags (`Args`). */
  datatype Args = Args(noTime: bool, noCpu: bool, noRam: bool, noGpu: bool, interval: nat)
  {
    /** clap accepts only intervals of at least one second. */
    predicate Valid() {
      interval >= 1
    }

    predicate Disabled(k: Kind) {
      match k
      case Time => noTime
      case Cpu => noCpu
      case Ram => noRam
      case Gpu => noGpu
    }

    /** How many of the four `no_*` flags are false. */
    function EnabledCount(): nat {
      (if noTime then 0 else 1) + (if noCpu then 0 else 1) +
      (if noRam then 0 else 1) + (if noGpu then 0 else 1)
    }
  }

  datatype Kind = Time | Cpu | Ram | Gpu

  /** The position of a kind in the fixed registration order Time, Cpu, Ram, Gpu. */
  function Rank(k: Kind): nat {
    match k
    case Time => 0
    case Cpu => 1
    case Ram => 2
    case Gpu => 3
  }

  /** The `sysinfo::System` sampler; its contents belong to the foreign library. */
  class System {
    constructor ()
    {
    }
  }

  /** A registered provider. Cpu and Ram hold a handle to the shared sampler. */
  datatype Provider = TimeInfo | CpuInfo(sys: System) | RamInfo(sys: System) | GpuInfo
  {
    function KindOf(): Kind {
      match this
      case TimeInfo => Time
      case CpuInfo(_) => Cpu
      case RamInfo(_) => Ram
      case GpuInfo => Gpu
    }

    /** A Cpu or Ram provider holds the sampler `s`; the others hold none. */
    predicate SamplerIs(s: System) {
      (CpuInfo? || RamInfo?) ==> sys == s
    }
  }

  /** The kind of each provider, in registry order. */
  function Kinds(infos: seq<Provider>): seq<Kind> {
    seq(|infos|, i requires 0 <= i < |infos| => infos[i].KindOf())
  }

  /** The registration order of `main`. */
  const Order: seq<Kind> := [Time, Cpu, Ram, Gpu]

  /** The kinds of `ks` whose `no_*` flag is false, in the order of `ks`. */
  function Enabled(args: Args, ks: seq<Kind>): seq<Kind>
    decreases |ks|
  {
    if ks == [] then []
    else Enabled(args, ks[..|ks| - 1]) + (if args.Disabled(ks[|ks| - 1]) then [] else [ks[|ks| - 1]])
  }

  /** Each kind comes after the previous one in registration order (so no kind occurs twice). */
  predicate StrictlyOrdered(ks: seq<Kind>) {
    forall i, j :: 0 <= i < j < |ks| ==> Rank(ks[i]) < Rank(ks[j])
  }

  /**
   * The registry built in `main`: the kinds of the fixed order whose flag
   * is false, with Cpu and Ram sharing the one sampler `sys`.
   */
  method BuildRegistry(args: Args, sys: System) returns (infos: seq<Provider>)
    ensures Kinds(infos) == Enabled(args, Order)
    ensures forall p :: p in infos ==> p.SamplerIs(sys)
  {
    infos := [];
    assert Order[..0] == [];
    RegisterStep(args, infos, TimeInfo, 0);
    if !args.noTime {
      infos := infos + [TimeInfo];
    }
    RegisterStep(args, infos, CpuInfo(sys), 1);
    if !args.noCpu {
      infos := infos + [CpuInfo(sys)];
    }
    RegisterStep(args, infos, RamInfo(sys), 2);
    if !args.noRam {
      infos := infos + [RamInfo(sys)];
    }
    RegisterStep(args, infos, GpuInfo, 3);
    if !args.noGpu {
      infos := infos + [GpuInfo];
    }
    assert Order[..4] == Order;
  }

  /** One conditional push of `main` keeps the registry equal to the filtered prefix of the fixed order. */
  lemma RegisterStep(args: Args, infos: seq<Provider>, p: Provider, j: nat)
    requires j < 4 && p.KindOf() == Order[j]
    requires Kinds(infos) == Enabled(args, Order[..j])
    ensures !args.Disabled(Order[j]) ==> Kinds(infos + [p]) == Enabled(args, Order[..j + 1])
    ensures args.Disabled(Order[j]) ==> Kinds(infos) == Enabled(args, Order[..j + 1])
  {
    KindsSnoc(infos, p);
    EnabledPrefix(args, j);
  }

  lemma KindsSnoc(infos: seq<Provider>, p: Provider)
    ensures Kinds(infos + [p]) == Kinds(infos) + [p.KindOf()]
  {
    assert forall i :: 0 <= i < |infos| ==> (infos + [p])[i] == infos[i];
  }

  /** Registering the next kind of the fixed order extends the filtered prefix by it, or not at all. */
  lemma EnabledPrefix(args: Args, j: nat)
    requires j < 4
    ensures Enabled(args, Order[..j + 1]) == Enabled(args, Order[..j]) + (if args.Disabled(Order[j]) then [] else [Order[j]])
  {
    assert Order[..j + 1][..j] == Order[..j];
  }

  /** A kind is registered exactly when it is in the list and its flag is false. */
  lemma {:induction false} EnabledMembers(args: Args, ks: seq<Kind>, k: Kind)
    ensures k in Enabled(args, ks) <==> k in ks && !args.Disabled(k)
    decreases |ks|
  {
    if ks != [] {
      EnabledMembers(args, ks[..|ks| - 1], k);
      assert ks == ks[..|ks| - 1] + [ks[|ks| - 1]];
    }
  }

  /** Filtering keeps the order: the result is a subsequence. */
  lemma {:induction false} EnabledOrdered(args: Args, ks: seq<Kind>)
    requires StrictlyOrdered(ks)
    ensures StrictlyOrdered(Enabled(args, ks))
    decreases |ks|
  {
    if ks != [] {
      var init, last := ks[..|ks| - 1], ks[|ks| - 1];
      EnabledOrdered(args, init);
      forall k | k in Enabled(args, init)
        ensures Rank(k) < Rank(last)
      {
        EnabledMembers(args, init, k);
        var i :| 0 <= i < |init| && init[i] == k;
      }
    }
  }

  /**
   * The registry lists Time, Cpu, Ram, Gpu in that order, holds each kind
   * exactly when its `no_*` flag is false, and is as long as the number of
   * false flags.
   */
  lemma RegistryShape(args: Args)
    ensures StrictlyOrdered(Enabled(args, Order))
    ensures forall k :: k in Enabled(args, Order) <==> !args.Disabled(k)
    ensures |Enabled(args, Order)| == args.EnabledCount()
  {
    EnabledOrdered(args, Order);
    forall k
      ensures k in Enabled(args, Order) <==> !args.Disabled(k)
    {
      EnabledMembers(args, Order, k);
      assert k == Order[Rank(k)];
    }
    RegistryLength(args);
  }

  /** The registry has one entry per false flag. */
  lemma RegistryLength(args: Args)
    ensures |Enabled(args, Order)| == args.EnabledCount()
  {
    assert Order[..0] == [];
    EnabledPrefix(args, 0);
    assert |Enabled(args, Order[..1])| == (if args.noTime then 0 else 1);
    EnabledPrefix(args, 1);
    assert |Enabled(args, Order[..2])| == (if args.noTime then 0 else 1) + (if args.noCpu then 0 else 1);
    EnabledPrefix(args, 2);
    assert |Enabled(args, Order[..3])| == (if args.noTime then 0 else 1) + (if args.noCpu then 0 else 1) + (if args.noRam then 0 else 1);
    EnabledPrefix(args, 3);
    assert Order[..4] == Order;
  }

  /** The temperature part of the GPU line: ", T°C" when the sensor read succeeds, nothing when it fails. */
  function TemperatureSuffix(temp: Option<nat>): (r: string)
    ensures temp.None? <==> r == ""
    ensures temp.Some? ==> |r| >= 5 && r[..2] == ", " && r[|r| - 2..] == "°C"
    ensures temp.Some? ==> (forall i :: 2 <= i < |r| - 2 ==> IsDigit(r[i])) && ParseDecimal(r[2..|r| - 2]) == temp.value
    ensures temp.Some? && |r| > 5 ==> r[2] != '0'
  {
    match temp
    case Some(t) =>
      var r := ", " + Decimal(t) + "°C";
      ParseDecimalOfDecimal(t);
      assert r[2..|r| - 2] == Decimal(t);
      r
    case None => ""
  }

  /** A run of decimal digits holds no newline. */
  lemma DigitsNoNewline(s: string)
    requires forall i :: 0 <= i < |s| ==> IsDigit(s[i])
    ensures Snapshot.NoNewline(s)
  {
  }

  /** The temperature suffix holds no newline. */
  lemma SuffixNoNewline(temp: Option<nat>)
    ensures Snapshot.NoNewline(TemperatureSuffix(temp))
  {
    var r := TemperatureSuffix(temp);
    if temp.Some? {
      DigitsNoNewline(r[2..|r| - 2]);
      assert r == r[..2] + r[2..|r| - 2] + r[|r| - 2..];
    }
  }

  /**
   * The Cpu provider's text; `usage` stands for the two-decimal rendering
   * of the global CPU usage.
   */
  function CpuLine(usage: string, processes: nat): (r: string)
    ensures |r| > 5 && r[..5] == "CPU: " && IsDigit(r[|r| - 1])
    ensures Snapshot.NoNewline(usage) ==> Snapshot.NoNewline(r)
  {
    var d := Decimal(processes);
    DigitsNoNewline(d);
    "CPU: " + usage + "%, Processes: " + d
  }

  /** The Ram provider's text; `used` and `percent` stand for the rendered byte size and percentage. */
  function RamLine(used: string, percent: string): (r: string)
    ensures |r| >= 9 && r[..5] == "RAM: " && r[|r| - 2..] == "%)"
    ensures Snapshot.NoNewline(used) && Snapshot.NoNewline(percent) ==> Snapshot.NoNewline(r)
  {
    "RAM: " + used + " (" + percent + "%)"
  }

  /** The first line of the Gpu provider's text: utilization, power and the optional temperature. */
  function GpuUsageLine(util: nat, watts: string, temp: Option<nat>): (r: string)
    ensures |r| > 5 && r[..5] == "GPU: " && r[|r| - 1] == ')'
    ensures Snapshot.NoNewline(watts) ==> Snapshot.NoNewline(r)
  {
    var d := Decimal(util);
    var t := TemperatureSuffix(temp);
    DigitsNoNewline(d);
    SuffixNoNewline(temp);
    "GPU: " + d + "% (" + watts + "W" + t + ")"
  }

  /** The second line of the Gpu provider's text: memory use. */
  function GpuMemoryLine(memUsed: string, memPercent: string): (r: string)
    ensures |r| >= 4 && r[|r| - 2..] == "%)"
    ensures Snapshot.NoNewline(memUsed) && Snapshot.NoNewline(memPercent) ==> Snapshot.NoNewline(r)
  {
    memUsed + " (" + memPercent + "%)"
  }

  /**
   * The Gpu provider's text. `watts`, `memUsed` and `memPercent` stand for
   * the rendered floating-point and byte-size values.
   */
  function GpuLine(util: nat, watts: string, temp: Option<nat>, memUsed: string, memPercent: string): (r: string)
    ensures |r| > 5 && r[..5] == "GPU: "
    ensures '\n' in r
  {
    GpuUsageLine(util, watts, temp) + "\n" + GpuMemoryLine(memUsed, memPercent)
  }

  /** A string without newlines is a single line. */
  lemma SingleLine(s: string)
    requires Snapshot.NoNewline(s)
    ensures Snapshot.Lines(s) == [s]
  {
    Snapshot.LinesOfLine(s, "");
    assert s + "" == s;
  }

  /** The Cpu and Ram texts contain no newline when their rendered values contain none. */
  lemma {:induction false} CpuRamSingleLine(usage: string, processes: nat, used: string, percent: string)
    requires Snapshot.NoNewline(usage) && Snapshot.NoNewline(used) && Snapshot.NoNewline(percent)
    ensures Snapshot.NoNewline(CpuLine(usage, processes))
    ensures Snapshot.NoNewline(RamLine(used, percent))
  {
  }

  /** The Gpu text is two lines: utilization, power and the optional temperature, then memory use. */
  lemma {:induction false} GpuTwoLines(util: nat, watts: string, temp: Option<nat>, memUsed: string, memPercent: string)
    requires Snapshot.NoNewline(watts) && Snapshot.NoNewline(memUsed) && Snapshot.NoNewline(memPercent)
    ensures Snapshot.Lines(GpuLine(util, watts, temp, memUsed, memPercent))
         == [GpuUsageLine(util, watts, temp), GpuMemoryLine(memUsed, memPercent)]
  {
    var first := GpuUsageLine(util, watts, temp);
    var second := GpuMemoryLine(memUsed, memPercent);
    Snapshot.LinesConcat(first, second);
    SingleLine(first);
    SingleLine(second);
  }

  /**
   * With all four providers registered, the snapshot has five lines: the
   * time, the Cpu line, the Ram line and the Gpu's two lines, in that order.
   */
  lemma FullSnapshotLines(time: string, usage: string, processes: nat, used: string, percent: string,
                          util: nat, watts: string, temp: Option<nat>, memUsed: string, memPercent: string)
    requires Snapshot.NoNewline(time) && Snapshot.NoNewline(usage) && Snapshot.NoNewline(used) && Snapshot.NoNewline(percent)
    requires Snapshot.NoNewline(watts) && Snapshot.NoNewline(memUsed) && Snapshot.NoNewline(memPercent)
    ensures Snapshot.Lines(Snapshot.Join([time, CpuLine(usage, processes), RamLine(used, percent),
                                          GpuLine(util, watts, temp, memUsed, memPercent)], "\n"))
         == [time, CpuLine(usage, processes), RamLine(used, percent), GpuUsageLine(util, watts, temp), GpuMemoryLine(memUsed, memPercent)]
  {
    var cpu, ram := CpuLine(usage, processes), RamLine(used, percent);
    var gpu := GpuLine(util, watts, temp, memUsed, memPercent);
    var outputs := [time, cpu, ram, gpu];
    CpuRamSingleLine(usage, processes, used, percent);
    SingleLine(time);
    SingleLine(cpu);
    SingleLine(ram);
    GpuTwoLines(util, watts, temp, memUsed, memPercent);
    Snapshot.LinesOfJoinAll(outputs);
    assert outputs[1..] == [cpu, ram, gpu] && [cpu, ram, gpu][1..] == [ram, gpu] && [ram, gpu][1..] == [gpu];
    assert Snapshot.AllLines([gpu]) == Snapshot.Lines(gpu) + Snapshot.AllLines([]);
    assert Snapshot.AllLines([ram, gpu]) == [ram] + Snapshot.AllLines([gpu]);
    assert Snapshot.AllLines([cpu, ram, gpu]) == [cpu] + Snapshot.AllLines([ram, gpu]);
    assert Snapshot.AllLines(outputs) == [time] + Snapshot.AllLines([cpu, ram, gpu]);
  }
}
