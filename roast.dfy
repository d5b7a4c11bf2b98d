/**
 * The roast selection in `main`: one joke per attribute, picked at random
 * from the list for that attribute's tier, pushed onto a growing list in
 * the order CPU, RAM, GPU, form factor, and one general joke added when
 * fewer than three were collected.
 */
module Roast {
  import opened RustStr
  import opened Tiers
  import GpuProbe

  /** The joke lists of the program, one per tier of each attribute, and the general list. */
  datatype Pool =
    | CpuLow | CpuMid | CpuHigh
    | RamLow | RamMid | RamHigh
    | GpuIntegrated | GpuLowEnd | GpuHighEnd
    | FormLaptop | FormDesktop
    | General

  /** Every list of the program holds this many jokes. */
  const PoolLength: nat := 25

  /** The joke text: the lines of each list. */
  type Corpus = Pool -> seq<string>

  /** A corpus shaped like the program's: every list holds `PoolLength` jokes. */
  predicate Complete(corpus: Corpus)
  {
    forall pool :: |corpus(pool)| == PoolLength
  }

  /** The list a CPU roast is drawn from: one CPU list per tier. */
  function CpuPool(t: Tier): (pool: Pool)
    ensures pool == CpuLow || pool == CpuMid || pool == CpuHigh
  {
    match t
    case Low => CpuLow
    case Mid => CpuMid
    case High => CpuHigh
  }

  /** The list a memory roast is drawn from: one memory list per tier. */
  function RamPool(t: Tier): (pool: Pool)
    ensures pool == RamLow || pool == RamMid || pool == RamHigh
  {
    match t
    case Low => RamLow
    case Mid => RamMid
    case High => RamHigh
  }

  /** The list a GPU roast is drawn from: one GPU list per tier. */
  function GpuPool(t: GpuTier): (pool: Pool)
    ensures pool == GpuIntegrated || pool == GpuLowEnd || pool == GpuHighEnd
  {
    match t
    case Integrated => GpuIntegrated
    case LowEnd => GpuLowEnd
    case HighEnd => GpuHighEnd
  }

  /** The list a form-factor roast is drawn from: one list per form factor. */
  function FormPool(f: FormFactor): (pool: Pool)
    ensures pool == FormLaptop || pool == FormDesktop
  {
    match f
    case Laptop => FormLaptop
    case Desktop => FormDesktop
  }

  /**
   * Different tiers of an attribute draw from different lists, and no
   * attribute draws from the general list.
   */
  lemma PoolsOfTiersDiffer(t1: Tier, t2: Tier, g1: GpuTier, g2: GpuTier, f1: FormFactor, f2: FormFactor)
    ensures CpuPool(t1) == CpuPool(t2) ==> t1 == t2
    ensures RamPool(t1) == RamPool(t2) ==> t1 == t2
    ensures GpuPool(g1) == GpuPool(g2) ==> g1 == g2
    ensures FormPool(f1) == FormPool(f2) ==> f1 == f2
    ensures General !in {CpuPool(t1), RamPool(t1), GpuPool(g1), FormPool(f1)}
  {
  }

  /**
   * A random pick from a non-empty list. The random number generator is
   * not modelled: any index may be chosen, and the pick is always a line of
   * the list.
   */
  method Choose(list: seq<string>) returns (line: string)
    requires |list| > 0
    ensures line in list
  {
    var i :| 0 <= i < |list|;
    line := list[i];
  }

  /**
   * The fallback: a list of fewer than three roasts gets one general joke
   * appended; a longer list is left as it is.
   */
  method AddGeneralIfShort(corpus: Corpus, roasts: seq<string>) returns (result: seq<string>)
    requires Complete(corpus)
    ensures |roasts| >= 3 ==> result == roasts
    ensures |roasts| < 3 ==>
      |result| == |roasts| + 1 && result[..|roasts|] == roasts && result[|roasts|] in corpus(General)
  {
    result := roasts;
    if |result| < 3 {
      var line := Choose(corpus(General));
      result := result + [line];
    }
  }

  /** The CPU roast: a pick from the list of the CPU's tier. */
  method PickCpuRoast(corpus: Corpus, cpuCount: nat, cpuFrequency: nat) returns (line: string)
    requires Complete(corpus)
    ensures line in corpus(CpuPool(CpuTier(cpuCount, cpuFrequency)))
  {
    match CpuTier(cpuCount, cpuFrequency)
    case Low => line := Choose(corpus(CpuLow));
    case Mid => line := Choose(corpus(CpuMid));
    case High => line := Choose(corpus(CpuHigh));
  }

  /** The memory roast: a pick from the list of the memory's tier. */
  method PickRamRoast(corpus: Corpus, totalMemory: nat) returns (line: string)
    requires Complete(corpus)
    ensures line in corpus(RamPool(RamTier(totalMemory)))
  {
    match RamTier(totalMemory)
    case Low => line := Choose(corpus(RamLow));
    case Mid => line := Choose(corpus(RamMid));
    case High => line := Choose(corpus(RamHigh));
  }

  /** The GPU roast: a pick from the list of the GPU name's tier. */
  method PickGpuRoast(corpus: Corpus, gpuName: string) returns (line: string)
    requires Complete(corpus)
    ensures line in corpus(GpuPool(GpuTierOf(gpuName)))
  {
    match GpuTierOf(gpuName)
    case Integrated => line := Choose(corpus(GpuIntegrated));
    case LowEnd => line := Choose(corpus(GpuLowEnd));
    case HighEnd => line := Choose(corpus(GpuHighEnd));
  }

  /** The form-factor roast: a pick from the laptop list exactly for the label "Laptop". */
  method PickFormRoast(corpus: Corpus, formFactor: string) returns (line: string)
    requires Complete(corpus)
    ensures line in corpus(FormPool(FormFactorOf(formFactor)))
    ensures formFactor == "Laptop" ==> line in corpus(FormLaptop)
    ensures formFactor != "Laptop" ==> line in corpus(FormDesktop)
  {
    if formFactor == "Laptop" {
      line := Choose(corpus(FormLaptop));
    } else {
      line := Choose(corpus(FormDesktop));
    }
  }

  /**
   * The roasts for one machine, from the core count and clock, the total
   * memory in bytes, the output of the GPU probe's `lspci` pipeline and the
   * presence of the two battery devices. There are always exactly four, in
   * the order CPU, RAM, GPU, form factor, each from the list of that
   * attribute's tier; the general fallback never adds one.
   */
  method CollectRoasts(corpus: Corpus, cpuCount: nat, cpuFrequency: nat, totalMemory: nat,
                       lspciOutput: Option<string>, bat0: bool, bat1: bool)
    returns (roasts: seq<string>)
    requires Complete(corpus)
    ensures |roasts| == 4
    ensures roasts[0] in corpus(CpuPool(CpuTier(cpuCount, cpuFrequency)))
    ensures roasts[1] in corpus(RamPool(RamTier(totalMemory)))
    ensures roasts[2] in corpus(GpuPool(GpuTierOf(GpuProbe.GpuName(lspciOutput))))
    ensures roasts[3] in corpus(FormPool(FormFactorOf(FormFactorLabel(bat0, bat1))))
  {
    var gpuName := GpuProbe.GpuName(lspciOutput);
    var formFactor := FormFactorLabel(bat0, bat1);

    roasts := [];
    var cpuRoast := PickCpuRoast(corpus, cpuCount, cpuFrequency);
    roasts := roasts + [cpuRoast];
    var ramRoast := PickRamRoast(corpus, totalMemory);
    roasts := roasts + [ramRoast];
    var gpuRoast := PickGpuRoast(corpus, gpuName);
    roasts := roasts + [gpuRoast];
    var formRoast := PickFormRoast(corpus, formFactor);
    roasts := roasts + [formRoast];
    assert roasts == [cpuRoast, ramRoast, gpuRoast, formRoast];

    roasts := AddGeneralIfShort(corpus, roasts);
  }
}
