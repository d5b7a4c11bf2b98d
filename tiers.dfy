/**
 * The four tier decisions that `main` makes inline before choosing a roast,
 * each lifted into a total function: every input gets exactly one tier.
 */
module Tiers {
  import opened RustStr
  import GpuProbe

  /** The CPU and memory tiers. */
  datatype Tier = Low | Mid | High

  /** The GPU tiers. */
  datatype GpuTier = Integrated | LowEnd | HighEnd

  /** The two form factors. */
  datatype FormFactor = Laptop | Desktop

  /** The order Low < Mid < High. */
  function Rank(t: Tier): nat
  {
    match t
    case Low => 0
    case Mid => 1
    case High => 2
  }

  // ---------------------------------------------------------------------------
  // CPU
  // ---------------------------------------------------------------------------

  /**
   * The CPU tier from the core count and the first core's clock in MHz.
   * Either a small core count or a slow clock alone makes the CPU Low; High
   * needs both many cores and a fast clock.
   */
  function CpuTier(cpuCount: nat, cpuFrequency: nat): (t: Tier)
    ensures t == Low <==> cpuCount < 4 || cpuFrequency < 2000
    ensures t == High <==> cpuCount >= 8 && cpuFrequency >= 3000
  {
    if cpuCount < 4 || cpuFrequency < 2000 then Low
    else if cpuCount < 8 || cpuFrequency < 3000 then Mid
    else High
  }

  /** More cores and a faster clock never give a lower CPU tier. */
  lemma CpuTierMonotone(count1: nat, freq1: nat, count2: nat, freq2: nat)
    requires count1 <= count2 && freq1 <= freq2
    ensures Rank(CpuTier(count1, freq1)) <= Rank(CpuTier(count2, freq2))
  {
  }

  /**
   * The boundaries, and the quirk of the disjunctive rule: many slow cores
   * and few fast cores are both Low.
   */
  lemma CpuTierExamples()
    ensures CpuTier(4, 2000) == Mid && CpuTier(4, 1999) == Low && CpuTier(3, 2000) == Low
    ensures CpuTier(8, 3000) == High && CpuTier(7, 3000) == Mid && CpuTier(8, 2999) == Mid
    ensures CpuTier(100, 500) == Low && CpuTier(32, 1800) == Low && CpuTier(2, 5000) == Low
  {
  }

  // ---------------------------------------------------------------------------
  // Memory
  // ---------------------------------------------------------------------------

  /** Bytes in a gibibyte. */
  const GiB: nat := 1024 * 1024 * 1024

  /**
   * The memory tier from the total memory in bytes. The program divides the
   * byte count by 1024 three times and compares the quotient with 8.0 and
   * 16.0; that is the same as comparing the byte count with 8 and 16 GiB.
   */
  function RamTier(totalMemory: nat): (t: Tier)
    ensures t == Low <==> totalMemory < 8 * GiB
    ensures t == High <==> totalMemory >= 16 * GiB
  {
    var totalGb := totalMemory as real / 1024.0 / 1024.0 / 1024.0;
    if totalGb < 8.0 then Low
    else if totalGb < 16.0 then Mid
    else High
  }

  /** More memory never gives a lower memory tier. */
  lemma RamTierMonotone(total1: nat, total2: nat)
    requires total1 <= total2
    ensures Rank(RamTier(total1)) <= Rank(RamTier(total2))
  {
  }

  /** The boundaries, one byte on either side of 8 and of 16 GiB. */
  lemma RamTierExamples()
    ensures RamTier(8 * GiB - 1) == Low && RamTier(8 * GiB) == Mid
    ensures RamTier(16 * GiB - 1) == Mid && RamTier(16 * GiB) == High
    ensures RamTier(0) == Low && RamTier(32 * GiB) == High
  {
  }

  // ---------------------------------------------------------------------------
  // GPU
  // ---------------------------------------------------------------------------

  /** The name marks an integrated GPU: `A || B || (C && !D)`, the `&&` binding tighter. */
  predicate IntegratedName(name: string)
  {
    Contains(name, "Integrated") || Contains(name, "Intel")
    || (Contains(name, "AMD Radeon Graphics") && !Contains(name, "RX"))
  }

  /** The name is of a dedicated GPU from a known vendor line. */
  predicate DedicatedName(name: string)
  {
    Contains(name, "NVIDIA GeForce") || Contains(name, "AMD Radeon")
  }

  /** The name carries a budget-model marker. */
  predicate BudgetName(name: string)
  {
    Contains(name, "GT") || Contains(name, "RX 5") || Contains(name, "RX 4")
  }

  /**
   * The GPU tier from the GPU name, by case-sensitive substring tests in a
   * fixed order. A name that no test recognises is LowEnd, never Integrated.
   */
  function GpuTierOf(name: string): (t: GpuTier)
    ensures t == Integrated <==> IntegratedName(name)
    ensures t == HighEnd <==> !IntegratedName(name) && DedicatedName(name) && !BudgetName(name)
    ensures t == LowEnd <==> !IntegratedName(name) && (!DedicatedName(name) || BudgetName(name))
  {
    if Contains(name, "Integrated") || Contains(name, "Intel")
       || (Contains(name, "AMD Radeon Graphics") && !Contains(name, "RX"))
    then Integrated
    else if Contains(name, "NVIDIA GeForce") || Contains(name, "AMD Radeon") then
      if Contains(name, "GT") || Contains(name, "RX 5") || Contains(name, "RX 4") then LowEnd
      else HighEnd
    else LowEnd
  }

  /** "AMD Radeon" is a part of "AMD Radeon Graphics". */
  lemma RadeonIsPartOfRadeonGraphics()
    ensures IsPartOf("AMD Radeon", "AMD Radeon Graphics")
  {
    assert OccursAt("AMD Radeon Graphics", "AMD Radeon", 0);
  }

  /**
   * A name with none of the vendor words the classifier looks for (not
   * "Integrated", "Intel", "NVIDIA GeForce" or "AMD Radeon") is LowEnd.
   */
  lemma UnknownNameIsLowEnd(name: string)
    requires !Contains(name, "Integrated") && !Contains(name, "Intel")
    requires !Contains(name, "NVIDIA GeForce") && !Contains(name, "AMD Radeon")
    ensures GpuTierOf(name) == LowEnd
  {
    if Contains(name, "AMD Radeon Graphics") {
      RadeonIsPartOfRadeonGraphics();
      ContainsPart(name, "AMD Radeon Graphics", "AMD Radeon");
    }
  }

  /**
   * A name without the capitals 'I', 'N' and 'A' holds none of the vendor
   * words, so it is LowEnd.
   */
  lemma NoVendorCapitalsIsLowEnd(name: string)
    requires 'I' !in name && 'N' !in name && 'A' !in name
    ensures GpuTierOf(name) == LowEnd
  {
    AbsentChar(name, "Integrated", 0);
    AbsentChar(name, "Intel", 0);
    AbsentChar(name, "NVIDIA GeForce", 0);
    AbsentChar(name, "AMD Radeon", 0);
    UnknownNameIsLowEnd(name);
  }

  /**
   * The names the GPU probe reports when it learns nothing, and the empty
   * name, are LowEnd, not Integrated.
   */
  lemma UnknownGpuNamesAreLowEnd(name: string)
    requires name == GpuProbe.CommandErrorName || name == GpuProbe.NoOutputName || name == ""
    ensures GpuTierOf(name) == LowEnd
  {
    if name == GpuProbe.CommandErrorName {
      assert 'I' !in name && 'N' !in name && 'A' !in name;
    } else if name == GpuProbe.NoOutputName {
      assert 'I' !in name && 'N' !in name && 'A' !in name;
    }
    NoVendorCapitalsIsLowEnd(name);
  }

  /**
   * A name with "AMD Radeon Graphics" and "RX" but no Intel marker is not
   * Integrated: the "RX" test applies to the Radeon Graphics test only, and
   * the name then counts as a dedicated AMD Radeon.
   */
  lemma RadeonGraphicsWithRx(name: string)
    requires Contains(name, "AMD Radeon Graphics") && Contains(name, "RX")
    requires !Contains(name, "Integrated") && !Contains(name, "Intel")
    ensures GpuTierOf(name) != Integrated
    ensures GpuTierOf(name) == (if BudgetName(name) then LowEnd else HighEnd)
  {
    RadeonIsPartOfRadeonGraphics();
    ContainsPart(name, "AMD Radeon Graphics", "AMD Radeon");
  }

  /** An "Intel" name is Integrated, whatever else it contains. */
  lemma IntelIsIntegrated(name: string)
    requires Contains(name, "Intel")
    ensures GpuTierOf(name) == Integrated
  {
  }

  /**
   * Every "NVIDIA GeForce GTX" name without an integrated marker is LowEnd:
   * "GTX" contains the budget marker "GT".
   */
  lemma GeForceGtxIsLowEnd(name: string)
    requires Contains(name, "NVIDIA GeForce GTX")
    requires !Contains(name, "Integrated") && !Contains(name, "Intel")
    requires !Contains(name, "AMD Radeon Graphics")
    ensures GpuTierOf(name) == LowEnd
  {
    assert OccursAt("NVIDIA GeForce GTX", "NVIDIA GeForce", 0);
    ContainsPart(name, "NVIDIA GeForce GTX", "NVIDIA GeForce");
    assert "NVIDIA GeForce GTX"[15..17] == "GT";
    assert OccursAt("NVIDIA GeForce GTX", "GT", 15);
    ContainsPart(name, "NVIDIA GeForce GTX", "GT");
  }

  /** "AMD Radeon Graphics" is Integrated. */
  lemma RadeonGraphicsExample(name: string)
    requires name == "AMD Radeon Graphics"
    ensures GpuTierOf(name) == Integrated
  {
    assert OccursAt(name, "AMD Radeon Graphics", 0);
    AbsentChar(name, "RX", 1);
  }

  /**
   * An "AMD Radeon" name without 'I' (no Intel marker), 'G' (neither
   * "Graphics" nor "GT") and the digits 5 and 4 is HighEnd.
   */
  lemma RadeonWithoutMarkers(name: string)
    requires Contains(name, "AMD Radeon")
    requires 'I' !in name && 'G' !in name && '5' !in name && '4' !in name
    ensures GpuTierOf(name) == HighEnd
  {
    AbsentChar(name, "Integrated", 0);
    AbsentChar(name, "Intel", 0);
    AbsentChar(name, "AMD Radeon Graphics", 11);
    AbsentChar(name, "GT", 0);
    AbsentChar(name, "RX 5", 3);
    AbsentChar(name, "RX 4", 3);
  }

  /** "AMD Radeon RX 6800" is HighEnd: its "RX" does not make it Integrated. */
  lemma RadeonRx6800Example(name: string)
    requires name == "AMD Radeon RX 6800"
    ensures GpuTierOf(name) == HighEnd
  {
    assert 'I' !in name && 'G' !in name && '5' !in name && '4' !in name;
    assert name[..10] == "AMD Radeon";
    assert OccursAt(name, "AMD Radeon", 0);
    RadeonWithoutMarkers(name);
  }

  /**
   * A "NVIDIA GeForce" name without 'n' (neither "Integrated" nor "Intel")
   * and without 'M' (no "AMD Radeon Graphics") is LowEnd when it holds "GT"
   * and HighEnd when it holds none of the budget markers.
   */
  lemma GeForceWithoutIntegratedMarkers(name: string)
    requires Contains(name, "NVIDIA GeForce")
    requires 'n' !in name && 'M' !in name
    ensures GpuTierOf(name) == (if BudgetName(name) then LowEnd else HighEnd)
  {
    AbsentChar(name, "Integrated", 1);
    AbsentChar(name, "Intel", 1);
    AbsentChar(name, "AMD Radeon Graphics", 1);
  }

  /** "NVIDIA GeForce GT 1030" is LowEnd. */
  lemma GeForceGt1030Example(name: string)
    requires name == "NVIDIA GeForce GT 1030"
    ensures GpuTierOf(name) == LowEnd
  {
    assert 'n' !in name && 'M' !in name;
    assert name[..14] == "NVIDIA GeForce";
    assert OccursAt(name, "NVIDIA GeForce", 0);
    assert name[15..17] == "GT";
    assert OccursAt(name, "GT", 15);
    GeForceWithoutIntegratedMarkers(name);
  }

  /** "NVIDIA GeForce RTX 3080" holds no "GT": "RTX" has its 'T' after the 'R'. */
  lemma Rtx3080HasNoGt(vendor: string, model: string)
    requires vendor == "NVIDIA GeForce" && model == " RTX 3080"
    ensures !Contains(vendor + model, "GT")
  {
    AbsentChar(vendor, "GT", 1);
    AbsentChar(model, "GT", 0);
    NotContainsAppend(vendor, model, "GT");
  }

  /** "NVIDIA GeForce RTX 3080" names the vendor line and holds no budget marker. */
  lemma Rtx3080Markers(name: string)
    requires name == "NVIDIA GeForce RTX 3080"
    ensures Contains(name, "NVIDIA GeForce") && !BudgetName(name)
  {
    assert name[..14] == "NVIDIA GeForce";
    assert OccursAt(name, "NVIDIA GeForce", 0);
    var vendor, model := "NVIDIA GeForce", " RTX 3080";
    assert name == vendor + model;
    Rtx3080HasNoGt(vendor, model);
    AbsentChar(name, "RX 5", 3);
    AbsentChar(name, "RX 4", 3);
  }

  /** "NVIDIA GeForce RTX 3080" is HighEnd. */
  lemma GeForceRtx3080Example(name: string)
    requires name == "NVIDIA GeForce RTX 3080"
    ensures GpuTierOf(name) == HighEnd
  {
    assert 'n' !in name && 'M' !in name;
    Rtx3080Markers(name);
    GeForceWithoutIntegratedMarkers(name);
  }

  /**
   * A name without 'g' (no "Integrated"), 'e' (neither "Intel" nor
   * "NVIDIA GeForce") and 'M' (no "AMD Radeon") is LowEnd.
   */
  lemma NoVendorLettersIsLowEnd(name: string)
    requires 'g' !in name && 'e' !in name && 'M' !in name
    ensures GpuTierOf(name) == LowEnd
  {
    AbsentChar(name, "Integrated", 4);
    AbsentChar(name, "Intel", 3);
    AbsentChar(name, "NVIDIA GeForce", 8);
    AbsentChar(name, "AMD Radeon", 1);
    UnknownNameIsLowEnd(name);
  }

  /**
   * The name the GPU probe reads off an NVIDIA card's `lspci` line,
   * "NVIDIA Corporation GA102", is LowEnd: `lspci` writes "NVIDIA
   * Corporation", not "NVIDIA GeForce", so the vendor test does not match.
   */
  lemma LspciNvidiaNameIsLowEnd(name: string)
    requires name == "NVIDIA Corporation GA102"
    ensures GpuTierOf(name) == LowEnd
  {
    assert 'g' !in name && 'e' !in name && 'M' !in name;
    NoVendorLettersIsLowEnd(name);
  }

  // ---------------------------------------------------------------------------
  // Form factor
  // ---------------------------------------------------------------------------

  /**
   * The form-factor label: "Laptop" when either battery device exists,
   * "Desktop" otherwise.
   */
  function FormFactorLabel(bat0: bool, bat1: bool): (kind: string)
    ensures kind == "Laptop" || kind == "Desktop"
    ensures kind == "Laptop" <==> bat0 || bat1
  {
    if bat0 || bat1 then "Laptop" else "Desktop"
  }

  /** The form factor the roast is chosen for: Laptop exactly for the label "Laptop". */
  function FormFactorOf(kind: string): (f: FormFactor)
    ensures f == Laptop <==> kind == "Laptop"
  {
    if kind == "Laptop" then Laptop else Desktop
  }

  /** The machine is roasted as a laptop exactly when a battery exists. */
  lemma LaptopIffBattery(bat0: bool, bat1: bool)
    ensures FormFactorOf(FormFactorLabel(bat0, bat1)) == Laptop <==> bat0 || bat1
  {
  }

  /**
   * A desktop with 16 cores at 3600 MHz, 32 GiB of memory and an "NVIDIA
   * GeForce RTX 3080" is High, High, HighEnd and Desktop.
   */
  lemma HighEndDesktopScenario(gpuName: string)
    requires gpuName == "NVIDIA GeForce RTX 3080"
    ensures CpuTier(16, 3600) == High
    ensures RamTier(32 * GiB) == High
    ensures GpuTierOf(gpuName) == HighEnd
    ensures FormFactorOf(FormFactorLabel(false, false)) == Desktop
  {
    GeForceRtx3080Example(gpuName);
  }
}
