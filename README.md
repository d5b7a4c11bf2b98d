# rust_roast in Dafny

`rust_roast` is a small Linux command-line program. It reads the machine's
CPU core count and clock, total memory, GPU name and form factor, then
prints one sarcastic "roast" per attribute. This project models the part of
the program that decides which roasts are printed:

- `RustStr` models the Rust string operations the program relies on:
  `str::find` (first occurrence), `str::contains` (case-sensitive),
  `str::lines().next()` (the first line, without its `\n` or `\r\n`) and
  `str::trim` (Unicode White_Space at both ends). Each is a function with
  its meaning stated in its contract.
- `GpuProbe` models `get_gpu_name`. It takes the `lspci` pipeline's result
  as an `Option<string>`: `None` when the command could not be run,
  `Some(stdout)` when it ran. It keeps the first line and cuts it after the
  first `": "` and before the following `" ("`, then trims. It has two
  sentinel names for the two failures.
- `Tiers` models the four inline classifications in `main`:
  - CPU tier, from the core count and MHz;
  - memory tier, from total bytes divided three times by 1024;
  - GPU tier, from substring tests on the GPU name in a fixed order;
  - form factor, from the presence of the `BAT0`/`BAT1` battery devices.
- `Roast` models the random pick from each tier's joke list and the
  `roasts` vector. The pick is a nondeterministic index and the joke text
  is an abstract corpus. The vector is grown in the order CPU, RAM, GPU,
  form factor. `main` then adds a general joke when fewer than three roasts
  were collected. That fallback never fires, because the four earlier
  pushes are unconditional.

## Model

| member | source | states |
|---|---|---|
| RustStr.Find | main.rs:18 | the result is the first index where the pattern occurs, or None exactly when it occurs nowhere |
| RustStr.Contains | main.rs:340 | true exactly when the pattern occurs at some index |
| RustStr.Before | main.rs:20-21 | the text before the first occurrence of the pattern (the cut is where `find` puts it), which holds no occurrence; the whole text when there is none |
| RustStr.Trim | main.rs:21 | the result is a part of the input, surrounded only by whitespace, and neither starts nor ends with whitespace |
| RustStr.TrimUnique | main.rs:21 | trimming text with whitespace on both sides of a core that has none at its ends gives exactly that core |
| RustStr.TrimIdempotent | main.rs:25 | trimming twice is the same as trimming once |
| RustStr.TrimIgnoresTrailingWhitespace | main.rs:16-25 | whitespace appended to a text, such as a carriage return, does not change what `trim` gives |
| RustStr.FirstLine | main.rs:16 | None exactly for empty output; otherwise a prefix of the output with no line break |
| RustStr.FirstLineOfMany | main.rs:16 | for a line followed by a line break and more text, the first line is that line, with one trailing carriage return dropped |
| RustStr.FindAfter | main.rs:18 | a two-character pattern whose two characters differ, placed right after text that lacks it, is first found at that position |
| RustStr.ContainsPart | main.rs:340-345 | a text containing a pattern contains every part of that pattern |
| GpuProbe.FailureNames | main.rs:27-29 | a command that cannot be run gives "Unknown GPU (lspci command error)", output with no line gives "Unknown GPU (lspci failed)", and the two differ |
| GpuProbe.GpuName | main.rs:7-30 | a command that cannot be run gives "Unknown GPU (lspci command error)" and empty output gives "Unknown GPU (lspci failed)"; for any other output the name is text copied from the first line, with no line break and no whitespace at either end |
| GpuProbe.NameOfLine | main.rs:18-25 | the name is text copied from the line with no whitespace at either end; with ": " it comes from after the first ": " and holds no " ("; without ": " it is the whole line trimmed |
| GpuProbe.NameAfterDelimiter | main.rs:18-23 | with a ": " in the first line, the name is text copied from after the first ": " and never contains " (" |
| GpuProbe.NameWithoutDelimiter | main.rs:25 | without a ": " in the first line, the name is that line trimmed |
| GpuProbe.NameWithoutSuffix | main.rs:18-23 | a line with ": " but no " (" after its first ": " gives all the text after that ": ", trimmed |
| GpuProbe.LaterLinesIgnored | main.rs:16 | text after the first line break never changes the name |
| GpuProbe.FirstLineWithoutDelimiter | main.rs:16-25 | output whose first line has no ": " gives that line trimmed, with or without a carriage return before the line break |
| GpuProbe.LspciLine | main.rs:18-21 | for a line shaped as slot ": " device " (" anything, the name is the device text trimmed |
| GpuProbe.NvidiaExample | main.rs:18-21 | the line "01:00.0 VGA compatible controller: NVIDIA Corporation GA102 (rev a1)" gives "NVIDIA Corporation GA102" |
| GpuProbe.EmptyLineExample | main.rs:16 | output of a single line break is one empty line and gives the empty name, not a sentinel |
| Tiers.CpuTier | main.rs:158-164 | Low exactly when there are fewer than 4 cores or under 2000 MHz; High exactly when there are at least 8 cores and at least 3000 MHz |
| Tiers.CpuTierMonotone | main.rs:158-164 | more cores and a faster clock never give a lower tier |
| Tiers.CpuTierExamples | main.rs:158-164 | the tier on each side of each boundary; 100 cores at 500 MHz and 2 cores at 5000 MHz are both Low |
| Tiers.RamTier | main.rs:249-255 | Low exactly below 8 GiB, High exactly from 16 GiB, Mid in between, for the byte count divided three times by 1024 as at main.rs:53 |
| Tiers.RamTierMonotone | main.rs:249-255 | more memory never gives a lower tier |
| Tiers.RamTierExamples | main.rs:249-255 | one byte below 8 GiB is Low and 8 GiB is Mid; one byte below 16 GiB is Mid and 16 GiB is High |
| Tiers.GpuTierOf | main.rs:340-351 | Integrated exactly for "Integrated", "Intel", or "AMD Radeon Graphics" without "RX"; otherwise HighEnd exactly for an "NVIDIA GeForce" or "AMD Radeon" name without "GT", "RX 5" or "RX 4"; LowEnd in every other case, unknown names included |
| Tiers.UnknownNameIsLowEnd | main.rs:349-351 | a name with none of the vendor words is LowEnd |
| Tiers.UnknownGpuNamesAreLowEnd | main.rs:27-29 | the two sentinel names and the empty name are LowEnd |
| Tiers.IntelIsIntegrated | main.rs:340 | an "Intel" name is Integrated whatever else it contains |
| Tiers.RadeonGraphicsWithRx | main.rs:340-347 | "AMD Radeon Graphics" together with "RX" is not Integrated; such a name is classified as a dedicated AMD Radeon |
| Tiers.GeForceGtxIsLowEnd | main.rs:344-345 | every "NVIDIA GeForce GTX" name without an integrated marker is LowEnd, because "GTX" contains "GT" |
| Tiers.RadeonGraphicsExample | main.rs:340-341 | "AMD Radeon Graphics" is Integrated |
| Tiers.RadeonRx6800Example | main.rs:343-347 | "AMD Radeon RX 6800" is HighEnd |
| Tiers.GeForceGt1030Example | main.rs:343-345 | "NVIDIA GeForce GT 1030" is LowEnd |
| Tiers.GeForceRtx3080Example | main.rs:343-347 | "NVIDIA GeForce RTX 3080" is HighEnd |
| Tiers.LspciNvidiaNameIsLowEnd | main.rs:349-351 | "NVIDIA Corporation GA102", the name read off an NVIDIA card's lspci line, is LowEnd |
| Tiers.FormFactorLabel | main.rs:36-37 | the label is "Laptop" exactly when BAT0 or BAT1 exists, and "Desktop" otherwise |
| Tiers.FormFactorOf | main.rs:409-413 | the laptop branch is taken exactly for the label "Laptop" |
| Tiers.LaptopIffBattery | main.rs:409-413 | the laptop roasts are used exactly when a battery exists |
| Tiers.HighEndDesktopScenario | main.rs:158-164 | 16 cores at 3600 MHz, 32 GiB and an "NVIDIA GeForce RTX 3080" without a battery are High, High, HighEnd and Desktop |
| Roast.Choose | main.rs:159 | the pick is always a line of the list it is taken from |
| Roast.CpuPool | main.rs:158-164 | a CPU roast is drawn from one of the three CPU lists |
| Roast.RamPool | main.rs:249-255 | a memory roast is drawn from one of the three memory lists |
| Roast.GpuPool | main.rs:340-351 | a GPU roast is drawn from one of the three GPU lists |
| Roast.FormPool | main.rs:409-413 | a form-factor roast is drawn from the laptop or the desktop list |
| Roast.PoolsOfTiersDiffer | main.rs:158-413 | different tiers of one attribute draw from different lists, and no attribute draws from the general list |
| Roast.PickCpuRoast | main.rs:158-164 | the CPU roast comes from the list of the CPU's tier |
| Roast.PickRamRoast | main.rs:249-255 | the memory roast comes from the list of the memory's tier |
| Roast.PickGpuRoast | main.rs:340-351 | the GPU roast comes from the list of the GPU name's tier |
| Roast.PickFormRoast | main.rs:409-413 | the form-factor roast comes from the laptop list exactly for the label "Laptop", from the desktop list otherwise |
| Roast.AddGeneralIfShort | main.rs:416-445 | fewer than three roasts get one general joke appended after them; three or more are left unchanged |
| Roast.CollectRoasts | main.rs:72-445 | exactly four roasts, in the order CPU, RAM, GPU, form factor, each from the list of that attribute's tier; the general fallback adds nothing |

## Left out

- The `sysinfo` calls that read the machine (main.rs:41-63). Core count, first-core clock in MHz and total bytes are parameters of the model.
- The panic of `cpus()[0]` on a machine that reports no CPU.
- The used-memory figure, the OS name and the OS version. They are only printed.
- All printing and colouring, including the final loop over the roasts (main.rs:447-450). The model returns the roasts in print order.
- Running the `sh -c "lspci -v | grep ..."` pipeline, including what its `grep` filter lets through. The pipeline's result is a parameter.
- `String::from_utf8_lossy` (main.rs:15). The model takes stdout as already-decoded text, so invalid UTF-8 is not modelled.
- Byte offsets versus characters. Strings are sequences of characters. The slices in `get_gpu_name` cut next to the ASCII delimiters `": "` and `" ("`, so they always fall on character boundaries.
- The existence checks for `/sys/class/power_supply/BAT0` and `BAT1` (main.rs:36-37). They are file-system queries, so their results are two boolean parameters.
- The random number generator behind `choose`. Any index of the list may be picked; the `unwrap` never fails because every list is non-empty.
- The joke text. Each list is an abstract sequence of `PoolLength` (25) lines.
- Tiers.RamTier: computes on exact reals instead of `f64`. `f64` rounding only starts above 2^53 bytes, far beyond the 8 and 16 GiB thresholds, so it cannot change a tier.
- Integer widths. `usize` core counts and `u64` clocks and byte counts are unbounded naturals; the program does no arithmetic on them that could overflow.
