/**
 * `get_gpu_name`: turns the output of the `lspci` pipeline into a GPU name.
 * Running the pipeline is not modelled: its result comes in as an
 * `Option<string>`, None when the command could not be run and
 * Some(stdout) when it ran.
 */
module GpuProbe {
  import opened RustStr

  /** The name reported when the `lspci` pipeline could not be run. */
  const CommandErrorName: string := "Unknown GPU (lspci command error)"

  /** The name reported when the pipeline ran but printed no line. */
  const NoOutputName: string := "Unknown GPU (lspci failed)"

  /**
   * The GPU name: the first line of the output, cut after its first ": "
   * and before the first " (" that follows, then trimmed. A command that
   * cannot be run and output without a line give the two failure names;
   * otherwise the name is one piece of the first line, with no whitespace
   * at either end.
   */
  function GpuName(lspciOutput: Option<string>): (name: string)
    ensures lspciOutput == None ==> name == CommandErrorName
    ensures lspciOutput == Some([]) ==> name == NoOutputName
    ensures lspciOutput.Some? && lspciOutput.value != [] ==>
      IsPartOf(name, FirstLine(lspciOutput.value).value) && '\n' !in name
    ensures lspciOutput.Some? && lspciOutput.value != [] ==>
      name == [] || (!IsWhitespace(name[0]) && !IsWhitespace(name[|name| - 1]))
  {
    match lspciOutput
    case None => CommandErrorName
    case Some(stdout) =>
      match FirstLine(stdout)
      case None => NoOutputName
      case Some(line) =>
        PartOfOneLine(NameOfLine(line), line);
        NameOfLine(line)
  }

  /**
   * The name read off one line of `lspci` output: a piece of the line with
   * no whitespace at either end. With a ": " in the line it comes from after
   * the first ": " and holds no " ("; without one it is the whole line,
   * trimmed.
   */
  function NameOfLine(line: string): (name: string)
    ensures IsPartOf(name, line)
    ensures name == [] || (!IsWhitespace(name[0]) && !IsWhitespace(name[|name| - 1]))
    ensures Contains(line, ": ") ==>
      !Contains(name, " (") && IsPartOf(name, line[Find(line, ": ").value + 2..])
    ensures !Contains(line, ": ") ==> name == Trim(line)
  {
    match Find(line, ": ")
    case Some(start) =>
      var namePart := line[start + 2..];
      CutIsPart(namePart);
      CutHasNoSuffix(namePart);
      assert OccursAt(line, namePart, start + 2);
      PartOfPart(Trim(Before(namePart, " (")), namePart, line);
      Trim(Before(namePart, " ("))
    case None =>
      TrimIsPart(line);
      Trim(line)
  }

  /** The text cut before " (" and trimmed is copied out of the text it was cut from. */
  lemma CutIsPart(namePart: string)
    ensures IsPartOf(Trim(Before(namePart, " (")), namePart)
  {
    var cut := Before(namePart, " (");
    TrimIsPart(cut);
    PrefixIsPart(cut, namePart);
    PartOfPart(Trim(cut), cut, namePart);
  }

  /** The text cut before " (" and trimmed holds no " (". */
  lemma CutHasNoSuffix(namePart: string)
    ensures !Contains(Trim(Before(namePart, " (")), " (")
  {
    var cut := Before(namePart, " (");
    var name := Trim(cut);
    var k :| OccursAt(cut, name, k) && AllWhitespace(cut[..k]) && AllWhitespace(cut[k + |name|..]);
    NotContainsInfix(cut, name, k, " (");
  }

  /** A part of a text without line breaks has none either. */
  lemma PartOfOneLine(u: string, t: string)
    requires IsPartOf(u, t) && '\n' !in t
    ensures '\n' !in u
  {
    var i :| OccursAt(t, u, i);
    forall m | 0 <= m < |u|
      ensures u[m] != '\n'
    {
      assert u[m] == t[i..i + |u|][m];
    }
  }

  /**
   * The two failures are told apart: a command that cannot be run and a
   * command that prints nothing give two different names.
   */
  lemma FailureNames()
    ensures GpuName(None) == "Unknown GPU (lspci command error)"
    ensures GpuName(Some("")) == "Unknown GPU (lspci failed)"
    ensures GpuName(None) != GpuName(Some(""))
  {
  }

  /**
   * A first line that has ": " gives a name taken from the text after the
   * first ": ", and that name never contains " (": the parenthesised
   * revision suffix is always cut off.
   */
  lemma NameAfterDelimiter(stdout: string, line: string)
    requires FirstLine(stdout) == Some(line) && Contains(line, ": ")
    ensures !Contains(GpuName(Some(stdout)), " (")
    ensures IsPartOf(GpuName(Some(stdout)), line[Find(line, ": ").value + 2..])
  {
    assert GpuName(Some(stdout)) == NameOfLine(line);
  }

  /**
   * A line with ": " but no " (" after its first ": " gives all the text
   * after that ": ", trimmed.
   */
  lemma NameWithoutSuffix(line: string)
    requires Contains(line, ": ")
    requires !Contains(line[Find(line, ": ").value + 2..], " (")
    ensures NameOfLine(line) == Trim(line[Find(line, ": ").value + 2..])
  {
  }

  /** A first line without ": " gives that whole line, trimmed. */
  lemma NameWithoutDelimiter(stdout: string, line: string)
    requires FirstLine(stdout) == Some(line) && !Contains(line, ": ")
    ensures GpuName(Some(stdout)) == Trim(line)
  {
  }

  /** Only the first line counts: the lines after it never change the name. */
  lemma LaterLinesIgnored(line: string, rest1: string, rest2: string)
    requires '\n' !in line
    ensures GpuName(Some(line + "\n" + rest1)) == GpuName(Some(line + "\n" + rest2))
  {
    FirstLineOfMany(line, rest1);
    FirstLineOfMany(line, rest2);
  }

  /**
   * Output whose first line has no ": " gives that line trimmed, whatever
   * the later lines hold; a '\r' before the line break changes nothing.
   */
  lemma FirstLineWithoutDelimiter(line: string, rest: string)
    requires '\n' !in line && !Contains(line, ": ")
    ensures GpuName(Some(line + "\n" + rest)) == Trim(line)
  {
    FirstLineOfMany(line, rest);
    if |line| > 0 && line[|line| - 1] == '\r' {
      var shorter := line[..|line| - 1];
      assert OccursAt(line, shorter, 0);
      NotContainsInfix(line, shorter, 0, ": ");
      assert line == shorter + ['\r'];
      TrimIgnoresTrailingWhitespace(shorter, '\r');
    }
  }

  /** The first ": " of a line is the one right after a slot text without ": ". */
  lemma AfterDelimiter(pre: string, namePart: string)
    requires !Contains(pre, ": ")
    ensures Find(pre + ": " + namePart, ": ") == Some(|pre|)
    ensures (pre + ": " + namePart)[|pre| + 2..] == namePart
  {
    FindAfter(pre, ": ", namePart);
  }

  /** Cutting before " (" keeps exactly a device text without " (". */
  lemma BeforeDeviceSuffix(name: string, tail: string)
    requires !Contains(name, " (")
    ensures Before(name + " (" + tail, " (") == name
  {
    FindAfter(name, " (", tail);
    assert (name + " (" + tail)[..|name|] == name;
  }

  /** The name read off a line shaped as slot ": " device " (" anything is the device, trimmed. */
  lemma NameOfLspciLine(pre: string, name: string, tail: string)
    requires !Contains(pre, ": ") && !Contains(name, " (")
    ensures NameOfLine(pre + ": " + name + " (" + tail) == Trim(name)
  {
    var namePart := name + " (" + tail;
    assert pre + ": " + name + " (" + tail == pre + ": " + namePart;
    AfterDelimiter(pre, namePart);
    BeforeDeviceSuffix(name, tail);
  }

  /**
   * The shape of an `lspci` line: a slot and class description `pre`
   * without ": ", then ": ", the device `name` without " (", then " (" and
   * anything at all, later lines included. The GPU name is `name`, trimmed.
   */
  lemma LspciLine(pre: string, name: string, rest: string)
    requires '\n' !in pre && '\n' !in name
    requires !Contains(pre, ": ") && !Contains(name, " (")
    ensures GpuName(Some(pre + ": " + name + " (" + rest)) == Trim(name)
  {
    var head := pre + ": " + name + " (";
    assert pre + ": " + name + " (" + rest == head + rest;
    FirstLineKeepsHead(head, rest);
    var line := FirstLine(head + rest).value;
    var tail := line[|head|..];
    assert line == pre + ": " + name + " (" + tail;
    NameOfLspciLine(pre, name, tail);
  }

  /**
   * The first line of `head + rest` starts with all of `head` when `head`
   * has no line break and does not end in '\r'.
   */
  lemma FirstLineKeepsHead(head: string, rest: string)
    requires head != [] && '\n' !in head && head[|head| - 1] != '\r'
    ensures FirstLine(head + rest).Some?
    ensures |head| <= |FirstLine(head + rest).value|
    ensures FirstLine(head + rest).value[..|head|] == head
  {
    var s := head + rest;
    assert s[..|head|] == head;
    match Find(s, "\n")
    case None =>
    case Some(k) =>
      assert s[k..k + 1] == "\n";
      assert k >= |head|;
      if k == |head| {
        assert s[k - 1] == head[|head| - 1];
      }
      assert s[..k][..|head|] == head;
  }

  /** The slot and class text of the example, split after "01" and after ":00.0". */
  lemma ExampleSlotParts(slot: string)
    requires slot == "01:00.0 VGA compatible controller"
    ensures slot == "01" + ":00.0" + " VGA compatible controller"
  {
  }

  /** The slot and class text of the example has no ": " (its ':' is followed by '0'). */
  lemma ExampleSlotHasNoDelimiter(slot: string)
    requires slot == "01:00.0 VGA compatible controller"
    ensures !Contains(slot, ": ")
  {
    ExampleSlotParts(slot);
    var p1, p2, p3 := "01", ":00.0", " VGA compatible controller";
    assert !Contains(p1 + p2 + p3, ": ") by {
      assert !Contains(p1, ": ") by { AbsentChar(p1, ": ", 0); }
      assert !Contains(p2, ": ") by { AbsentChar(p2, ": ", 1); }
      assert !Contains(p3, ": ") by { AbsentChar(p3, ": ", 0); }
      assert !Contains(p1 + p2, ": ") by { NotContainsAppend(p1, p2, ": "); }
      NotContainsAppend(p1 + p2, p3, ": ");
    }
  }

  /** The device text of the example is already trimmed and has no " (". */
  lemma ExampleDeviceIsClean(name: string)
    requires name == "NVIDIA Corporation GA102"
    ensures Trim(name) == name && !Contains(name, " (")
  {
    AbsentChar(name, " (", 1);
    assert [] + name + [] == name;
    TrimUnique([], name, []);
  }

  /** The example line, with any text after its " (". */
  lemma ExampleParts(pre: string, name: string, rest: string)
    requires pre == "01:00.0 VGA compatible controller" && name == "NVIDIA Corporation GA102"
    ensures GpuName(Some(pre + ": " + name + " (" + rest)) == name
  {
    ExampleSlotHasNoDelimiter(pre);
    ExampleDeviceIsClean(name);
    LspciLine(pre, name, rest);
  }

  /** The example line in its three parts and two delimiters. */
  lemma ExampleLineParts(stdout: string)
    requires stdout == "01:00.0 VGA compatible controller: NVIDIA Corporation GA102 (rev a1)"
    ensures stdout == "01:00.0 VGA compatible controller" + ": " + "NVIDIA Corporation GA102" + " (" + "rev a1)"
  {
  }

  /** The example from an NVIDIA card: the revision suffix is dropped. */
  lemma NvidiaExample(stdout: string)
    requires stdout == "01:00.0 VGA compatible controller: NVIDIA Corporation GA102 (rev a1)"
    ensures GpuName(Some(stdout)) == "NVIDIA Corporation GA102"
  {
    ExampleLineParts(stdout);
    ExampleParts("01:00.0 VGA compatible controller", "NVIDIA Corporation GA102", "rev a1)");
  }

  /** A lone line break is one empty line: the name is empty, not a failure name. */
  lemma EmptyLineExample(stdout: string)
    requires stdout == "\n"
    ensures GpuName(Some(stdout)) == ""
  {
    FirstLineOfMany("", "");
    assert "" + "\n" + "" == "\n";
    assert [] + [] + [] == "";
    TrimUnique([], [], []);
  }
}
