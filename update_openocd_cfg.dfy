/** The `openocd.cfg` rewriter: a per-line map that replaces the sample
    header and swaps the interface and target configuration file names. */
module UpdateOpenOcdCfg {
  import opened Wrappers
  import opened Text

  const SampleHeader := "# Sample OpenOCD configuration"
  const TemplateInterface := "stlink.cfg"
  const TemplateTarget := "stm32f3x.cfg"

  /** What one line becomes; the checks apply in the order header,
      interface, target. */
  function OpenOcdLine(line: string, header: string, interfaceCfg: string, targetCfg: string): string {
    if StartsWith(line, SampleHeader) then "# " + header + "\n"
    else if Contains(line, "interface/") then ReplaceAll(line, TemplateInterface, interfaceCfg)
    else if Contains(line, "target/") then ReplaceAll(line, TemplateTarget, targetCfg)
    else line
  }

  /** `update_openocd_cfg` on the file's lines; `None` is an absent file,
      for which nothing is written. */
  method UpdateOpenOcd(file: Option<seq<string>>, header: string, interfaceCfg: string, targetCfg: string)
    returns (r: Option<seq<string>>)
    ensures file.None? ==> r.None?
    ensures file.Some? ==> r.Some? && |r.value| == |file.value|
    ensures file.Some? ==> forall i :: 0 <= i < |file.value| ==>
              r.value[i] == OpenOcdLine(file.value[i], header, interfaceCfg, targetCfg)
  {
    if file.None? {
      return None;
    }
    var lines := file.value;
    var newLines: seq<string> := [];
    var i := 0;
    while i < |lines|
      invariant 0 <= i <= |lines|
      invariant |newLines| == i
      invariant forall k :: 0 <= k < i ==> newLines[k] == OpenOcdLine(lines[k], header, interfaceCfg, targetCfg)
    {
      var line := lines[i];
      if StartsWith(line, SampleHeader) {
        newLines := newLines + ["# " + header + "\n"];
      } else if Contains(line, "interface/") {
        newLines := newLines + [ReplaceAll(line, TemplateInterface, interfaceCfg)];
      } else if Contains(line, "target/") {
        newLines := newLines + [ReplaceAll(line, TemplateTarget, targetCfg)];
      } else {
        newLines := newLines + [line];
      }
      i := i + 1;
    }
    r := Some(newLines);
  }

  /** A line that is neither the sample header nor mentions the template's
      file names is copied unchanged, whatever it mentions. */
  lemma OpenOcdLineUntouched(line: string, header: string, interfaceCfg: string, targetCfg: string)
    requires !StartsWith(line, SampleHeader)
    requires !Contains(line, TemplateInterface) && !Contains(line, TemplateTarget)
    ensures OpenOcdLine(line, header, interfaceCfg, targetCfg) == line
  {
    ReplaceAllAbsent(line, TemplateInterface, interfaceCfg);
    ReplaceAllAbsent(line, TemplateTarget, targetCfg);
  }

  /** With the template's own file names as the new ones, only the header
      line can change. */
  lemma OpenOcdLineSameFiles(line: string, header: string)
    requires !StartsWith(line, SampleHeader)
    ensures OpenOcdLine(line, header, TemplateInterface, TemplateTarget) == line
  {
    ReplaceAllSelf(line, TemplateInterface);
    ReplaceAllSelf(line, TemplateTarget);
  }

  /** The new header line no longer starts with the sample header, so a
      second run leaves it alone. */
  lemma HeaderReplacedOnce(header: string)
    requires !StartsWith(header, SampleHeader[2..])
    ensures !StartsWith("# " + header + "\n", SampleHeader)
  {
    var l := "# " + header + "\n";
    if |header| >= |SampleHeader| - 2 {
      assert l[2..|SampleHeader|] == header[..|SampleHeader| - 2];
    } else {
      assert l[|header| + 2] == '\n';
    }
  }
}
