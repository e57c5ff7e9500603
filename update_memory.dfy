/** The `memory.x` rewriter: four passes over the linker script's lines
    (each line keeps its final "\n"), run in the order deletion, FLASH/RAM
    replacement, extra-section insertion, placeholder substitution. */
module UpdateMemory {
  import opened Wrappers
  import opened Text
  import opened ProjectTypes

  // ---------------------------------------------------------------------
  // delete_lines
  // ---------------------------------------------------------------------

  /** `delete_lines`: the lines whose stripped text is not in `deny`, in
      their original order. */
  function DeleteLines(lines: seq<string>, deny: seq<string>): (r: seq<string>)
    ensures |r| <= |lines|
    ensures forall k :: 0 <= k < |r| ==> r[k] in lines && Strip(r[k]) !in deny
    ensures forall k :: 0 <= k < |lines| && Strip(lines[k]) !in deny ==> lines[k] in r
  {
    if lines == [] then []
    else
      var rest := DeleteLines(lines[1..], deny);
      assert forall k :: 1 <= k < |lines| ==> lines[k] == lines[1..][k - 1];
      if Strip(lines[0]) in deny then rest else [lines[0]] + rest
  }

  /** Deleting from a concatenation deletes from each part: the kept lines
      stay in their original order. */
  lemma {:induction false} DeleteLinesAppend(a: seq<string>, b: seq<string>, deny: seq<string>)
    ensures DeleteLines(a + b, deny) == DeleteLines(a, deny) + DeleteLines(b, deny)
  {
    if a == [] {
      assert a + b == b;
    } else {
      assert (a + b)[1..] == a[1..] + b;
      DeleteLinesAppend(a[1..], b, deny);
    }
  }

  /** A second deletion pass finds nothing more to delete. */
  lemma {:induction false} DeleteLinesIdempotent(lines: seq<string>, deny: seq<string>)
    ensures DeleteLines(DeleteLines(lines, deny), deny) == DeleteLines(lines, deny)
  {
    if lines != [] {
      DeleteLinesIdempotent(lines[1..], deny);
      var rest := DeleteLines(lines[1..], deny);
      if Strip(lines[0]) !in deny {
        assert ([lines[0]] + rest)[1..] == rest;
      }
    }
  }

  // ---------------------------------------------------------------------
  // update_flash_and_ram
  // ---------------------------------------------------------------------

  function FlashLine(flash: Region): string {
    "  FLASH : ORIGIN = " + flash.origin + ", LENGTH = " + flash.length + "\n"
  }

  function RamLine(ram: Region): string {
    "  RAM : ORIGIN = " + ram.origin + ", LENGTH = " + ram.length + "\n"
  }

  /** One line of `update_flash_and_ram`: a FLASH line is replaced first,
      then a RAM line; any other line is kept. */
  function FlashRamLine(line: string, flash: Region, ram: Region): string {
    if Contains(line, "FLASH :") then FlashLine(flash)
    else if Contains(line, "RAM :") then RamLine(ram)
    else line
  }

  function FlashAndRam(lines: seq<string>, flash: Region, ram: Region): seq<string> {
    seq(|lines|, k requires 0 <= k < |lines| => FlashRamLine(lines[k], flash, ram))
  }

  /** `update_flash_and_ram`. */
  method UpdateFlashAndRam(lines: seq<string>, memory: MemoryConfig) returns (r: seq<string>)
    ensures r == FlashAndRam(lines, memory.flash, memory.ram)
  {
    r := [];
    var i := 0;
    while i < |lines|
      invariant 0 <= i <= |lines|
      invariant |r| == i
      invariant forall k :: 0 <= k < i ==> r[k] == FlashRamLine(lines[k], memory.flash, memory.ram)
    {
      var line := lines[i];
      if Contains(line, "FLASH :") {
        line := FlashLine(memory.flash);
      } else if Contains(line, "RAM :") {
        line := RamLine(memory.ram);
      }
      r := r + [line];
      i := i + 1;
    }
  }

  /** The pass keeps the line count, rewrites exactly the FLASH and RAM
      lines, and leaves every other line as it was. */
  lemma FlashAndRamLines(lines: seq<string>, flash: Region, ram: Region)
    ensures |FlashAndRam(lines, flash, ram)| == |lines|
    ensures forall k :: 0 <= k < |lines| && Contains(lines[k], "FLASH :") ==>
              FlashAndRam(lines, flash, ram)[k] == FlashLine(flash)
    ensures forall k :: 0 <= k < |lines| && !Contains(lines[k], "FLASH :") && Contains(lines[k], "RAM :") ==>
              FlashAndRam(lines, flash, ram)[k] == RamLine(ram)
    ensures forall k :: 0 <= k < |lines| && !Contains(lines[k], "FLASH :") && !Contains(lines[k], "RAM :") ==>
              FlashAndRam(lines, flash, ram)[k] == lines[k]
  {
  }

  /** The generated lines are recognised again by the pass. */
  lemma GeneratedLinesMatch(flash: Region, ram: Region)
    ensures Contains(FlashLine(flash), "FLASH :")
    ensures Contains(RamLine(ram), "RAM :")
  {
    var f := FlashLine(flash);
    assert f == "  FLASH : ORIGIN = " + (flash.origin + ", LENGTH = " + flash.length + "\n");
    assert f[2..][..7] == "FLASH :";
    ContainsAt(f, "FLASH :", 2);
    var m := RamLine(ram);
    assert m == "  RAM : ORIGIN = " + (ram.origin + ", LENGTH = " + ram.length + "\n");
    assert m[2..][..5] == "RAM :";
    ContainsAt(m, "RAM :", 2);
  }

  /** Running the pass twice gives the same lines as running it once,
      provided the generated RAM line does not itself mention "FLASH :". */
  lemma {:induction false} FlashAndRamIdempotent(lines: seq<string>, flash: Region, ram: Region)
    requires !Contains(RamLine(ram), "FLASH :")
    ensures FlashAndRam(FlashAndRam(lines, flash, ram), flash, ram) == FlashAndRam(lines, flash, ram)
  {
    GeneratedLinesMatch(flash, ram);
  }

  // ---------------------------------------------------------------------
  // add_extra_memory_sections
  // ---------------------------------------------------------------------

  /** The line for one extra section, its type upper-cased. */
  function SectionLine(s: ExtraMemorySection): string {
    "  " + Text.Upper(s.memoryType) + " : ORIGIN = " + s.origin + ", LENGTH = " + s.length + "\n"
  }

  function SectionLines(sections: seq<ExtraMemorySection>): (r: seq<string>)
    ensures |r| == |sections|
    ensures forall k :: 0 <= k < |sections| ==> r[k] == SectionLine(sections[k])
  {
    seq(|sections|, k requires 0 <= k < |sections| => SectionLine(sections[k]))
  }

  predicate MemorySeenBefore(lines: seq<string>, i: int)
    requires 0 <= i <= |lines|
  {
    exists j :: 0 <= j < i && Contains(lines[j], "MEMORY")
  }

  /** Line `i` closes the MEMORY block: a "MEMORY" line came earlier, and
      this line has "}" but neither "MEMORY" nor "{". */
  predicate IsClosing(lines: seq<string>, i: int)
    requires 0 <= i < |lines|
  {
    && MemorySeenBefore(lines, i)
    && !Contains(lines[i], "MEMORY") && '{' !in lines[i] && '}' in lines[i]
  }

  /** The first closing line at or after `i`, given whether a "MEMORY" line
      was seen before `i`. */
  function FirstClosingFrom(lines: seq<string>, i: nat, seen: bool): (r: Option<nat>)
    requires i <= |lines|
    requires seen <==> MemorySeenBefore(lines, i)
    ensures r.Some? ==> i <= r.value < |lines| && IsClosing(lines, r.value)
                        && forall j :: i <= j < r.value ==> !IsClosing(lines, j)
    ensures r.None? ==> forall j :: i <= j < |lines| ==> !IsClosing(lines, j)
    decreases |lines| - i
  {
    if i == |lines| then None
    else if Contains(lines[i], "MEMORY") then
      assert MemorySeenBefore(lines, i + 1);
      FirstClosingFrom(lines, i + 1, true)
    else if seen && '{' in lines[i] then
      FirstClosingFrom(lines, i + 1, seen)
    else if seen && '}' in lines[i] then Some(i)
    else
      assert MemorySeenBefore(lines, i + 1) ==> seen;
      FirstClosingFrom(lines, i + 1, seen)
  }

  /** The first line that closes the MEMORY block, if there is one. */
  function FirstClosing(lines: seq<string>): (r: Option<nat>)
    ensures r.Some? ==> r.value < |lines| && IsClosing(lines, r.value)
                        && forall j :: 0 <= j < r.value ==> !IsClosing(lines, j)
    ensures r.None? ==> forall j :: 0 <= j < |lines| ==> !IsClosing(lines, j)
  {
    FirstClosingFrom(lines, 0, false)
  }

  /** What `add_extra_memory_sections` returns. */
  function WithExtraSections(lines: seq<string>, extra: Option<seq<ExtraMemorySection>>): seq<string> {
    if extra.None? || extra.value == [] then lines
    else match FirstClosing(lines)
      case None => lines
      case Some(k) => lines[..k] + SectionLines(extra.value) + lines[k..]
  }

  /** `add_extra_memory_sections`: the scan keeps a flag for "MEMORY seen"
      and stops at the first closing line. */
  method AddExtraMemorySections(lines: seq<string>, memory: MemoryConfig) returns (r: seq<string>)
    ensures r == WithExtraSections(lines, memory.extraSections)
  {
    r := lines;
    if memory.extraSections.Some? && memory.extraSections.value != [] {
      var extraLines := SectionLines(memory.extraSections.value);
      var found := false;
      var endIndex: Option<nat> := None;
      var i := 0;
      while i < |lines|
        invariant 0 <= i <= |lines|
        invariant found <==> MemorySeenBefore(lines, i)
        invariant endIndex.None?
        invariant FirstClosingFrom(lines, i, found) == FirstClosing(lines)
      {
        var line := lines[i];
        if Contains(line, "MEMORY") {
          assert MemorySeenBefore(lines, i + 1);
          found := true;
        } else if found && '{' in line {
        } else if found && '}' in line {
          endIndex := Some(i);
          break;
        } else {
          assert MemorySeenBefore(lines, i + 1) ==> found;
        }
        i := i + 1;
      }
      if endIndex.Some? {
        r := lines[..endIndex.value] + extraLines + lines[endIndex.value..];
      }
    }
  }

  /** Where the sections go: before the first closing line, one line per
      section in order, the rest of the file after them; with no closing
      line or no sections the lines are unchanged. */
  lemma ExtraSectionsPlacement(lines: seq<string>, extra: Option<seq<ExtraMemorySection>>)
    ensures extra.None? || extra == Some([]) ==> WithExtraSections(lines, extra) == lines
    ensures (forall j :: 0 <= j < |lines| ==> !IsClosing(lines, j)) ==> WithExtraSections(lines, extra) == lines
    ensures forall k :: 0 <= k < |lines| && IsClosing(lines, k)
                        && (forall j :: 0 <= j < k ==> !IsClosing(lines, j))
                        && extra.Some? ==>
              var r := WithExtraSections(lines, extra);
              && |r| == |lines| + |extra.value|
              && r[..k] == lines[..k]
              && r[k..k + |extra.value|] == SectionLines(extra.value)
              && r[k + |extra.value|..] == lines[k..]
  {
    var c := FirstClosing(lines);
    if c.None? {
    } else {
      forall k | 0 <= k < |lines| && IsClosing(lines, k)
                 && (forall j :: 0 <= j < k ==> !IsClosing(lines, j)) && extra.Some?
        ensures k == c.value
      {
        if k < c.value {
        } else if k > c.value {
        }
      }
    }
  }

  // ---------------------------------------------------------------------
  // replace_lines
  // ---------------------------------------------------------------------

  /** The search of `replace_lines`: the stripped `original`, escaped, is
      found in the stripped line, ignoring case. */
  predicate Matches(line: string, original: string) {
    ContainsIgnoreCase(Strip(line), Strip(original))
  }

  /** One line of `replace_lines`: the first tuple whose stripped original
      occurs in the stripped line, ignoring case, has its occurrences in
      the line replaced; later tuples are not tried. */
  function ReplaceLine(line: string, tuples: seq<(string, string)>): string {
    if tuples == [] then line
    else if Matches(line, tuples[0].0) then ReplaceAllIgnoreCase(line, Strip(tuples[0].0), tuples[0].1)
    else ReplaceLine(line, tuples[1..])
  }

  /** A line changes only when some tuple's original matches it. */
  lemma {:induction false} ReplaceLineNeedsMatch(line: string, tuples: seq<(string, string)>)
    requires forall k :: 0 <= k < |tuples| ==> !Matches(line, tuples[k].0)
    ensures ReplaceLine(line, tuples) == line
  {
    if tuples != [] {
      assert !Matches(line, tuples[0].0);
      ReplaceLineNeedsMatch(line, tuples[1..]);
    }
  }

  /** The first matching tuple is the one applied. */
  lemma {:induction false} ReplaceLineFirstMatch(line: string, tuples: seq<(string, string)>, k: nat)
    requires k < |tuples| && Matches(line, tuples[k].0)
    requires forall j :: 0 <= j < k ==> !Matches(line, tuples[j].0)
    ensures ReplaceLine(line, tuples) == ReplaceAllIgnoreCase(line, Strip(tuples[k].0), tuples[k].1)
  {
    if k > 0 {
      assert !Matches(line, tuples[0].0);
      assert tuples[1..][k - 1] == tuples[k];
      ReplaceLineFirstMatch(line, tuples[1..], k - 1);
    }
  }

  function ReplacedLines(lines: seq<string>, tuples: seq<(string, string)>): seq<string> {
    seq(|lines|, k requires 0 <= k < |lines| => ReplaceLine(lines[k], tuples))
  }

  /** The tuple loop of `replace_lines` for one line, stopping at the
      first match. */
  method ReplaceInLine(line: string, tuples: seq<(string, string)>) returns (r: string)
    ensures r == ReplaceLine(line, tuples)
  {
    var t := 0;
    while t < |tuples|
      invariant 0 <= t <= |tuples|
      invariant ReplaceLine(line, tuples[t..]) == ReplaceLine(line, tuples)
    {
      if Matches(line, tuples[t].0) {
        return ReplaceAllIgnoreCase(line, Strip(tuples[t].0), tuples[t].1);
      }
      assert tuples[t..][1..] == tuples[t + 1..];
      t := t + 1;
    }
    r := line;
  }

  /** `replace_lines`. */
  method ReplaceLines(lines: seq<string>, tuples: seq<(string, string)>) returns (r: seq<string>)
    ensures r == ReplacedLines(lines, tuples)
  {
    r := [];
    var i := 0;
    while i < |lines|
      invariant 0 <= i <= |lines|
      invariant |r| == i
      invariant forall k :: 0 <= k < i ==> r[k] == ReplaceLine(lines[k], tuples)
    {
      var line := ReplaceInLine(lines[i], tuples);
      r := r + [line];
      i := i + 1;
    }
  }

  /** The pass keeps the line count, and a line with none of the stripped
      originals in it (in any case) is kept as it is. */
  lemma ReplacedLinesUnchanged(lines: seq<string>, tuples: seq<(string, string)>)
    ensures |ReplacedLines(lines, tuples)| == |lines|
    ensures forall i :: 0 <= i < |lines| && (forall k :: 0 <= k < |tuples| ==> !Matches(lines[i], tuples[k].0))
                        ==> ReplacedLines(lines, tuples)[i] == lines[i]
  {
    forall i | 0 <= i < |lines| && (forall k :: 0 <= k < |tuples| ==> !Matches(lines[i], tuples[k].0))
      ensures ReplacedLines(lines, tuples)[i] == lines[i]
    {
      ReplaceLineNeedsMatch(lines[i], tuples);
    }
  }

  // ---------------------------------------------------------------------
  // modify_memory_x
  // ---------------------------------------------------------------------

  /** The placeholder comment of the template and what replaces it. */
  function Replacements(mcuFamily: string): seq<(string, string)> {
    [("  /* TODO Adjust these memory regions to match your device memory layout */ ",
      "/* Values adjusted for " + mcuFamily + " */")]
  }

  /** The four passes in order; `None` is an absent file, which is left
      alone. */
  function MemoryX(lines: seq<string>, mcuFamily: string, memory: MemoryConfig, deny: seq<string>): seq<string> {
    var deleted := DeleteLines(lines, deny);
    var updated := FlashAndRam(deleted, memory.flash, memory.ram);
    var extended := WithExtraSections(updated, memory.extraSections);
    ReplacedLines(extended, Replacements(mcuFamily))
  }

  /** `modify_memory_x` on the file's lines, `None` when the file is absent. */
  method ModifyMemoryX(file: Option<seq<string>>, mcuFamily: string, memory: MemoryConfig,
                       deny: seq<string>) returns (r: Option<seq<string>>)
    ensures file.None? ==> r.None?
    ensures file.Some? ==> r == Some(MemoryX(file.value, mcuFamily, memory, deny))
  {
    if file.None? {
      return None;
    }
    var lines := DeleteLines(file.value, deny);
    lines := UpdateFlashAndRam(lines, memory);
    lines := AddExtraMemorySections(lines, memory);
    lines := ReplaceLines(lines, Replacements(mcuFamily));
    r := Some(lines);
  }

  /** The whole rewrite changes the line count only by deletion and by the
      inserted sections. */
  lemma MemoryXLength(lines: seq<string>, mcuFamily: string, memory: MemoryConfig, deny: seq<string>)
    ensures var updated := FlashAndRam(DeleteLines(lines, deny), memory.flash, memory.ram);
      var n := if memory.extraSections.Some? && FirstClosing(updated).Some?
               then |memory.extraSections.value| else 0;
      |MemoryX(lines, mcuFamily, memory, deny)| == |DeleteLines(lines, deny)| + n
  {
  }
}
