/** The `.cargo/config.toml` rewriter: one pass over the lines that
    uncomments the chosen runner and makes sure the `[build]` section ends
    up with exactly the wanted `target = "<arch>"` line, commenting out any
    other target line before it. */
module UpdateCargoToml {
  import opened Wrappers
  import opened Text

  /** The generated target line. */
  function TargetLine(arch: string, mcuFamily: string): string {
    "target = \"" + arch + "\" # " + mcuFamily + "\n"
  }

  /** What may follow the quoted arch: `\s*(#.*)?$`, where `.` stops at a
      newline and `$` also matches before a final newline. */
  predicate CommentTail(t: string) {
    var u := LStrip(t);
    || u == []
    || (u[0] == '#' && ('\n' !in u[1..] || ('\n' !in u[1..|u| - 1] && u[|u| - 1] == '\n')))
  }

  /** A commented-out target line for `arch`:
      `^\s*#\s*target\s*=\s*"<arch>"\s*(#.*)?$`. Every `\s*` is followed by
      a character that is not whitespace, so matching it greedily decides
      the match. */
  predicate ArchLine(line: string, arch: string) {
    var s1 := LStrip(line);
    |s1| > 0 && s1[0] == '#' &&
    var s2 := LStrip(s1[1..]);
    StartsWith(s2, "target") &&
    var s3 := LStrip(s2[6..]);
    |s3| > 0 && s3[0] == '=' &&
    var s4 := LStrip(s3[1..]);
    var quoted := "\"" + arch + "\"";
    StartsWith(s4, quoted) && CommentTail(s4[|quoted|..])
  }

  /** A `runner =` line for the debugger that is commented out. */
  predicate CommentedRunner(line: string, debugger: string) {
    Contains(line, "runner =") && Contains(line, debugger) && StartsWith(Strip(line), "#")
  }

  /** The runner step: a commented runner line loses its leading `#`s and
      then its leading whitespace; other lines are kept. */
  function Runner(line: string, debugger: string): string {
    if CommentedRunner(line, debugger) then LStrip(LStripChar(line, '#')) else line
  }

  /** The loop's three flags and the lines written so far. */
  datatype CargoState = CargoState(build: bool, archExists: bool, correct: bool, out: seq<string>)

  /** The state before the first line. */
  const Start := CargoState(false, false, false, [])

  /** One iteration of the loop. */
  function Step(st: CargoState, raw: string, arch: string, mcuFamily: string, debugger: string): CargoState {
    var line := Runner(raw, debugger);
    if Contains(line, "[build]") then st.(build := true, out := st.out + [line])
    else if !st.build then st.(out := st.out + [line])
    else if ArchLine(line, arch) then
      CargoState(st.build, true, true, st.out + [TargetLine(arch, mcuFamily)])
    else if Contains(line, "target =") && !st.correct then
      st.(out := st.out + [if StartsWith(Strip(line), "#") then line else "# " + line])
    else if StartsWith(Strip(line), "[") && !st.correct then
      if !st.archExists then
        CargoState(false, st.archExists, true, st.out + [TargetLine(arch, mcuFamily), line])
      else st.(build := false, out := st.out + [line])
    else st.(out := st.out + [line])
  }

  /** The state after the loop has seen `lines`. */
  function Run(lines: seq<string>, arch: string, mcuFamily: string, debugger: string): CargoState {
    if lines == [] then Start
    else Step(Run(lines[..|lines| - 1], arch, mcuFamily, debugger), lines[|lines| - 1], arch, mcuFamily, debugger)
  }

  /** The new file: the loop's output, and the target line at the end when
      the file ended inside `[build]` without it. */
  function UpdatedCargo(lines: seq<string>, arch: string, mcuFamily: string, debugger: string): seq<string> {
    var st := Run(lines, arch, mcuFamily, debugger);
    if st.build && !st.correct && !st.archExists then st.out + [TargetLine(arch, mcuFamily)]
    else st.out
  }

  /** One pass of the loop body of `update_cargo_toml`: the three flags and
      the new lines before and after handling `raw`. */
  method UpdateLine(buildSectionFound: bool, archAlreadyExists: bool, correctArchSet: bool,
                    newLines: seq<string>, raw: string, arch: string, mcuFamily: string, debugger: string)
    returns (build: bool, archExists: bool, correct: bool, out: seq<string>)
    ensures CargoState(build, archExists, correct, out)
            == Step(CargoState(buildSectionFound, archAlreadyExists, correctArchSet, newLines),
                    raw, arch, mcuFamily, debugger)
  {
    build, archExists, correct, out := buildSectionFound, archAlreadyExists, correctArchSet, newLines;
    var line := raw;
    if Contains(line, "runner =") && Contains(line, debugger) && StartsWith(Strip(line), "#") {
      line := LStrip(LStripChar(line, '#'));
    }
    if Contains(line, "[build]") {
      build := true;
    } else if build {
      if ArchLine(line, arch) {
        line := TargetLine(arch, mcuFamily);
        correct := true;
        archExists := true;
      } else if Contains(line, "target =") && !correct {
        line := if !StartsWith(Strip(line), "#") then "# " + line else line;
      } else if StartsWith(Strip(line), "[") && !correct {
        if !archExists {
          out := out + [TargetLine(arch, mcuFamily)];
          correct := true;
        }
        build := false;
      }
    }
    out := out + [line];
  }

  /** `update_cargo_toml` on the file's lines; `None` is an absent file,
      for which nothing is written. */
  method UpdateCargoTomlFile(file: Option<seq<string>>, arch: string, mcuFamily: string, debugger: string)
    returns (r: Option<seq<string>>)
    ensures file.None? ==> r.None?
    ensures file.Some? ==> r == Some(UpdatedCargo(file.value, arch, mcuFamily, debugger))
  {
    if file.None? {
      return None;
    }
    var lines := file.value;
    var newLines: seq<string> := [];
    var buildSectionFound := false;
    var archAlreadyExists := false;
    var correctArchSet := false;
    var i := 0;
    while i < |lines|
      invariant 0 <= i <= |lines|
      invariant CargoState(buildSectionFound, archAlreadyExists, correctArchSet, newLines)
                == Run(lines[..i], arch, mcuFamily, debugger)
    {
      assert lines[..i + 1][..i] == lines[..i];
      buildSectionFound, archAlreadyExists, correctArchSet, newLines :=
        UpdateLine(buildSectionFound, archAlreadyExists, correctArchSet, newLines, lines[i],
                   arch, mcuFamily, debugger);
      i := i + 1;
    }
    assert lines[..i] == lines;
    if buildSectionFound && !correctArchSet && !archAlreadyExists {
      newLines := newLines + [TargetLine(arch, mcuFamily)];
    }
    r := Some(newLines);
  }

  // ---------------------------------------------------------------------
  // Properties
  // ---------------------------------------------------------------------

  /** Some line of `lines`, after the runner step, opens `[build]`. */
  predicate SeenBuild(lines: seq<string>, debugger: string) {
    lines != [] &&
    (SeenBuild(lines[..|lines| - 1], debugger) || Contains(Runner(lines[|lines| - 1], debugger), "[build]"))
  }

  lemma {:induction false} SeenBuildExists(lines: seq<string>, debugger: string)
    ensures SeenBuild(lines, debugger) <==>
              exists k :: 0 <= k < |lines| && Contains(Runner(lines[k], debugger), "[build]")
  {
    if lines != [] {
      var p := lines[..|lines| - 1];
      SeenBuildExists(p, debugger);
      assert forall k :: 0 <= k < |p| ==> p[k] == lines[k];
    }
  }

  /** What the loop keeps true: the output has one line per input line plus
      at most one inserted target line, and only once the target is set;
      `archExists` implies `correct`; a set target is in the output; and
      once `[build]` was seen, either the section is still open or the
      target is set. */
  predicate Invariant(st: CargoState, n: nat, seen: bool, target: string) {
    && (|st.out| == n || (|st.out| == n + 1 && st.correct))
    && (st.archExists ==> st.correct)
    && (st.correct ==> target in st.out)
    && (seen ==> st.build || st.correct)
  }

  lemma StepInvariant(st: CargoState, n: nat, seen: bool, raw: string,
                      arch: string, mcuFamily: string, debugger: string)
    requires Invariant(st, n, seen, TargetLine(arch, mcuFamily))
    ensures Invariant(Step(st, raw, arch, mcuFamily, debugger), n + 1,
                      seen || Contains(Runner(raw, debugger), "[build]"), TargetLine(arch, mcuFamily))
  {
    var st' := Step(st, raw, arch, mcuFamily, debugger);
    assert st'.out[..|st.out|] == st.out;
  }

  lemma {:induction false} RunInvariant(lines: seq<string>, arch: string, mcuFamily: string, debugger: string)
    ensures Invariant(Run(lines, arch, mcuFamily, debugger), |lines|, SeenBuild(lines, debugger),
                      TargetLine(arch, mcuFamily))
  {
    if lines != [] {
      var p := lines[..|lines| - 1];
      RunInvariant(p, arch, mcuFamily, debugger);
      StepInvariant(Run(p, arch, mcuFamily, debugger), |p|, SeenBuild(p, debugger), lines[|lines| - 1],
                    arch, mcuFamily, debugger);
    }
  }

  /** The new file has as many lines as the old one or exactly one more:
      the target line is added at most once. */
  lemma CargoLength(lines: seq<string>, arch: string, mcuFamily: string, debugger: string)
    ensures var r := UpdatedCargo(lines, arch, mcuFamily, debugger);
      |r| == |lines| || |r| == |lines| + 1
  {
    RunInvariant(lines, arch, mcuFamily, debugger);
  }

  /** Once some line opens `[build]`, the new file has the target line. */
  lemma CargoHasTarget(lines: seq<string>, arch: string, mcuFamily: string, debugger: string)
    requires exists k :: 0 <= k < |lines| && Contains(Runner(lines[k], debugger), "[build]")
    ensures TargetLine(arch, mcuFamily) in UpdatedCargo(lines, arch, mcuFamily, debugger)
  {
    RunInvariant(lines, arch, mcuFamily, debugger);
    SeenBuildExists(lines, debugger);
  }

  /** Until a line opens `[build]`, the only change is the runner step. */
  lemma {:induction false} CargoBeforeBuild(lines: seq<string>, arch: string, mcuFamily: string, debugger: string)
    requires forall k :: 0 <= k < |lines| ==> !Contains(Runner(lines[k], debugger), "[build]")
    ensures Run(lines, arch, mcuFamily, debugger) == CargoState(false, false, false,
              seq(|lines|, k requires 0 <= k < |lines| => Runner(lines[k], debugger)))
    ensures UpdatedCargo(lines, arch, mcuFamily, debugger)
            == seq(|lines|, k requires 0 <= k < |lines| => Runner(lines[k], debugger))
  {
    if lines != [] {
      var p := lines[..|lines| - 1];
      assert forall k :: 0 <= k < |p| ==> p[k] == lines[k];
      CargoBeforeBuild(p, arch, mcuFamily, debugger);
    }
  }

  /** A matching commented target line inside `[build]` becomes the
      generated line; before the target is set, any other uncommented
      `target =` line there is commented out. */
  lemma CargoBuildSectionLine(st: CargoState, raw: string, arch: string, mcuFamily: string, debugger: string)
    requires st.build
    ensures var line := Runner(raw, debugger);
      var st' := Step(st, raw, arch, mcuFamily, debugger);
      && (!Contains(line, "[build]") && ArchLine(line, arch) ==>
            st'.out == st.out + [TargetLine(arch, mcuFamily)] && st'.correct)
      && (&& !Contains(line, "[build]") && !ArchLine(line, arch) && Contains(line, "target =")
          && !st.correct && !StartsWith(Strip(line), "#")
          ==> st'.out == st.out + ["# " + line])
  {
  }

  /** A section header inside `[build]`, met before the target is set,
      closes the section; when no matching target line was met, the
      target line is inserted just before the header and the target counts
      as set. */
  lemma CargoSectionHeader(st: CargoState, raw: string, arch: string, mcuFamily: string, debugger: string)
    requires st.build && !st.correct
    requires var line := Runner(raw, debugger);
      && !Contains(line, "[build]") && !ArchLine(line, arch) && !Contains(line, "target =")
      && StartsWith(Strip(line), "[")
    ensures var line := Runner(raw, debugger);
      var st' := Step(st, raw, arch, mcuFamily, debugger);
      && !st'.build && st'.archExists == st.archExists
      && (!st.archExists ==> st'.out == st.out + [TargetLine(arch, mcuFamily), line] && st'.correct)
      && (st.archExists ==> st'.out == st.out + [line] && !st'.correct)
  {
  }

  /** In the file itself, a matching target line always sets the target, so
      a header met in the open `[build]` section before the target is set
      always gets the target line inserted just before it. */
  lemma CargoHeaderInsertsTarget(lines: seq<string>, k: nat, arch: string, mcuFamily: string, debugger: string)
    requires k < |lines|
    requires var st := Run(lines[..k], arch, mcuFamily, debugger);
      st.build && !st.correct
    requires var line := Runner(lines[k], debugger);
      && !Contains(line, "[build]") && !ArchLine(line, arch) && !Contains(line, "target =")
      && StartsWith(Strip(line), "[")
    ensures var st := Run(lines[..k], arch, mcuFamily, debugger);
      var st' := Run(lines[..k + 1], arch, mcuFamily, debugger);
      && st'.out == st.out + [TargetLine(arch, mcuFamily), Runner(lines[k], debugger)]
      && !st'.build && st'.correct
  {
    RunInvariant(lines[..k], arch, mcuFamily, debugger);
    assert lines[..k + 1][..k] == lines[..k];
    CargoSectionHeader(Run(lines[..k], arch, mcuFamily, debugger), lines[k], arch, mcuFamily, debugger);
  }

  /** The generated line itself is not a commented target line, so a second
      run does not treat it as one. */
  lemma TargetLineNotCommented(arch: string, mcuFamily: string)
    ensures !ArchLine(TargetLine(arch, mcuFamily), arch)
  {
    var t := TargetLine(arch, mcuFamily);
    assert t[0] == 't';
    assert LStrip(t) == t;
  }
}
