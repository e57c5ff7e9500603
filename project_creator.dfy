/** `project_creator`: from a validated project configuration, the project
    directory and its sub-directories, the arguments handed to the file
    updaters for every core, each core's own Makefile, and the global
    Makefile that drives them all. The file system, `cargo generate`,
    `rustup` and the deletions are left out; what reaches them is recorded
    in the plan. */
module ProjectCreator {
  import opened Wrappers
  import opened Text
  import opened ProjectTypes
  import opened Utils
  import opened Makefile

  /** The values the script imports from its constants module:
      `DIRECTORIES` and `DEFAULT_DEBUGGER_CONFIGURATION`. */
  datatype Constants = Constants(directories: seq<string>, defaultDebugger: string)

  /** What the loop does for one core. `directory` is the normalised core
      name; `memory`, `openOcdHeader`, `installArch`, `cargoArch` and
      `debugger` are the arguments given to `modify_memory_x`,
      `update_openocd_cfg`, `rustup_add_target_arch` and
      `update_cargo_toml`; `globalRules` are the rules it adds to the
      global Makefile. */
  datatype CorePlan = CorePlan(directory: string, memory: MemoryConfig, openOcdHeader: string,
                               installArch: string, cargoArch: Value, debugger: Value,
                               globalRules: seq<Rule>)

  /** What the run decides: the project directory, the directories created
      in it, one plan per core, the `SUBDIRS` value and the final global
      Makefile. (The Makefile written in each core's directory is the same
      for every core and is returned beside the plan.) */
  datatype Plan = Plan(projectDirectory: string, directories: seq<string>, cores: seq<CorePlan>,
                       subdirs: string, makefile: string)

  /** The interface and target files every core's OpenOCD configuration
      is pointed at. */
  const InterfaceCfg: string := "stlink.cfg"
  const TargetCfg: string := "stm32h7x_dual_bank.cfg"

  /** The rules of every core's own Makefile, in the order written. */
  const CoreRules: seq<Rule> := [
    Rule("all", Table(Some(["clean", "build"]),
                      Many(["echo \"Cleaning...\"", "echo \"Building all targets\""]))),
    Rule("build", Plain(Many(["echo 'Building target'", "cargo build"]))),
    Rule("clean", Plain(Many(["echo \"Cleaning up\"", "cargo clean"])))
  ]

  // ---------------------------------------------------------------------
  // The decisions, as functions of the configuration
  // ---------------------------------------------------------------------

  /** A core's directory: `:` and `_` become `-`. */
  function CoreDirectory(core: string): string {
    Normalized(core, [":", "_"], "-")
  }

  /** The project directory: `:` becomes `_`. */
  function ProjectDirectory(name: string): string {
    Normalized(name, [":"], "_")
  }

  /** `user_defined_directories or []`. */
  function UserDirectories(v: Value): seq<string>
    requires OptionalStrList(v)
  {
    if !Truthy(v) then [] else seq(|v.items|, k requires 0 <= k < |v.items| => v.items[k].s)
  }

  /** The directories created in the project: the constant ones, then the
      user's, in order and with repetitions kept. */
  function ProjectDirectories(consts: Constants, v: Value): (r: seq<string>)
    requires OptionalStrList(v)
    ensures |r| == |consts.directories| + (if Truthy(v) then |v.items| else 0)
    ensures r[..|consts.directories|] == consts.directories
    ensures forall k :: |consts.directories| <= k < |r| ==> Str(r[k]) == v.items[k - |consts.directories|]
  {
    consts.directories + UserDirectories(v)
  }

  /** The core-level debugger choice as the script writes it: the walrus
      binds the test `debug_configuration is None`, so a core that sets its
      own option gets `False`. */
  function CoreDebugger(c: CoreConfig, consts: Constants): Value {
    if c.debugConfiguration.Null? then Str(consts.defaultDebugger) else Bool(false)
  }

  /** The debugger option handed to `update_cargo_toml`. */
  function DebuggerOption(p: ProjectConfig, c: CoreConfig, consts: Constants): Value {
    if p.debugConfiguration.Null? then CoreDebugger(c, consts) else p.debugConfiguration
  }

  /** The architecture handed to `update_cargo_toml`. */
  function CargoArch(p: ProjectConfig, c: CoreConfig): Value {
    if p.arch.Null? then Str(c.arch) else p.arch
  }

  /** The three rules a core adds to the global Makefile. */
  function GlobalRules(d: string): seq<Rule> {
    [Rule("build-" + d, Plain(One("$(MAKE) -C " + d + " build"))),
     Rule("clean-" + d, Plain(One("$(MAKE) -C " + d + " clean"))),
     Rule("all-" + d, Plain(One("$(MAKE) -C " + d + " all")))]
  }

  /** `SUBDIRS`: every core directory followed by one space. */
  function Subdirs(dirs: seq<string>): string {
    if dirs == [] then "" else dirs[0] + " " + Subdirs(dirs[1..])
  }

  function SubdirsVariable(dirs: seq<string>): Variable {
    Variable("SUBDIRS", Direct(Subdirs(dirs)))
  }

  /** The names of a core's three global rules, as the loop collects them. */
  function RuleTriple(d: string): (string, string, string) {
    ("build-" + d, "clean-" + d, "all-" + d)
  }

  function RuleTriples(dirs: seq<string>): seq<(string, string, string)> {
    seq(|dirs|, k requires 0 <= k < |dirs| => RuleTriple(dirs[k]))
  }

  /** Every directory with the prefix in front. */
  function Prefixed(prefix: string, dirs: seq<string>): seq<string> {
    seq(|dirs|, k requires 0 <= k < |dirs| => prefix + dirs[k])
  }

  /** The aggregate rules, each depending on its per-core rules in core
      order. */
  function AggregateRules(dirs: seq<string>): seq<Rule> {
    [Rule("build", Table(Some(Prefixed("build-", dirs)), One("echo 'building for both cores'"))),
     Rule("clean", Table(Some(Prefixed("clean-", dirs)), One("echo 'cleaning for both cores'"))),
     Rule("all", Table(Some(Prefixed("all-", dirs)), One("echo 'building and cleaning for both cores'")))]
  }

  /** The global Makefile once every core has appended its rules. */
  function AfterCores(content: string, dirs: seq<string>): string {
    if dirs == [] then content
    else Appended(AfterCores(content, dirs[..|dirs| - 1]), GlobalRules(dirs[|dirs| - 1]))
  }

  /** The global Makefile at the end: the cores' rules appended, `SUBDIRS`
      prepended, the aggregate rules appended. */
  function GlobalMakefile(initial: string, dirs: seq<string>): string {
    Appended(Declarations([SubdirsVariable(dirs)]) + "\n" + AfterCores(initial, dirs),
             AggregateRules(dirs))
  }

  function CorePlanOf(p: ProjectConfig, c: CoreConfig, consts: Constants): CorePlan {
    var d := CoreDirectory(c.core);
    CorePlan(d, c.memory, "Configuration for " + p.mcuFamily, c.arch, CargoArch(p, c),
             DebuggerOption(p, c, consts), GlobalRules(d))
  }

  function CorePlans(p: ProjectConfig, consts: Constants): seq<CorePlan> {
    seq(|p.config|, k requires 0 <= k < |p.config| => CorePlanOf(p, p.config[k], consts))
  }

  function CoreDirectories(p: ProjectConfig): seq<string> {
    seq(|p.config|, k requires 0 <= k < |p.config| => CoreDirectory(p.config[k].core))
  }

  /** The whole run. `existing` is the global Makefile if one is already
      there; `create_file` leaves it alone, and otherwise creates it
      empty. */
  function PlanOf(projectName: string, p: ProjectConfig, consts: Constants, existing: Option<string>): Plan
    requires OptionalStrList(p.directories)
  {
    var dirs := CoreDirectories(p);
    Plan(ProjectDirectory(projectName), ProjectDirectories(consts, p.directories),
         CorePlans(p, consts),
         Subdirs(dirs), GlobalMakefile(existing.GetOr(""), dirs))
  }

  // ---------------------------------------------------------------------
  // The script
  // ---------------------------------------------------------------------

  /** `project_creator`: the directory list and names, the core Makefile,
      the per-core loop, then the finishing of the global Makefile. */
  method ProjectCreatorRun(projectName: string, p: ProjectConfig, consts: Constants,
                           existing: Option<string>) returns (plan: Plan, coreMakefile: string)
    requires OptionalStrList(p.directories)
    ensures plan == PlanOf(projectName, p, consts, existing)
    ensures coreMakefile == Rendered(CoreRules)
  {
    var projectDirs := consts.directories + UserDirectories(p.directories);
    var projectDir := NormalizeString(projectName, [":"], "_");
    coreMakefile := CreateMakefile(CoreRules);
    var cores, coresRules, includeMakefileVar, makefile := PlanAllCores(p, consts, existing.GetOr(""));
    var final := FinishGlobalMakefile(makefile, includeMakefileVar, coresRules, CoreDirectories(p));
    plan := Plan(projectDir, projectDirs, cores, includeMakefileVar, final);
  }

  /** The per-core loop: it accumulates the core plans, the per-core rule
      names and `SUBDIRS`, and appends each core's rules to the global
      Makefile as it goes. */
  method PlanAllCores(p: ProjectConfig, consts: Constants, initial: string)
    returns (cores: seq<CorePlan>, coresRules: seq<(string, string, string)>,
             includeMakefileVar: string, makefile: string)
    ensures cores == CorePlans(p, consts)
    ensures var dirs := CoreDirectories(p);
      && coresRules == RuleTriples(dirs)
      && includeMakefileVar == Subdirs(dirs)
      && makefile == AfterCores(initial, dirs)
  {
    makefile := initial;
    includeMakefileVar := "";
    coresRules := [];
    cores := [];
    ghost var dirs := CoreDirectories(p);
    for i := 0 to |p.config|
      invariant cores == CorePlans(p, consts)[..i]
      invariant coresRules == RuleTriples(dirs)[..i]
      invariant includeMakefileVar == Subdirs(dirs[..i])
      invariant makefile == AfterCores(initial, dirs[..i])
    {
      var config := p.config[i];
      var core, ruleNames, updated := PlanCore(p, config, consts, makefile);
      SubdirsSnoc(dirs, i);
      AfterCoresSnoc(initial, dirs, i);
      CorePlansSnoc(p, consts, i);
      RuleTriplesSnoc(dirs, i);
      includeMakefileVar := includeMakefileVar + core.directory + " ";
      makefile := updated;
      coresRules := coresRules + [ruleNames];
      cores := cores + [core];
    }
    assert dirs[..|p.config|] == dirs;
    assert CorePlans(p, consts)[..|p.config|] == CorePlans(p, consts);
    assert RuleTriples(dirs)[..|p.config|] == RuleTriples(dirs);
  }

  /** After the loop: `SUBDIRS` is prepended, then the aggregate rules,
      whose dependencies are the collected per-core rule names, are
      appended. */
  method FinishGlobalMakefile(makefile: string, includeMakefileVar: string,
                              coresRules: seq<(string, string, string)>, ghost dirs: seq<string>)
    returns (final: string)
    requires includeMakefileVar == Subdirs(dirs) && coresRules == RuleTriples(dirs)
    ensures final == Appended(Declarations([SubdirsVariable(dirs)]) + "\n" + makefile, AggregateRules(dirs))
  {
    var prepended := PrependVariablesToMakefile(Some(makefile),
                                                [Variable("SUBDIRS", Direct(includeMakefileVar))]);
    var buildDeps := seq(|coresRules|, k requires 0 <= k < |coresRules| => coresRules[k].0);
    var cleanDeps := seq(|coresRules|, k requires 0 <= k < |coresRules| => coresRules[k].1);
    var allDeps := seq(|coresRules|, k requires 0 <= k < |coresRules| => coresRules[k].2);
    var rules := [Rule("build", Table(Some(buildDeps), One("echo 'building for both cores'"))),
                  Rule("clean", Table(Some(cleanDeps), One("echo 'cleaning for both cores'"))),
                  Rule("all", Table(Some(allDeps), One("echo 'building and cleaning for both cores'")))];
    assert buildDeps == Prefixed("build-", dirs);
    assert cleanDeps == Prefixed("clean-", dirs);
    assert allDeps == Prefixed("all-", dirs);
    assert rules == AggregateRules(dirs);
    var appended := AppendRulesToMakefile(prepended, rules);
    final := appended.value;
  }

  /** One turn of the loop: the core's plan, its global rule names, and
      the global Makefile once its rules are appended. */
  method PlanCore(p: ProjectConfig, config: CoreConfig, consts: Constants, globalMakefile: string)
    returns (core: CorePlan, ruleNames: (string, string, string), updated: string)
    ensures core == CorePlanOf(p, config, consts)
    ensures updated == Appended(globalMakefile, GlobalRules(CoreDirectory(config.core)))
    ensures ruleNames == RuleTriple(CoreDirectory(config.core))
  {
    var name := NormalizeString(config.core, [":", "_"], "-");
    var coreDebuggerOption := if config.debugConfiguration.Null? then Str(consts.defaultDebugger)
                              else Bool(false);
    var coreArch := if !p.arch.Null? then p.arch else Str(config.arch);
    var debuggerOption := if p.debugConfiguration.Null? then coreDebuggerOption
                          else p.debugConfiguration;
    var buildCoreRule, cleanCoreRule, allCoreRule := "build-" + name, "clean-" + name, "all-" + name;
    var globalRules := [Rule(buildCoreRule, Plain(One("$(MAKE) -C " + name + " build"))),
                        Rule(cleanCoreRule, Plain(One("$(MAKE) -C " + name + " clean"))),
                        Rule(allCoreRule, Plain(One("$(MAKE) -C " + name + " all")))];
    var appended := AppendRulesToMakefile(Some(globalMakefile), globalRules);
    core := CorePlan(name, config.memory, "Configuration for " + p.mcuFamily, config.arch,
                     coreArch, debuggerOption, globalRules);
    ruleNames := (buildCoreRule, cleanCoreRule, allCoreRule);
    updated := appended.value;
  }

  // ---------------------------------------------------------------------
  // Properties
  // ---------------------------------------------------------------------

  lemma CorePlansSnoc(p: ProjectConfig, consts: Constants, i: nat)
    requires i < |p.config|
    ensures CorePlans(p, consts)[..i + 1] == CorePlans(p, consts)[..i] + [CorePlanOf(p, p.config[i], consts)]
  {
    var all := CorePlans(p, consts);
    assert all[..i + 1] == all[..i] + [all[i]];
  }

  lemma RuleTriplesSnoc(dirs: seq<string>, i: nat)
    requires i < |dirs|
    ensures RuleTriples(dirs)[..i + 1] == RuleTriples(dirs)[..i] + [RuleTriple(dirs[i])]
  {
    var all := RuleTriples(dirs);
    assert all[..i + 1] == all[..i] + [all[i]];
  }

  lemma AfterCoresSnoc(initial: string, dirs: seq<string>, i: nat)
    requires i < |dirs|
    ensures AfterCores(initial, dirs[..i + 1]) == Appended(AfterCores(initial, dirs[..i]), GlobalRules(dirs[i]))
  {
    assert dirs[..i + 1][..i] == dirs[..i];
  }

  lemma {:induction false} SubdirsAppend(a: seq<string>, b: seq<string>)
    ensures Subdirs(a + b) == Subdirs(a) + Subdirs(b)
  {
    if a == [] {
      assert a + b == b;
    } else {
      assert (a + b)[1..] == a[1..] + b;
      SubdirsAppend(a[1..], b);
    }
  }

  lemma SubdirsSnoc(dirs: seq<string>, i: nat)
    requires i < |dirs|
    ensures Subdirs(dirs[..i + 1]) == Subdirs(dirs[..i]) + dirs[i] + " "
  {
    assert dirs[..i + 1] == dirs[..i] + [dirs[i]];
    SubdirsAppend(dirs[..i], [dirs[i]]);
    assert [dirs[i]][1..] == [];
  }

  /** `SUBDIRS` is the core directories joined by spaces, with one more
      space at the end. */
  lemma {:induction false} SubdirsJoin(dirs: seq<string>)
    requires dirs != []
    ensures Subdirs(dirs) == Join(" ", dirs) + " "
  {
    if |dirs| == 1 {
      assert dirs[1..] == [];
    } else {
      SubdirsJoin(dirs[1..]);
    }
  }

  /** A name with no whitespace in it. */
  predicate NoSpace(s: string) {
    forall k :: 0 <= k < |s| ==> !IsSpace(s[k])
  }

  /** A core directory as the Makefile needs it: no whitespace and no `:`. */
  predicate CleanName(d: string) {
    NoSpace(d) && ':' !in d
  }

  /** A core directory keeps the name's length and characters, except that
      every `:` and `_` becomes `-`; so none is left, and a name without
      whitespace gives a clean directory. */
  lemma CoreDirectoryChars(core: string)
    ensures |CoreDirectory(core)| == |core|
    ensures forall k :: 0 <= k < |core| ==>
              CoreDirectory(core)[k] == (if core[k] == ':' || core[k] == '_' then '-' else core[k])
    ensures ':' !in CoreDirectory(core) && '_' !in CoreDirectory(core)
    ensures NoSpace(core) ==> CleanName(CoreDirectory(core))
  {
    var chars := [":", "_"];
    assert SingleChars(chars);
    assert forall c :: Listed(c, chars) <==> c == ':' || c == '_' by {
      forall c ensures Listed(c, chars) <==> c == ':' || c == '_' {
        assert [c] == chars[0] <==> c == ':';
        assert [c] == chars[1] <==> c == '_';
      }
    }
    NormalizedPointwise(core, chars, '-');
  }

  /** The project directory keeps the name's length and characters, except
      that every `:` becomes `_`. */
  lemma ProjectDirectoryChars(name: string)
    ensures |ProjectDirectory(name)| == |name|
    ensures forall k :: 0 <= k < |name| ==>
              ProjectDirectory(name)[k] == (if name[k] == ':' then '_' else name[k])
    ensures ':' !in ProjectDirectory(name)
  {
    var chars := [":"];
    assert SingleChars(chars);
    assert forall c :: Listed(c, chars) <==> c == ':' by {
      forall c ensures Listed(c, chars) <==> c == ':' {
        assert [c] == chars[0] <==> c == ':';
      }
    }
    NormalizedPointwise(name, chars, '_');
  }

  /** `prefix + d` is a name the Makefile reader recognises. */
  lemma PrefixedPlain(prefix: string, d: string)
    requires prefix != [] && NoSpace(prefix) && ':' !in prefix && CleanName(d)
    ensures PlainName(prefix + d)
  {
    var n := prefix + d;
    assert forall k :: 0 <= k < |n| ==> n[k] == if k < |prefix| then prefix[k] else d[k - |prefix|];
    assert NoSpace(n);
    assert LStrip(n) == n;
    assert RStrip(n) == n;
  }

  lemma GlobalRulesPlain(d: string)
    requires CleanName(d)
    ensures forall j :: 0 <= j < 3 ==> PlainName(GlobalRules(d)[j].name)
  {
    PrefixedPlain("build-", d);
    PrefixedPlain("clean-", d);
    PrefixedPlain("all-", d);
  }

  /** Each core's appends keep the names already in the global Makefile. */
  lemma {:induction false} AfterCoresKeepNames(initial: string, dirs: seq<string>)
    ensures RuleNames(initial) <= RuleNames(AfterCores(initial, dirs))
  {
    if dirs != [] {
      var pre := dirs[..|dirs| - 1];
      AfterCoresKeepNames(initial, pre);
      AppendedKeepsNames(AfterCores(initial, pre), GlobalRules(dirs[|dirs| - 1]));
    }
  }

  /** After the `k`th core's appends, the global Makefile names its `j`th
      rule, and the later cores' appends keep it. */
  lemma {:induction false} AfterCoresNameAt(initial: string, dirs: seq<string>, k: nat, j: nat)
    requires k < |dirs| && j < 3 && CleanName(dirs[k])
    ensures GlobalRules(dirs[k])[j].name in RuleNames(AfterCores(initial, dirs))
  {
    var pre := dirs[..|dirs| - 1];
    var last := dirs[|dirs| - 1];
    if k == |dirs| - 1 {
      GlobalRulesPlain(last);
      AppendedNames(AfterCores(initial, pre), GlobalRules(last));
    } else {
      assert pre[k] == dirs[k];
      AfterCoresNameAt(initial, pre, k, j);
      AppendedKeepsNames(AfterCores(initial, pre), GlobalRules(last));
    }
  }

  /** Each core's appends keep the names already in the global Makefile and
      leave all three of its rules there. */
  lemma AfterCoresNames(initial: string, dirs: seq<string>)
    requires forall k :: 0 <= k < |dirs| ==> CleanName(dirs[k])
    ensures RuleNames(initial) <= RuleNames(AfterCores(initial, dirs))
    ensures forall k, j :: 0 <= k < |dirs| && 0 <= j < 3 ==>
              GlobalRules(dirs[k])[j].name in RuleNames(AfterCores(initial, dirs))
  {
    AfterCoresKeepNames(initial, dirs);
    forall k, j | 0 <= k < |dirs| && 0 <= j < 3
      ensures GlobalRules(dirs[k])[j].name in RuleNames(AfterCores(initial, dirs))
    {
      AfterCoresNameAt(initial, dirs, k, j);
    }
  }

  lemma {:induction false} SubdirsNoLineBreak(dirs: seq<string>)
    requires forall k :: 0 <= k < |dirs| ==> CleanName(dirs[k])
    ensures NoLineBreak(Subdirs(dirs))
  {
    if dirs != [] {
      SubdirsNoLineBreak(dirs[1..]);
      var rest := Subdirs(dirs[1..]);
      var s := dirs[0] + " " + rest;
      assert forall k :: 0 <= k < |s| ==>
        s[k] == if k < |dirs[0]| then dirs[0][k] else if k == |dirs[0]| then ' ' else rest[k - |dirs[0]| - 1];
    }
  }

  /** A name with nothing to strip is left alone by `strip`. */
  lemma StripNoSpace(n: string)
    requires NoSpace(n)
    ensures Strip(n) == n
  {
    assert LStrip(n) == n;
  }

  /** The names `build`, `clean` and `all` are recognised too. (The name is
      a parameter so that `strip` is not evaluated on a literal.) */
  lemma TargetNamePlain(n: string)
    requires n == "build" || n == "clean" || n == "all"
    ensures PlainName(n)
  {
    assert NoSpace(n);
    StripNoSpace(n);
  }

  /** The `SUBDIRS` declaration is written on one line. */
  lemma SubdirsOneLine(dirs: seq<string>)
    requires forall k :: 0 <= k < |dirs| ==> CleanName(dirs[k])
    ensures OneLine(SubdirsVariable(dirs))
  {
    SubdirsNoLineBreak(dirs);
    var line := DeclarationLine(SubdirsVariable(dirs));
    var sub := Subdirs(dirs);
    assert line == "SUBDIRS := " + sub;
    assert forall k :: 0 <= k < |line| ==> line[k] == if k < 11 then "SUBDIRS := "[k] else sub[k - 11];
  }

  /** The global Makefile at the end opens with the `SUBDIRS` line and a
      blank line. */
  lemma GlobalMakefileHead(initial: string, dirs: seq<string>)
    ensures StartsWith(GlobalMakefile(initial, dirs), "SUBDIRS := " + Subdirs(dirs) + "\n\n")
  {
    var d := Declarations([SubdirsVariable(dirs)]) + "\n";
    var x := d + AfterCores(initial, dirs);
    SubdirsHead(dirs);
    AppendedKeepsContent(x, AggregateRules(dirs));
    HeadKept(d, AfterCores(initial, dirs), "SUBDIRS := " + Subdirs(dirs) + "\n\n",
             GlobalMakefile(initial, dirs));
  }

  /** The `SUBDIRS` declaration and the blank line after it. */
  lemma SubdirsHead(dirs: seq<string>)
    ensures Declarations([SubdirsVariable(dirs)]) + "\n" == "SUBDIRS := " + Subdirs(dirs) + "\n\n"
  {
    var v := SubdirsVariable(dirs);
    assert [v][1..] == [];
    assert Declarations([v]) == Declaration(v) + Declarations([]);
  }

  /** A text that starts with `a + b` starts with anything equal to `a`. */
  lemma HeadKept(a: string, b: string, head: string, s: string)
    requires a == head && StartsWith(s, a + b)
    ensures StartsWith(s, head)
  {
    StartsWithConcat(a, b);
    StartsWithTrans(s, a + b, a);
  }

  /** The global Makefile at the end keeps every rule name it had before
      the run and names every core's three rules and the three aggregate
      rules. */
  lemma GlobalMakefileNames(initial: string, dirs: seq<string>)
    requires forall k :: 0 <= k < |dirs| ==> CleanName(dirs[k])
    ensures RuleNames(initial) <= RuleNames(GlobalMakefile(initial, dirs))
    ensures forall k, j :: 0 <= k < |dirs| && 0 <= j < 3 ==>
              GlobalRules(dirs[k])[j].name in RuleNames(GlobalMakefile(initial, dirs))
    ensures forall j :: 0 <= j < 3 ==> AggregateRules(dirs)[j].name in RuleNames(GlobalMakefile(initial, dirs))
  {
    var v := SubdirsVariable(dirs);
    var mid := AfterCores(initial, dirs);
    AfterCoresNames(initial, dirs);
    SubdirsOneLine(dirs);
    PrependedNames([v], mid);
    forall j | 0 <= j < 3 ensures PlainName(AggregateRules(dirs)[j].name) {
      TargetNamePlain(AggregateRules(dirs)[j].name);
    }
    AppendedNames(Declarations([v]) + "\n" + mid, AggregateRules(dirs));
  }

  /** What one core receives: the target installer gets the core's own
      `arch`, the cargo configuration the project-level `arch` when it is
      set; the debugger option is the project-level one when set, else the
      default when the core sets none, else `False`; and the core lives in
      its normalised directory, whose three global rules name it. */
  lemma CoreSettings(p: ProjectConfig, consts: Constants, k: nat)
    requires k < |p.config|
    ensures var c := p.config[k]; var plan := CorePlans(p, consts)[k];
      && plan.installArch == c.arch
      && plan.cargoArch == (if p.arch.Null? then Str(c.arch) else p.arch)
      && (!p.debugConfiguration.Null? ==> plan.debugger == p.debugConfiguration)
      && (p.debugConfiguration.Null? && c.debugConfiguration.Null? ==>
            plan.debugger == Str(consts.defaultDebugger))
      && (p.debugConfiguration.Null? && !c.debugConfiguration.Null? ==> plan.debugger == Bool(false))
      && plan.memory == c.memory
      && plan.openOcdHeader == "Configuration for " + p.mcuFamily
      && |plan.directory| == |c.core|
      && (forall i :: 0 <= i < |c.core| ==>
            plan.directory[i] == (if c.core[i] == ':' || c.core[i] == '_' then '-' else c.core[i]))
      && plan.globalRules[0].name == "build-" + plan.directory
      && plan.globalRules[1].name == "clean-" + plan.directory
      && plan.globalRules[2].name == "all-" + plan.directory
  {
    CoreDirectoryChars(p.config[k].core);
  }

  /** The layout of the run: one plan per core; no `:` in the project
      directory and neither `:` nor `_` in a core directory; `SUBDIRS` is
      the core directories joined by spaces plus a trailing space; and each
      aggregate rule depends on the matching per-core rule of every core, in
      core order. */
  lemma PlanLayout(projectName: string, p: ProjectConfig, consts: Constants, existing: Option<string>)
    requires OptionalStrList(p.directories)
    ensures var plan := PlanOf(projectName, p, consts, existing);
      && |plan.cores| == |p.config|
      && ':' !in plan.projectDirectory
      && (forall k :: 0 <= k < |plan.cores| ==>
            ':' !in plan.cores[k].directory && '_' !in plan.cores[k].directory)
      && (p.config != [] ==> plan.subdirs == Join(" ", CoreDirectories(p)) + " ")
      && (forall j :: 0 <= j < 3 ==>
            var deps := AggregateRules(CoreDirectories(p))[j].details.dependencies;
            && deps.Some? && |deps.value| == |plan.cores|
            && forall k :: 0 <= k < |plan.cores| ==> deps.value[k] == plan.cores[k].globalRules[j].name)
  {
    ProjectDirectoryChars(projectName);
    CoreDirectoriesClean(p);
    if p.config != [] {
      SubdirsJoin(CoreDirectories(p));
    }
    AggregateDependencies(p, consts);
    assert PlanOf(projectName, p, consts, existing).cores == CorePlans(p, consts);
  }

  lemma CoreDirectoriesClean(p: ProjectConfig)
    ensures forall k :: 0 <= k < |p.config| ==>
              ':' !in CoreDirectories(p)[k] && '_' !in CoreDirectories(p)[k]
              && (NoSpace(p.config[k].core) ==> CleanName(CoreDirectories(p)[k]))
  {
    forall k | 0 <= k < |p.config|
      ensures ':' !in CoreDirectories(p)[k] && '_' !in CoreDirectories(p)[k]
      ensures NoSpace(p.config[k].core) ==> CleanName(CoreDirectories(p)[k])
    {
      CoreDirectoryChars(p.config[k].core);
    }
  }

  lemma AggregateDependencies(p: ProjectConfig, consts: Constants)
    ensures forall j :: 0 <= j < 3 ==>
      var deps := AggregateRules(CoreDirectories(p))[j].details.dependencies;
      && deps.Some? && |deps.value| == |CorePlans(p, consts)|
      && forall k :: 0 <= k < |CorePlans(p, consts)| ==>
           deps.value[k] == CorePlans(p, consts)[k].globalRules[j].name
  {
  }

  /** The global Makefile the run leaves: it opens with the `SUBDIRS` line
      and a blank line, keeps every rule name it had, and names every core's
      three rules and the three aggregate rules, provided the core names
      hold no whitespace. */
  lemma PlanMakefile(projectName: string, p: ProjectConfig, consts: Constants, existing: Option<string>)
    requires OptionalStrList(p.directories)
    requires forall k :: 0 <= k < |p.config| ==> NoSpace(p.config[k].core)
    ensures var plan := PlanOf(projectName, p, consts, existing);
      && StartsWith(plan.makefile, "SUBDIRS := " + plan.subdirs + "\n\n")
      && RuleNames(existing.GetOr("")) <= RuleNames(plan.makefile)
      && (forall k, j :: 0 <= k < |plan.cores| && 0 <= j < 3 ==>
            plan.cores[k].globalRules[j].name in RuleNames(plan.makefile))
      && (forall j :: 0 <= j < 3 ==> AggregateRules(CoreDirectories(p))[j].name in RuleNames(plan.makefile))
  {
    var dirs := CoreDirectories(p);
    var plan := PlanOf(projectName, p, consts, existing);
    CoreDirectoriesClean(p);
    assert forall k :: 0 <= k < |dirs| ==> plan.cores[k].globalRules == GlobalRules(dirs[k]);
    GlobalMakefileHead(existing.GetOr(""), dirs);
    GlobalMakefileNames(existing.GetOr(""), dirs);
  }

  /** A core's own Makefile names each of its rules, and appending those
      rules to it again would write nothing. This holds for any rule table
      whose names are those of `CoreRules`: `build`, `clean` and `all`. */
  lemma CoreMakefileRules(rules: seq<Rule>)
    requires forall j :: 0 <= j < |rules| ==>
               rules[j].name == "build" || rules[j].name == "clean" || rules[j].name == "all"
    ensures forall j :: 0 <= j < |rules| ==> rules[j].name in RuleNames(Rendered(rules))
    ensures Appended(Rendered(rules), rules) == Rendered(rules)
  {
    forall j | 0 <= j < |rules| ensures PlainName(rules[j].name) {
      TargetNamePlain(rules[j].name);
    }
    RenderedNames(rules);
    AppendAfterCreate(rules);
  }

  /** The core rule table has exactly the names `all`, `build` and `clean`. */
  lemma CoreRulesNames(rules: seq<Rule>)
    requires rules == CoreRules
    ensures |rules| == 3
    ensures forall j :: 0 <= j < |rules| ==>
              rules[j].name == "build" || rules[j].name == "clean" || rules[j].name == "all"
  {
  }
}
