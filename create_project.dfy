/** The JSON loader of `create_project.py`: it normalises the parsed JSON
    into the arguments of the configuration constructors (a dict where a
    list is expected counts as a one-element list, a missing key is
    `None`), and it checks the command line. Reading and parsing the file
    happen before this model starts. */
module CreateProject {
  import opened Wrappers
  import opened ProjectTypes

  /** How the loader fails on a value of the wrong shape: `.get` on something
      that is not a dict (`AttributeError`), or a `for` over something that
      cannot be iterated (`TypeError`). */
  datatype LoadError = NoGet | NotIterable

  /** The arguments the loader passes to `ExtraMemorySection(...)`. */
  datatype SectionArgs = SectionArgs(memoryType: Value, origin: Value, length: Value)

  /** The arguments it passes to `MemoryConfig(...)`. */
  datatype MemoryArgs = MemoryArgs(flash: Value, ram: Value, extraSections: Option<seq<SectionArgs>>)

  /** The arguments it passes to `CoreConfig(...)`: there is no
      `openocd_cfg` among them. */
  datatype CoreArgs = CoreArgs(core: Value, arch: Value, memory: Option<MemoryArgs>,
                               debugConfiguration: Value)

  /** The arguments it passes to `ProjectConfig(...)`. */
  datatype ProjectArgs = ProjectArgs(mcuFamily: Value, config: Option<seq<CoreArgs>>,
                                     directories: Value, arch: Value, debugConfiguration: Value)

  /** The elements `for x in v` visits once a dict has been put in a list: a
      list's items, or a string's characters. */
  function Iterate(v: Value): (r: Result<seq<Value>, LoadError>)
    ensures v.List? ==> r == Success(v.items)
    ensures r.Failure? <==> !(v.List? || v.Str?)
  {
    match v
    case List(items) => Success(items)
    case Str(s) => Success(seq(|s|, i requires 0 <= i < |s| => Str([s[i]])))
    case _ => Failure(NotIterable)
  }

  /** `[f(x) for x in items]`: the first element whose `f` fails ends the
      comprehension with that failure. */
  function MapAll<T>(items: seq<Value>, f: Value -> Result<T, LoadError>): (r: Result<seq<T>, LoadError>)
    ensures r.Success? ==> |r.value| == |items|
  {
    if items == [] then Success([])
    else
      var head := f(items[0]);
      if head.Failure? then Failure(head.error)
      else
        var tail := MapAll(items[1..], f);
        if tail.Failure? then tail else Success([head.value] + tail.value)
  }

  /** The comprehension succeeds exactly when every element succeeds, and
      then it holds every element's value in order. */
  lemma {:induction false} MapAllSuccess<T>(items: seq<Value>, f: Value -> Result<T, LoadError>)
    ensures MapAll(items, f).Success? <==> forall i :: 0 <= i < |items| ==> f(items[i]).Success?
    ensures MapAll(items, f).Success? ==>
              forall i :: 0 <= i < |items| ==> MapAll(items, f).value[i] == f(items[i]).value
  {
    if items != [] {
      MapAllSuccess(items[1..], f);
      assert forall i :: 1 <= i < |items| ==> items[i] == items[1..][i - 1];
    }
  }

  /** The dict-or-list normalisation shared by the section and core
      loaders: `None` stays `None`, a dict becomes a one-element list. */
  function Normalize<T>(v: Value, f: Value -> Result<T, LoadError>): Result<Option<seq<T>>, LoadError> {
    if v.Null? then Success(None)
    else
      var items := if v.Dict? then Success([v]) else Iterate(v);
      if items.Failure? then Failure(items.error)
      else
        var r := MapAll(items.value, f);
        if r.Failure? then Failure(r.error) else Success(Some(r.value))
  }

  /** One section dict's `.get` calls. */
  function SectionArgsOf(d: Value): Result<SectionArgs, LoadError> {
    if !d.Dict? then Failure(NoGet)
    else Success(SectionArgs(DictGet(d.entries, "memory_type"), DictGet(d.entries, "origin"),
                             DictGet(d.entries, "length")))
  }

  /** `create_extra_memory_sections`. */
  function CreateExtraMemorySections(v: Value): Result<Option<seq<SectionArgs>>, LoadError> {
    Normalize(v, SectionArgsOf)
  }

  /** `create_memory_config`. */
  function CreateMemoryConfig(v: Value): (r: Result<Option<MemoryArgs>, LoadError>)
    ensures v.Null? ==> r == Success(None)
    ensures !v.Null? && !v.Dict? ==> r == Failure(NoGet)
    ensures r.Success? && r.value.Some? ==>
      && v.Dict?
      && r.value.value.flash == DictGet(v.entries, "flash")
      && r.value.value.ram == DictGet(v.entries, "ram")
      && Success(r.value.value.extraSections)
           == CreateExtraMemorySections(DictGet(v.entries, "extra_sections"))
  {
    if v.Null? then Success(None)
    else if !v.Dict? then Failure(NoGet)
    else
      var extras := CreateExtraMemorySections(DictGet(v.entries, "extra_sections"));
      if extras.Failure? then Failure(extras.error)
      else Success(Some(MemoryArgs(DictGet(v.entries, "flash"), DictGet(v.entries, "ram"), extras.value)))
  }

  /** One core dict's `.get` calls; the memory is loaded in between. */
  function CoreArgsOf(d: Value): (r: Result<CoreArgs, LoadError>)
    ensures r.Success? ==>
      && d.Dict?
      && r.value.core == DictGet(d.entries, "core") && r.value.arch == DictGet(d.entries, "arch")
      && r.value.debugConfiguration == DictGet(d.entries, "debug_configuration")
      && Success(r.value.memory) == CreateMemoryConfig(DictGet(d.entries, "memory"))
  {
    if !d.Dict? then Failure(NoGet)
    else
      var memory := CreateMemoryConfig(DictGet(d.entries, "memory"));
      if memory.Failure? then Failure(memory.error)
      else Success(CoreArgs(DictGet(d.entries, "core"), DictGet(d.entries, "arch"), memory.value,
                            DictGet(d.entries, "debug_configuration")))
  }

  /** `create_core_configs`. */
  function CreateCoreConfigs(v: Value): Result<Option<seq<CoreArgs>>, LoadError> {
    Normalize(v, CoreArgsOf)
  }

  /** The field mapping of `load_config_from_json`: the top-level optional
      fields pass through unchanged, `None` when absent. */
  function LoadConfig(data: Value): (r: Result<ProjectArgs, LoadError>)
    ensures !data.Dict? ==> r == Failure(NoGet)
    ensures r.Success? ==>
      && r.value.mcuFamily == DictGet(data.entries, "mcu_family")
      && r.value.directories == DictGet(data.entries, "directories")
      && r.value.arch == DictGet(data.entries, "arch")
      && r.value.debugConfiguration == DictGet(data.entries, "debug_configuration")
      && Success(r.value.config) == CreateCoreConfigs(DictGet(data.entries, "config"))
  {
    if !data.Dict? then Failure(NoGet)
    else
      var e := data.entries;
      var config := CreateCoreConfigs(DictGet(e, "config"));
      if config.Failure? then Failure(config.error)
      else Success(ProjectArgs(DictGet(e, "mcu_family"), config.value, DictGet(e, "directories"),
                               DictGet(e, "arch"), DictGet(e, "debug_configuration")))
  }

  /** `parse_arguments`: exactly a project name and a configuration path,
      otherwise the process exits with status 1. */
  function ParseArguments(args: seq<string>): (r: Result<(string, string), int>)
    ensures r.Failure? <==> |args| != 2
    ensures r.Failure? ==> r.error == 1
    ensures r.Success? ==> [r.value.0, r.value.1] == args
  {
    if |args| != 2 then Failure(1) else Success((args[0], args[1]))
  }

  // ---------------------------------------------------------------------
  // Building the validated values from the loaded records
  // ---------------------------------------------------------------------

  /** The section constructors run on the records, in order; the first
      `ValueError` wins. */
  function BuildSections(xs: seq<SectionArgs>, limits: Limits)
    : (r: Result<seq<ExtraMemorySection>, ValidationError>)
    ensures r.Success? ==> |r.value| == |xs|
  {
    if xs == [] then Success([])
    else
      var head := NewExtraMemorySection(xs[0].memoryType, xs[0].origin, xs[0].length, limits);
      if head.Failure? then Failure(head.error)
      else
        var tail := BuildSections(xs[1..], limits);
        if tail.Failure? then tail else Success([head.value] + tail.value)
  }

  /** `MemoryConfig(flash, ram, extra_sections)` on loaded records: the
      sections are built first, as the argument is evaluated first. */
  function BuildMemory(args: MemoryArgs, limits: Limits): Result<MemoryConfig, ValidationError> {
    match args.extraSections
    case None => NewMemoryConfig(args.flash, args.ram, Null, limits)
    case Some(xs) =>
      var sections := BuildSections(xs, limits);
      if sections.Failure? then Failure(sections.error)
      else
        var ss := sections.value;
        NewMemoryConfig(args.flash, args.ram,
                        List(seq(|ss|, i requires 0 <= i < |ss| => SectionObj(ss[i]))), limits)
  }

  // ---------------------------------------------------------------------
  // Properties
  // ---------------------------------------------------------------------

  /** A dict where a list of sections is expected loads as a one-element
      list; so does a dict of a core. */
  lemma DictAsList(d: Value)
    requires d.Dict?
    ensures CreateExtraMemorySections(d) == CreateExtraMemorySections(List([d]))
    ensures CreateCoreConfigs(d) == CreateCoreConfigs(List([d]))
  {
  }

  /** A list loads as one record per element, in order, when every element
      is a dict. */
  lemma SectionsPerElement(items: seq<Value>)
    requires forall i :: 0 <= i < |items| ==> items[i].Dict?
    ensures var r := CreateExtraMemorySections(List(items));
      && r.Success? && r.value.Some? && |r.value.value| == |items|
      && forall i :: 0 <= i < |items| ==>
           r.value.value[i] == SectionArgs(DictGet(items[i].entries, "memory_type"),
                                           DictGet(items[i].entries, "origin"),
                                           DictGet(items[i].entries, "length"))
  {
    MapAllSuccess(items, SectionArgsOf);
  }

  /** The same for cores, provided each core's memory loads: each record
      holds the core's `core`, `arch`, loaded memory and
      `debug_configuration`. */
  lemma CoresPerElement(items: seq<Value>)
    requires forall i :: 0 <= i < |items| ==> items[i].Dict?
    requires forall i :: 0 <= i < |items| ==> CreateMemoryConfig(DictGet(items[i].entries, "memory")).Success?
    ensures var r := CreateCoreConfigs(List(items));
      && r.Success? && r.value.Some? && |r.value.value| == |items|
      && forall i :: 0 <= i < |items| ==>
           r.value.value[i] == CoreArgs(DictGet(items[i].entries, "core"),
                                        DictGet(items[i].entries, "arch"),
                                        CreateMemoryConfig(DictGet(items[i].entries, "memory")).value,
                                        DictGet(items[i].entries, "debug_configuration"))
  {
    MapAllSuccess(items, CoreArgsOf);
  }

  /** The records a serialized section loads as. */
  function SectionArgsFor(s: ExtraMemorySection): SectionArgs {
    SectionArgs(Str(s.memoryType), Str(s.origin), Str(s.length))
  }

  /** The records a serialized memory configuration loads as. */
  function MemoryArgsFor(m: MemoryConfig): MemoryArgs {
    MemoryArgs(SerializeRegion(m.flash), SerializeRegion(m.ram),
               match m.extraSections
               case None => None
               case Some(xs) => Some(seq(|xs|, i requires 0 <= i < |xs| => SectionArgsFor(xs[i]))))
  }

  /** Loading a serialized memory configuration gives back its fields. */
  lemma LoadSerializedMemory(m: MemoryConfig)
    ensures CreateMemoryConfig(SerializeMemory(m)) == Success(Some(MemoryArgsFor(m)))
  {
    var d := SerializeMemory(m);
    var v := DictGet(d.entries, "extra_sections");
    if m.extraSections.Some? {
      var xs := m.extraSections.value;
      MapAllSuccess(v.items, SectionArgsOf);
      var r := MapAll(v.items, SectionArgsOf).value;
      assert r == seq(|xs|, i requires 0 <= i < |xs| => SectionArgsFor(xs[i]));
    }
  }

  /** Building sections from the records of valid sections gives the
      sections back. */
  lemma {:induction false} BuildSectionsRoundTrip(xs: seq<ExtraMemorySection>, limits: Limits)
    requires forall i :: 0 <= i < |xs| ==> ValidSection(xs[i], limits)
    ensures BuildSections(seq(|xs|, i requires 0 <= i < |xs| => SectionArgsFor(xs[i])), limits) == Success(xs)
  {
    var args := seq(|xs|, i requires 0 <= i < |xs| => SectionArgsFor(xs[i]));
    if xs != [] {
      assert args[1..] == seq(|xs| - 1, i requires 0 <= i < |xs| - 1 => SectionArgsFor(xs[1..][i]));
      BuildSectionsRoundTrip(xs[1..], limits);
      assert [xs[0]] + xs[1..] == xs;
    }
  }

  /** Serializing a valid memory configuration, loading it and running the
      constructors gives back an equal configuration. */
  lemma MemoryRoundTrip(m: MemoryConfig, limits: Limits)
    requires ValidMemory(m, limits)
    ensures CreateMemoryConfig(SerializeMemory(m)).Success?
    ensures var args := CreateMemoryConfig(SerializeMemory(m)).value;
      args.Some? && BuildMemory(args.value, limits) == Success(m)
  {
    LoadSerializedMemory(m);
    BuildMemoryFor(m, limits);
  }

  /** The constructors accept the arguments a valid configuration loads
      as, and rebuild it. */
  lemma BuildMemoryFor(m: MemoryConfig, limits: Limits)
    requires ValidMemory(m, limits)
    ensures BuildMemory(MemoryArgsFor(m), limits) == Success(m)
  {
    var args := MemoryArgsFor(m);
    assert SectionValue(args.flash, limits) && SectionValue(args.ram, limits);
    if m.extraSections.Some? {
      var xs := m.extraSections.value;
      BuildSectionsRoundTrip(xs, limits);
      var objs := List(seq(|xs|, i requires 0 <= i < |xs| => SectionObj(xs[i])));
      assert SectionObjects(objs);
      var r := NewMemoryConfig(args.flash, args.ram, objs, limits);
      assert r.Success?;
      assert r.value.extraSections.value == xs;
    }
  }

  /** Loading a serialized core gives back its fields, and no
      `openocd_cfg`: the constructor cannot be given one. */
  lemma LoadSerializedCore(c: CoreConfig)
    ensures CoreArgsOf(SerializeCore(c))
            == Success(CoreArgs(Str(c.core), Str(c.arch), Some(MemoryArgsFor(c.memory)), c.debugConfiguration))
  {
    LoadSerializedMemory(c.memory);
  }

  /** Loading a serialized project passes the top-level fields through and
      loads every core in order. */
  lemma LoadSerializedProject(p: ProjectConfig)
    ensures var r := LoadConfig(SerializeProject(p));
      && r.Success? && r.value.mcuFamily == Str(p.mcuFamily)
      && r.value.directories == p.directories && r.value.arch == p.arch
      && r.value.debugConfiguration == p.debugConfiguration
      && r.value.config.Some? && |r.value.config.value| == |p.config|
      && forall i :: 0 <= i < |p.config| ==>
           r.value.config.value[i]
             == CoreArgs(Str(p.config[i].core), Str(p.config[i].arch),
                         Some(MemoryArgsFor(p.config[i].memory)), p.config[i].debugConfiguration)
  {
    var d := SerializeProject(p);
    var cores := DictGet(d.entries, "config");
    forall i | 0 <= i < |p.config|
      ensures CoreArgsOf(cores.items[i]).Success?
    {
      LoadSerializedCore(p.config[i]);
    }
    MapAllSuccess(cores.items, CoreArgsOf);
    forall i | 0 <= i < |p.config|
      ensures MapAll(cores.items, CoreArgsOf).value[i]
              == CoreArgs(Str(p.config[i].core), Str(p.config[i].arch),
                          Some(MemoryArgsFor(p.config[i].memory)), p.config[i].debugConfiguration)
    {
      LoadSerializedCore(p.config[i]);
    }
  }
}
