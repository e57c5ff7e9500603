/** The simpler configuration schema: one `ProjectConfig` whose `validate`
    decides between a single core and several, checks the four memory
    attributes and `arch` accordingly, and reports every failing check
    before giving its verdict. */
module SimpleProjectTypes {
  import opened Wrappers

  /** The values the memory attributes and `arch` may hold: a string, a list,
      a dict (only its keys matter to `validate`), or anything else. */
  datatype PyValue =
    | PyStr(s: string)
    | PyList(items: seq<PyValue>)
    | PyDict(keys: set<string>)
    | PyOther

  /** `cores`: one name, or a list of names. */
  datatype Cores = CoreName(name: string) | CoreList(names: seq<string>)

  datatype MemoryConfig = MemoryConfig(flashOrigin: PyValue, flashEnd: PyValue,
                                       ramOrigin: PyValue, ramEnd: PyValue)

  datatype ProjectConfig = ProjectConfig(mcuFamily: string, cores: Cores, arch: PyValue,
                                         memory: MemoryConfig)

  /** The memory attributes `validate` visits, by name. */
  datatype MemoryAttribute = FlashOrigin | FlashEnd | RamOrigin | RamEnd

  /** The order in which `validate` visits them. */
  const MemoryAttributes: seq<MemoryAttribute> := [FlashOrigin, FlashEnd, RamOrigin, RamEnd]

  /** `getattr(self.memory, attr)`. */
  function GetAttr(m: MemoryConfig, a: MemoryAttribute): PyValue {
    match a
    case FlashOrigin => m.flashOrigin
    case FlashEnd => m.flashEnd
    case RamOrigin => m.ramOrigin
    case RamEnd => m.ramEnd
  }

  /** One printed validation error. */
  datatype Diagnostic =
    | NotAString(attr: MemoryAttribute)
    | NotADict(attr: MemoryAttribute)
    | WrongKeyCount(attr: MemoryAttribute, expected: nat, found: nat)
    | KeysMismatch(attr: MemoryAttribute)
    | ArchNotAString
    | ArchNotAList
    | ArchItemNotAString

  /** A string, or a list of exactly one name. */
  predicate IsSingleCore(c: Cores) {
    c.CoreName? || |c.names| == 1
  }

  function CoreNames(c: Cores): seq<string> {
    match c
    case CoreName(n) => [n]
    case CoreList(ns) => ns
  }

  /** The error printed for one memory attribute, if any; for several cores
      the checks are tried in turn and only the first failing one is
      reported. Equal sorted key lists are equal multisets of keys. */
  function AttrDiagnostic(value: PyValue, a: MemoryAttribute, single: bool, names: seq<string>)
    : Option<Diagnostic>
  {
    if single then
      if !value.PyStr? then Some(NotAString(a)) else None
    else if !value.PyDict? then Some(NotADict(a))
    else if |value.keys| != |names| then Some(WrongKeyCount(a, |names|, |value.keys|))
    else if multiset(value.keys) != multiset(names) then Some(KeysMismatch(a))
    else None
  }

  /** The error printed for `arch`, if any. */
  function ArchDiagnostic(arch: PyValue, single: bool): Option<Diagnostic> {
    if single then
      if !arch.PyStr? then Some(ArchNotAString) else None
    else if !arch.PyList? then Some(ArchNotAList)
    else if exists k :: 0 <= k < |arch.items| && !arch.items[k].PyStr? then Some(ArchItemNotAString)
    else None
  }

  function OptionSeq(o: Option<Diagnostic>): seq<Diagnostic> {
    if o.Some? then [o.value] else []
  }

  /** The errors printed while visiting `attrs`, in order. */
  function MemoryDiagnostics(config: ProjectConfig, attrs: seq<MemoryAttribute>): seq<Diagnostic> {
    if attrs == [] then []
    else
      var a := attrs[|attrs| - 1];
      MemoryDiagnostics(config, attrs[..|attrs| - 1])
        + OptionSeq(AttrDiagnostic(GetAttr(config.memory, a), a, IsSingleCore(config.cores),
                                   CoreNames(config.cores)))
  }

  /** Everything `validate` prints as an error, in order. */
  function Diagnostics(config: ProjectConfig): seq<Diagnostic> {
    MemoryDiagnostics(config, MemoryAttributes)
      + OptionSeq(ArchDiagnostic(config.arch, IsSingleCore(config.cores)))
  }

  /** `ProjectConfig.validate`: every check runs, each failure is reported
      and clears `valid`. */
  method Validate(config: ProjectConfig) returns (valid: bool, diagnostics: seq<Diagnostic>)
    ensures diagnostics == Diagnostics(config)
    ensures valid <==> diagnostics == []
  {
    valid := true;
    diagnostics := [];
    var single := IsSingleCore(config.cores);
    var names := CoreNames(config.cores);
    var attrs := MemoryAttributes;
    for i := 0 to |attrs|
      invariant diagnostics == MemoryDiagnostics(config, attrs[..i])
      invariant valid <==> diagnostics == []
    {
      assert attrs[..i + 1][..i] == attrs[..i];
      var a := attrs[i];
      var value := GetAttr(config.memory, a);
      if single {
        if !value.PyStr? {
          diagnostics := diagnostics + [NotAString(a)];
          valid := false;
        }
      } else {
        if !value.PyDict? {
          diagnostics := diagnostics + [NotADict(a)];
          valid := false;
        } else if |value.keys| != |names| {
          diagnostics := diagnostics + [WrongKeyCount(a, |names|, |value.keys|)];
          valid := false;
        } else if multiset(value.keys) != multiset(names) {
          diagnostics := diagnostics + [KeysMismatch(a)];
          valid := false;
        }
      }
    }
    assert attrs[..|attrs|] == attrs;
    if single {
      if !config.arch.PyStr? {
        diagnostics := diagnostics + [ArchNotAString];
        valid := false;
      }
    } else {
      if !config.arch.PyList? {
        diagnostics := diagnostics + [ArchNotAList];
        valid := false;
      } else if exists k :: 0 <= k < |config.arch.items| && !config.arch.items[k].PyStr? {
        diagnostics := diagnostics + [ArchItemNotAString];
        valid := false;
      }
    }
  }

  // ---------------------------------------------------------------------
  // Properties
  // ---------------------------------------------------------------------

  /** What a configuration that passes looks like, stated directly: one
      core has string attributes and a string `arch`; several cores have
      dicts keyed by exactly the core names and a list of string archs. */
  predicate WellFormed(config: ProjectConfig) {
    var names := CoreNames(config.cores);
    if IsSingleCore(config.cores) then
      && config.memory.flashOrigin.PyStr? && config.memory.flashEnd.PyStr?
      && config.memory.ramOrigin.PyStr? && config.memory.ramEnd.PyStr?
      && config.arch.PyStr?
    else
      && KeyedByCores(config.memory.flashOrigin, names) && KeyedByCores(config.memory.flashEnd, names)
      && KeyedByCores(config.memory.ramOrigin, names) && KeyedByCores(config.memory.ramEnd, names)
      && config.arch.PyList?
      && (forall k :: 0 <= k < |config.arch.items| ==> config.arch.items[k].PyStr?)
  }

  /** A dict whose keys are exactly the (distinct) core names. */
  predicate KeyedByCores(v: PyValue, names: seq<string>) {
    v.PyDict? && |v.keys| == |names| && multiset(v.keys) == multiset(names)
  }

  /** The diagnostics for a list of attributes are empty exactly when every
      attribute in it passes. */
  lemma {:induction false} MemoryDiagnosticsEmpty(config: ProjectConfig, attrs: seq<MemoryAttribute>)
    ensures MemoryDiagnostics(config, attrs) == [] <==>
      forall k :: 0 <= k < |attrs| ==>
        AttrDiagnostic(GetAttr(config.memory, attrs[k]), attrs[k], IsSingleCore(config.cores),
                       CoreNames(config.cores)).None?
  {
    if attrs != [] {
      var p := attrs[..|attrs| - 1];
      MemoryDiagnosticsEmpty(config, p);
      assert forall k :: 0 <= k < |p| ==> p[k] == attrs[k];
    }
  }

  /** One memory attribute passes exactly when it is a string (one core)
      or a dict keyed by exactly the core names (several cores). */
  lemma AttrPasses(config: ProjectConfig, a: MemoryAttribute)
    ensures AttrDiagnostic(GetAttr(config.memory, a), a, IsSingleCore(config.cores),
                           CoreNames(config.cores)).None?
            <==> if IsSingleCore(config.cores) then GetAttr(config.memory, a).PyStr?
                 else KeyedByCores(GetAttr(config.memory, a), CoreNames(config.cores))
  {
  }

  /** The memory checks pass exactly when each of the four attributes does. */
  lemma MemoryPasses(config: ProjectConfig)
    ensures MemoryDiagnostics(config, MemoryAttributes) == [] <==>
      var single := IsSingleCore(config.cores);
      var names := CoreNames(config.cores);
      && AttrDiagnostic(config.memory.flashOrigin, FlashOrigin, single, names).None?
      && AttrDiagnostic(config.memory.flashEnd, FlashEnd, single, names).None?
      && AttrDiagnostic(config.memory.ramOrigin, RamOrigin, single, names).None?
      && AttrDiagnostic(config.memory.ramEnd, RamEnd, single, names).None?
  {
    var m := MemoryAttributes;
    MemoryDiagnosticsEmpty(config, m);
    assert |m| == 4 && m[0] == FlashOrigin && m[1] == FlashEnd && m[2] == RamOrigin && m[3] == RamEnd;
  }

  /** `arch` passes exactly when it is a string (one core) or a list of
      strings (several cores). */
  lemma ArchPasses(config: ProjectConfig)
    ensures ArchDiagnostic(config.arch, IsSingleCore(config.cores)).None? <==>
      if IsSingleCore(config.cores) then config.arch.PyStr?
      else config.arch.PyList? && forall k :: 0 <= k < |config.arch.items| ==> config.arch.items[k].PyStr?
  {
  }

  /** `validate` returns True exactly for the well-formed configurations. */
  lemma ValidateIff(config: ProjectConfig)
    ensures Diagnostics(config) == [] <==> WellFormed(config)
  {
    var memory := MemoryDiagnostics(config, MemoryAttributes);
    var arch := OptionSeq(ArchDiagnostic(config.arch, IsSingleCore(config.cores)));
    assert Diagnostics(config) == [] <==> memory == [] && arch == [] by {
      assert |Diagnostics(config)| == |memory| + |arch|;
    }
    MemoryPasses(config);
    ArchPasses(config);
    AttrPasses(config, FlashOrigin);
    AttrPasses(config, FlashEnd);
    AttrPasses(config, RamOrigin);
    AttrPasses(config, RamEnd);
  }

  /** No check is skipped: every attribute that fails is reported, in the
      order of `MemoryAttributes`, whatever failed before it. */
  lemma {:induction false} EveryFailureReported(config: ProjectConfig, attrs: seq<MemoryAttribute>)
    ensures |MemoryDiagnostics(config, attrs)| + NumPassing(config, attrs) == |attrs|
    ensures forall k :: 0 <= k < |attrs| ==>
      var d := AttrDiagnostic(GetAttr(config.memory, attrs[k]), attrs[k], IsSingleCore(config.cores),
                              CoreNames(config.cores));
      d.Some? ==> d.value in MemoryDiagnostics(config, attrs)
  {
    if attrs != [] {
      var p := attrs[..|attrs| - 1];
      EveryFailureReported(config, p);
      assert forall k :: 0 <= k < |p| ==> p[k] == attrs[k];
    }
  }

  /** How many of `attrs` pass their check. */
  function NumPassing(config: ProjectConfig, attrs: seq<MemoryAttribute>): nat {
    if attrs == [] then 0
    else
      var a := attrs[|attrs| - 1];
      NumPassing(config, attrs[..|attrs| - 1])
        + (if AttrDiagnostic(GetAttr(config.memory, a), a, IsSingleCore(config.cores),
                             CoreNames(config.cores)).None? then 1 else 0)
  }

  /** An illustration of `EveryFailureReported`: a single-core
      configuration with a non-string `arch` and non-string memory
      attributes reports all five problems, not just the first. */
  lemma AllChecksRun(config: ProjectConfig)
    requires IsSingleCore(config.cores)
    requires !config.memory.flashOrigin.PyStr? && !config.memory.flashEnd.PyStr?
    requires !config.memory.ramOrigin.PyStr? && !config.memory.ramEnd.PyStr?
    requires !config.arch.PyStr?
    ensures Diagnostics(config) == [NotAString(FlashOrigin), NotAString(FlashEnd),
                                    NotAString(RamOrigin), NotAString(RamEnd), ArchNotAString]
  {
    var m := MemoryAttributes;
    assert [FlashOrigin][..0] == [];
    assert MemoryDiagnostics(config, [FlashOrigin]) == [NotAString(FlashOrigin)];
    assert [FlashOrigin, FlashEnd][..1] == [FlashOrigin];
    assert MemoryDiagnostics(config, [FlashOrigin, FlashEnd])
           == [NotAString(FlashOrigin), NotAString(FlashEnd)];
    assert m[..3] == [FlashOrigin, FlashEnd, RamOrigin];
    assert [FlashOrigin, FlashEnd, RamOrigin][..2] == [FlashOrigin, FlashEnd];
    assert MemoryDiagnostics(config, m[..3])
           == [NotAString(FlashOrigin), NotAString(FlashEnd), NotAString(RamOrigin)];
  }
}
