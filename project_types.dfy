/** The richer configuration schema: the validators, the dataclasses that run
    them on construction, and their `serialize`. A construction either yields
    a value or the `ValueError` the first failing validator raises. */
module ProjectTypes {
  import opened Wrappers
  import opened Text

  /** A Python value as the validators see it: parsed JSON data (`Null` is
      `None`) or an instance of one of the configuration dataclasses. */
  datatype Value =
    | Null
    | Bool(b: bool)
    | Int(i: int)
    | Str(s: string)
    | List(items: seq<Value>)
    | Dict(entries: seq<(string, Value)>)
    | OpenOcdObj(openocd: OpenOcdCfg)
    | SectionObj(section: ExtraMemorySection)
    | MemoryObj(memory: MemoryConfig)
    | CoreObj(core: CoreConfig)

  /** The types the validators test with `isinstance`. */
  datatype PyType = StrType | ListType | OpenOcdType | SectionType | MemoryType | CoreType

  predicate IsInstance(v: Value, t: PyType) {
    match t
    case StrType => v.Str?
    case ListType => v.List?
    case OpenOcdType => v.OpenOcdObj?
    case SectionType => v.SectionObj?
    case MemoryType => v.MemoryObj?
    case CoreType => v.CoreObj?
  }

  /** Python truthiness: `None`, `False`, `0` and empty containers are false;
      dataclass instances are true. */
  predicate Truthy(v: Value) {
    match v
    case Null => false
    case Bool(b) => b
    case Int(i) => i != 0
    case Str(s) => s != []
    case List(items) => items != []
    case Dict(entries) => entries != []
    case _ => true
  }

  /** `d.get(key)` on a dict parsed from JSON: the value of the last entry
      with that key, or `None`. */
  function DictGet(entries: seq<(string, Value)>, key: string): Value {
    if entries == [] then Null
    else if entries[|entries| - 1].0 == key then entries[|entries| - 1].1
    else DictGet(entries[..|entries| - 1], key)
  }

  /** `get` finds a value only in an entry with that key, and finds
      nothing when no entry has it. */
  lemma {:induction false} DictGetSpec(entries: seq<(string, Value)>, key: string)
    ensures var v := DictGet(entries, key);
      && (v != Null ==> exists i :: 0 <= i < |entries| && entries[i] == (key, v))
      && ((forall i :: 0 <= i < |entries| ==> entries[i].0 != key) ==> v == Null)
  {
    if entries != [] && entries[|entries| - 1].0 != key {
      var init := entries[..|entries| - 1];
      DictGetSpec(init, key);
      if DictGet(init, key) != Null {
        var i :| 0 <= i < |init| && init[i] == (key, DictGet(init, key));
        assert entries[i] == init[i];
      }
    }
  }

  /** The entry `get` finds: the last one with that key. */
  lemma {:induction false} DictGetLast(entries: seq<(string, Value)>, key: string, i: nat)
    requires i < |entries| && entries[i].0 == key
    requires forall j :: i < j < |entries| ==> entries[j].0 != key
    ensures DictGet(entries, key) == entries[i].1
  {
    if i < |entries| - 1 {
      DictGetLast(entries[..|entries| - 1], key, i);
    }
  }

  /** `get` of a key no entry has is `None`. */
  lemma {:induction false} DictGetAbsent(entries: seq<(string, Value)>, key: string)
    requires forall i :: 0 <= i < |entries| ==> |entries[i].0| != |key|
    ensures DictGet(entries, key) == Null
  {
    if entries != [] {
      DictGetAbsent(entries[..|entries| - 1], key);
    }
  }

  datatype ErrorKind =
    | NotSet                          // "key not set or is empty"
    | WrongType(expected: PyType)     // "must be of type ..." / "must be a list"
    | ItemWrongType(expected: PyType) // "Each item in field ... must be of type ..."
    | NotHexadecimal
    | NotMemorySize
    | BadSectionArity                 // a memory section that is not [origin, length]
    | BadDigitsRange                  // lower > upper: the pattern does not compile

  /** The raised `ValueError`: the field it names and what was wrong. */
  datatype ValidationError = ValidationError(field: string, kind: ErrorKind)

  type Check = Outcome<ValidationError>

  datatype OpenOcdCfg = OpenOcdCfg(interface: string, target: string)

  datatype ExtraMemorySection = ExtraMemorySection(memoryType: string, origin: string, length: string)

  /** A `[origin, length]` list, validated to have exactly two strings. */
  datatype Region = Region(origin: string, length: string)

  datatype MemoryConfig = MemoryConfig(flash: Region, ram: Region,
                                       extraSections: Option<seq<ExtraMemorySection>>)

  /** `debugConfiguration` is only checked when truthy, so any falsy value
      is kept as given. */
  datatype CoreConfig = CoreConfig(core: string, arch: string, memory: MemoryConfig,
                                   openocdCfg: OpenOcdCfg, debugConfiguration: Value)

  datatype ProjectConfig = ProjectConfig(mcuFamily: string, config: seq<CoreConfig>,
                                         directories: Value, arch: Value,
                                         debugConfiguration: Value)

  /** The validator defaults (`MEMORY_DIGITS_RANGE`, `MEMORY_UNITS`). */
  datatype Limits = Limits(digitsRange: map<string, nat>, memoryUnits: seq<string>)

  function Lower(range: map<string, nat>): nat {
    if "lower" in range then range["lower"] else 8
  }

  function Upper(range: map<string, nat>): nat {
    if "upper" in range then range["upper"] else 8
  }

  // ---------------------------------------------------------------------
  // Hexadecimal addresses: ^0x[0-9A-Fa-f]{lower,upper}$
  // ---------------------------------------------------------------------

  predicate IsHexDigit(c: char) {
    ('0' <= c <= '9') || ('a' <= c <= 'f') || ('A' <= c <= 'F')
  }

  /** "0x" (lower-case x) followed by between `lower` and `upper` hex digits. */
  predicate HexLiteral(s: string, lower: nat, upper: nat) {
    && |s| >= 2 && s[..2] == "0x"
    && lower <= |s| - 2 <= upper
    && forall i :: 2 <= i < |s| ==> IsHexDigit(s[i])
  }

  /** What `re.match` accepts: Python's `$` also matches just before a final
      newline, so one trailing "\n" is allowed. */
  predicate IsHexadecimal(s: string, lower: nat, upper: nat) {
    || HexLiteral(s, lower, upper)
    || (|s| > 0 && s[|s| - 1] == '\n' && HexLiteral(s[..|s| - 1], lower, upper))
  }

  predicate HexOk(s: string, limits: Limits) {
    Lower(limits.digitsRange) <= Upper(limits.digitsRange)
    && IsHexadecimal(s, Lower(limits.digitsRange), Upper(limits.digitsRange))
  }

  /** The length of the run of hex digits `s` starts with. */
  function HexRun(s: string): (n: nat)
    ensures n <= |s|
    ensures forall i :: 0 <= i < n ==> IsHexDigit(s[i])
    ensures n < |s| ==> !IsHexDigit(s[n])
  {
    if s != [] && IsHexDigit(s[0]) then 1 + HexRun(s[1..]) else 0
  }

  /** The matcher: the prefix, then the digit run, then the end of the string
      or a final newline. */
  function MatchHexadecimal(s: string, lower: nat, upper: nat): (b: bool)
    ensures b <==> IsHexadecimal(s, lower, upper)
  {
    if |s| < 2 || s[..2] != "0x" then
      assert !IsHexadecimal(s, lower, upper);
      false
    else
      var n := HexRun(s[2..]);
      assert forall i :: 2 <= i < 2 + n ==> IsHexDigit(s[i]) by {
        forall i | 2 <= i < 2 + n ensures IsHexDigit(s[i]) { assert s[2..][i - 2] == s[i]; }
      }
      assert 2 + n < |s| ==> !IsHexDigit(s[2 + n]) by {
        if 2 + n < |s| { assert s[2..][n] == s[2 + n]; }
      }
      assert |s| > 2 ==> s[..|s| - 1][..2] == s[..2];
      lower <= n <= upper
      && (2 + n == |s| || (2 + n == |s| - 1 && s[|s| - 1] == '\n'))
  }

  /** `validate_hexadecimal`. */
  function ValidateHexadecimal(value: Value, fieldName: string, digitsRange: map<string, nat>): (r: Check)
    ensures r.Pass? <==> value.Str? && Lower(digitsRange) <= Upper(digitsRange)
                         && IsHexadecimal(value.s, Lower(digitsRange), Upper(digitsRange))
    ensures r.Fail? ==> r.error.field == fieldName
  {
    var lower := Lower(digitsRange);
    var upper := Upper(digitsRange);
    if lower > upper then Fail(ValidationError(fieldName, BadDigitsRange))
    else match value
      case Str(s) =>
        if MatchHexadecimal(s, lower, upper) then Pass
        else Fail(ValidationError(fieldName, NotHexadecimal))
      case _ => Fail(ValidationError(fieldName, WrongType(StrType)))
  }

  // ---------------------------------------------------------------------
  // Memory sizes: ^[0-9]*[02468](?:u1|u2|...)$ with re.IGNORECASE
  // ---------------------------------------------------------------------

  /** The alternatives of `(?:u1|...)`: joining no unit leaves `(?:)`,
      which matches the empty string. */
  function Alternatives(units: seq<string>): seq<string> {
    if units == [] then [""] else units
  }

  predicate IsDigit(c: char) { '0' <= c <= '9' }

  predicate IsEvenDigit(c: char) { c == '0' || c == '2' || c == '4' || c == '6' || c == '8' }

  /** Decimal digits, at least one, the last one even. */
  predicate EvenNumber(d: string) {
    |d| > 0 && (forall i :: 0 <= i < |d| ==> IsDigit(d[i])) && IsEvenDigit(d[|d| - 1])
  }

  /** `s` is an even number followed by the unit `u` in any ASCII case. */
  predicate SizeWithUnit(s: string, u: string) {
    |u| <= |s| && EqualsIgnoreCase(s[|s| - |u|..], u) && EvenNumber(s[..|s| - |u|])
  }

  predicate SizeWithSomeUnit(s: string, alts: seq<string>) {
    exists k :: 0 <= k < |alts| && SizeWithUnit(s, alts[k])
  }

  /** What `re.match(pattern, s, re.IGNORECASE)` accepts, with one final
      newline allowed by `$`. */
  predicate IsMemorySize(s: string, units: seq<string>) {
    var alts := Alternatives(units);
    || SizeWithSomeUnit(s, alts)
    || (|s| > 0 && s[|s| - 1] == '\n' && SizeWithSomeUnit(s[..|s| - 1], alts))
  }

  function AllDigits(d: string): (b: bool)
    ensures b <==> forall i :: 0 <= i < |d| ==> IsDigit(d[i])
  {
    if d == [] then true
    else
      assert forall i :: 1 <= i < |d| ==> d[i] == d[1..][i - 1];
      IsDigit(d[0]) && AllDigits(d[1..])
  }

  /** Tries the alternatives in order. */
  function MatchSomeUnit(s: string, alts: seq<string>): (b: bool)
    ensures b <==> SizeWithSomeUnit(s, alts)
  {
    if alts == [] then false
    else
      var u := alts[0];
      var here := |u| <= |s| && EqualsIgnoreCase(s[|s| - |u|..], u)
                  && var d := s[..|s| - |u|]; |d| > 0 && AllDigits(d) && IsEvenDigit(d[|d| - 1]);
      assert here <==> SizeWithUnit(s, u);
      var rest := MatchSomeUnit(s, alts[1..]);
      assert rest <==> exists k :: 1 <= k < |alts| && SizeWithUnit(s, alts[k]) by {
        if rest {
          var k :| 0 <= k < |alts[1..]| && SizeWithUnit(s, alts[1..][k]);
          assert alts[1..][k] == alts[k + 1];
        }
        if exists k :: 1 <= k < |alts| && SizeWithUnit(s, alts[k]) {
          var k :| 1 <= k < |alts| && SizeWithUnit(s, alts[k]);
          assert alts[k] == alts[1..][k - 1];
        }
      }
      here || rest
  }

  /** `validate_memory_size`. */
  function ValidateMemorySize(value: Value, fieldName: string, units: seq<string>): (r: Check)
    ensures r.Pass? <==> value.Str? && IsMemorySize(value.s, units)
    ensures r.Fail? ==> r.error.field == fieldName
  {
    match value
    case Str(s) =>
      var alts := Alternatives(units);
      var ok := MatchSomeUnit(s, alts)
                || (|s| > 0 && s[|s| - 1] == '\n' && MatchSomeUnit(s[..|s| - 1], alts));
      if ok then Pass else Fail(ValidationError(fieldName, NotMemorySize))
    case _ => Fail(ValidationError(fieldName, WrongType(StrType)))
  }

  // ---------------------------------------------------------------------
  // The generic validators
  // ---------------------------------------------------------------------

  /** `validate_non_empty`. */
  function ValidateNonEmpty(value: Value, fieldName: string): (r: Check)
    ensures r.Fail? <==> value in {Null, Str(""), List([])}
    ensures r.Fail? ==> r.error == ValidationError(fieldName, NotSet)
    ensures Truthy(value) ==> r.Pass?
  {
    if value.Null? then Fail(ValidationError(fieldName, NotSet))
    else if (value.Str? && |value.s| == 0) || (value.List? && |value.items| == 0) then
      Fail(ValidationError(fieldName, NotSet))
    else Pass
  }

  /** `validate_field_type`. */
  function ValidateFieldType(field: Value, fieldType: PyType, fieldName: string): (r: Check)
    ensures r.Pass? <==> IsInstance(field, fieldType)
    ensures r.Fail? ==> r.error == ValidationError(fieldName, WrongType(fieldType))
  {
    if IsInstance(field, fieldType) then Pass
    else Fail(ValidationError(fieldName, WrongType(fieldType)))
  }

  /** `validate_memory_section`: exactly two elements, a hex origin and a
      memory-size length. Only ever given a list. */
  function ValidateMemorySection(section: Value, sectionName: string, limits: Limits): (r: Check)
    ensures r.Pass? <==> SectionValue(section, limits)
  {
    match section
    case List(items) =>
      if |items| != 2 then Fail(ValidationError(sectionName, BadSectionArity))
      else (ValidateHexadecimal(items[0], sectionName + "[0] (origin)", limits.digitsRange)
              .Then(ValidateMemorySize(items[1], sectionName + "[1] (length)", limits.memoryUnits)))
    case _ => Fail(ValidationError(sectionName, WrongType(ListType)))
  }

  /** A well-formed `[origin, length]` section value. */
  predicate SectionValue(v: Value, limits: Limits) {
    && v.List? && |v.items| == 2
    && v.items[0].Str? && v.items[1].Str?
    && HexOk(v.items[0].s, limits)
    && IsMemorySize(v.items[1].s, limits.memoryUnits)
  }

  type Validator = (Value, string) -> Check

  function MemorySectionValidator(limits: Limits): Validator {
    (v: Value, name: string) => ValidateMemorySection(v, name, limits)
  }

  /** The item loop of `validate_list_elements`: the first item of the wrong
      type, or the first the per-item validator rejects. */
  function CheckItems(items: seq<Value>, elementType: PyType, fieldName: string,
                      each: Option<Validator>): (r: Check)
    ensures r.Pass? <==> forall i :: 0 <= i < |items| ==>
              IsInstance(items[i], elementType) && (each.Some? ==> each.value(items[i], fieldName).Pass?)
  {
    if items == [] then Pass
    else if !IsInstance(items[0], elementType) then
      Fail(ValidationError(fieldName, ItemWrongType(elementType)))
    else if each.Some? && each.value(items[0], fieldName).Fail? then
      each.value(items[0], fieldName)
    else
      var r := CheckItems(items[1..], elementType, fieldName, each);
      assert forall i :: 1 <= i < |items| ==> items[i] == items[1..][i - 1];
      r
  }

  /** `validate_list_elements`: a list whose items all have the element type;
      the custom validator runs on each item only when `toEach` is set, and
      always on the whole list. */
  function ValidateListElements(field: Value, elementType: PyType, fieldName: string,
                                customValidator: Option<Validator>, toEach: bool): (r: Check)
    ensures r.Pass? <==>
      && field.List?
      && (forall i :: 0 <= i < |field.items| ==> IsInstance(field.items[i], elementType))
      && (toEach && customValidator.Some? ==>
            forall i :: 0 <= i < |field.items| ==> customValidator.value(field.items[i], fieldName).Pass?)
      && (customValidator.Some? ==> customValidator.value(field, fieldName).Pass?)
  {
    if !field.List? then Fail(ValidationError(fieldName, WrongType(ListType)))
    else
      var each := if toEach then customValidator else None;
      var items := CheckItems(field.items, elementType, fieldName, each);
      if items.Fail? then items
      else if customValidator.Some? then customValidator.value(field, fieldName)
      else Pass
  }

  // ---------------------------------------------------------------------
  // The dataclasses
  // ---------------------------------------------------------------------

  /** A truthy optional field must be a string (falsy values are not checked). */
  predicate OptionalStr(v: Value) {
    !Truthy(v) || v.Str?
  }

  /** `directories`: unchecked when falsy, otherwise a list of strings. */
  predicate OptionalStrList(v: Value) {
    !Truthy(v) || (v.List? && forall i :: 0 <= i < |v.items| ==> v.items[i].Str?)
  }

  predicate NonEmptyStr(v: Value) {
    v.Str? && v.s != ""
  }

  /** `OpenOCDCfg(interface, target)`. */
  function NewOpenOcdCfg(interface: Value, target: Value): (r: Result<OpenOcdCfg, ValidationError>)
    ensures r.Success? <==> NonEmptyStr(interface) && NonEmptyStr(target)
    ensures r.Success? ==> r.value == OpenOcdCfg(interface.s, target.s)
  {
    var check := ValidateNonEmpty(interface, "interface")
      .Then(ValidateNonEmpty(target, "target"))
      .Then(ValidateFieldType(interface, StrType, "interface"))
      .Then(ValidateFieldType(target, StrType, "target"));
    if check.Fail? then Failure(check.error)
    else Success(OpenOcdCfg(interface.s, target.s))
  }

  predicate ValidOpenOcd(c: OpenOcdCfg) {
    c.interface != "" && c.target != ""
  }

  /** `ExtraMemorySection(memory_type, origin, length)`. */
  function NewExtraMemorySection(memoryType: Value, origin: Value, length: Value, limits: Limits)
    : (r: Result<ExtraMemorySection, ValidationError>)
    ensures r.Success? <==>
      && NonEmptyStr(memoryType)
      && origin.Str? && HexOk(origin.s, limits)
      && length.Str? && IsMemorySize(length.s, limits.memoryUnits)
    ensures r.Success? ==> r.value == ExtraMemorySection(memoryType.s, origin.s, length.s)
    ensures r.Success? ==> ValidSection(r.value, limits)
    ensures memoryType == Null ==> r == Failure(ValidationError("memory_type", NotSet))
  {
    var check := ValidateNonEmpty(memoryType, "memory_type")
      .Then(ValidateNonEmpty(origin, "origin"))
      .Then(ValidateNonEmpty(length, "length"))
      .Then(ValidateFieldType(memoryType, StrType, "memory_type"))
      .Then(ValidateFieldType(origin, StrType, "origin"))
      .Then(ValidateFieldType(length, StrType, "length"))
      .Then(ValidateHexadecimal(origin, "origin", limits.digitsRange))
      .Then(ValidateMemorySize(length, "length", limits.memoryUnits));
    if check.Fail? then Failure(check.error)
    else Success(ExtraMemorySection(memoryType.s, origin.s, length.s))
  }

  /** What every constructed `ExtraMemorySection` satisfies. */
  predicate ValidSection(s: ExtraMemorySection, limits: Limits) {
    s.memoryType != "" && HexOk(s.origin, limits) && IsMemorySize(s.length, limits.memoryUnits)
  }

  predicate ValidRegion(r: Region, limits: Limits) {
    HexOk(r.origin, limits) && IsMemorySize(r.length, limits.memoryUnits)
  }

  predicate ValidMemory(m: MemoryConfig, limits: Limits) {
    && ValidRegion(m.flash, limits) && ValidRegion(m.ram, limits)
    && (m.extraSections.Some? ==>
          forall i :: 0 <= i < |m.extraSections.value| ==> ValidSection(m.extraSections.value[i], limits))
  }

  predicate SectionObjects(v: Value) {
    v.List? && forall i :: 0 <= i < |v.items| ==> v.items[i].SectionObj?
  }

  /** The checks of `MemoryConfig.__post_init__`, in order. */
  function MemoryChecks(flash: Value, ram: Value, extraSections: Value, limits: Limits): Check {
    ValidateNonEmpty(flash, "flash")
      .Then(ValidateNonEmpty(ram, "ram"))
      .Then(ValidateListElements(flash, StrType, "flash", Some(MemorySectionValidator(limits)), false))
      .Then(ValidateListElements(ram, StrType, "ram", Some(MemorySectionValidator(limits)), false))
      .Then(if !extraSections.Null?
            then ValidateListElements(extraSections, SectionType, "extra_sections", None, false)
            else Pass)
  }

  /** The memory checks pass exactly for two well-formed sections and, when
      given, a list of section objects. */
  lemma MemoryChecksPass(flash: Value, ram: Value, extraSections: Value, limits: Limits)
    ensures MemoryChecks(flash, ram, extraSections, limits).Pass? <==>
      SectionValue(flash, limits) && SectionValue(ram, limits)
      && (extraSections.Null? || SectionObjects(extraSections))
  {
    SectionListChecked(flash, "flash", limits);
    SectionListChecked(ram, "ram", limits);
  }

  /** A memory section given as a list of strings passes its checks exactly
      when it is a well-formed `[origin, length]` pair. */
  lemma SectionListChecked(v: Value, name: string, limits: Limits)
    ensures ValidateListElements(v, StrType, name, Some(MemorySectionValidator(limits)), false).Pass?
            <==> SectionValue(v, limits)
  {
    assert MemorySectionValidator(limits)(v, name) == ValidateMemorySection(v, name, limits);
  }

  /** `MemoryConfig(flash, ram, extra_sections)`. */
  function NewMemoryConfig(flash: Value, ram: Value, extraSections: Value, limits: Limits)
    : (r: Result<MemoryConfig, ValidationError>)
    ensures r.Success? <==>
      SectionValue(flash, limits) && SectionValue(ram, limits)
      && (extraSections.Null? || SectionObjects(extraSections))
    ensures r.Success? ==>
      && r.value.flash == Region(flash.items[0].s, flash.items[1].s)
      && r.value.ram == Region(ram.items[0].s, ram.items[1].s)
      && (extraSections.Null? <==> r.value.extraSections.None?)
      && (r.value.extraSections.Some? ==>
            |r.value.extraSections.value| == |extraSections.items|
            && forall i :: 0 <= i < |extraSections.items| ==>
                 r.value.extraSections.value[i] == extraSections.items[i].section)
  {
    MemoryChecksPass(flash, ram, extraSections, limits);
    var check := MemoryChecks(flash, ram, extraSections, limits);
    if check.Fail? then Failure(check.error)
    else
      var extras := if extraSections.Null? then None
                    else Some(seq(|extraSections.items|, i requires 0 <= i < |extraSections.items| =>
                                    extraSections.items[i].section));
      Success(MemoryConfig(Region(flash.items[0].s, flash.items[1].s),
                           Region(ram.items[0].s, ram.items[1].s), extras))
  }

  /** `CoreConfig(core, arch, memory, openocd_cfg, debug_configuration)`. */
  function NewCoreConfig(core: Value, arch: Value, memory: Value, openocdCfg: Value,
                         debugConfiguration: Value): (r: Result<CoreConfig, ValidationError>)
    ensures r.Success? <==>
      NonEmptyStr(core) && NonEmptyStr(arch) && memory.MemoryObj? && openocdCfg.OpenOcdObj?
      && OptionalStr(debugConfiguration)
    ensures r.Success? ==>
      r.value == CoreConfig(core.s, arch.s, memory.memory, openocdCfg.openocd, debugConfiguration)
  {
    var check := ValidateNonEmpty(core, "core")
      .Then(ValidateNonEmpty(arch, "arch"))
      .Then(ValidateNonEmpty(memory, "memory"))
      .Then(ValidateNonEmpty(openocdCfg, "openocd_cfg"))
      .Then(ValidateFieldType(core, StrType, "core"))
      .Then(ValidateFieldType(arch, StrType, "arch"))
      .Then(ValidateFieldType(memory, MemoryType, "memory"))
      .Then(ValidateFieldType(openocdCfg, OpenOcdType, "openocd_cfg"))
      .Then(if Truthy(debugConfiguration)
            then ValidateNonEmpty(debugConfiguration, "debug_configuration").Then(ValidateFieldType(debugConfiguration, StrType, "debug_configuration"))
            else Pass);
    if check.Fail? then Failure(check.error)
    else Success(CoreConfig(core.s, arch.s, memory.memory, openocdCfg.openocd, debugConfiguration))
  }

  predicate ValidCore(c: CoreConfig, limits: Limits) {
    && c.core != "" && c.arch != ""
    && ValidMemory(c.memory, limits) && ValidOpenOcd(c.openocdCfg)
    && OptionalStr(c.debugConfiguration)
  }

  predicate CoreObjects(v: Value) {
    v.List? && forall i :: 0 <= i < |v.items| ==> v.items[i].CoreObj?
  }

  /** `ProjectConfig(mcu_family, config, directories, arch, debug_configuration)`. */
  function NewProjectConfig(mcuFamily: Value, config: Value, directories: Value, arch: Value,
                            debugConfiguration: Value): (r: Result<ProjectConfig, ValidationError>)
    ensures r.Success? <==>
      && NonEmptyStr(mcuFamily)
      && CoreObjects(config) && config.items != []
      && OptionalStrList(directories) && OptionalStr(arch) && OptionalStr(debugConfiguration)
    ensures r.Success? ==>
      && r.value.mcuFamily == mcuFamily.s
      && |r.value.config| == |config.items|
      && (forall i :: 0 <= i < |config.items| ==> r.value.config[i] == config.items[i].core)
      && r.value.directories == directories && r.value.arch == arch
      && r.value.debugConfiguration == debugConfiguration
    ensures mcuFamily == Null ==> r == Failure(ValidationError("mcu_family", NotSet))
    ensures NonEmptyStr(mcuFamily) && config == Null ==> r == Failure(ValidationError("config", NotSet))
  {
    var check := ValidateNonEmpty(mcuFamily, "mcu_family")
      .Then(ValidateNonEmpty(config, "config"))
      .Then(ValidateFieldType(mcuFamily, StrType, "mcu_family"))
      .Then(ValidateListElements(config, CoreType, "config", None, false))
      .Then(if Truthy(directories)
            then ValidateNonEmpty(directories, "directories")
                   .Then(ValidateListElements(directories, StrType, "directories", None, false))
            else Pass)
      .Then(if Truthy(arch)
            then ValidateNonEmpty(arch, "arch").Then(ValidateFieldType(arch, StrType, "arch"))
            else Pass)
      .Then(if Truthy(debugConfiguration)
            then ValidateNonEmpty(debugConfiguration, "debug_configuration").Then(ValidateFieldType(debugConfiguration, StrType, "debug_configuration"))
            else Pass);
    if check.Fail? then Failure(check.error)
    else
      var cores := seq(|config.items|, i requires 0 <= i < |config.items| => config.items[i].core);
      Success(ProjectConfig(mcuFamily.s, cores, directories, arch, debugConfiguration))
  }

  predicate ValidProject(p: ProjectConfig, limits: Limits) {
    && p.mcuFamily != "" && p.config != []
    && (forall i :: 0 <= i < |p.config| ==> ValidCore(p.config[i], limits))
    && OptionalStrList(p.directories) && OptionalStr(p.arch) && OptionalStr(p.debugConfiguration)
  }

  // ---------------------------------------------------------------------
  // serialize
  // ---------------------------------------------------------------------

  /** `ExtraMemorySection.serialize`. */
  function SerializeSection(s: ExtraMemorySection): (d: Value)
    ensures d.Dict?
    ensures DictGet(d.entries, "memory_type") == Str(s.memoryType)
    ensures DictGet(d.entries, "origin") == Str(s.origin)
    ensures DictGet(d.entries, "length") == Str(s.length)
  {
    var e := [("memory_type", Str(s.memoryType)), ("origin", Str(s.origin)), ("length", Str(s.length))];
    DictGetLast(e, "memory_type", 0);
    DictGetLast(e, "origin", 1);
    DictGetLast(e, "length", 2);
    Dict(e)
  }

  function SerializeRegion(r: Region): Value {
    List([Str(r.origin), Str(r.length)])
  }

  /** `MemoryConfig.serialize`. */
  function SerializeMemory(m: MemoryConfig): (d: Value)
    ensures d.Dict?
    ensures DictGet(d.entries, "flash") == SerializeRegion(m.flash)
    ensures DictGet(d.entries, "ram") == SerializeRegion(m.ram)
    ensures m.extraSections.None? ==> DictGet(d.entries, "extra_sections") == Null
    ensures m.extraSections.Some? ==>
      var v := DictGet(d.entries, "extra_sections");
      v.List? && |v.items| == |m.extraSections.value|
      && forall i :: 0 <= i < |v.items| ==> v.items[i] == SerializeSection(m.extraSections.value[i])
  {
    var extras := match m.extraSections
      case None => Null
      case Some(xs) => List(seq(|xs|, i requires 0 <= i < |xs| => SerializeSection(xs[i])));
    var e := [("flash", SerializeRegion(m.flash)), ("ram", SerializeRegion(m.ram)),
              ("extra_sections", extras)];
    DictGetLast(e, "flash", 0);
    DictGetLast(e, "ram", 1);
    DictGetLast(e, "extra_sections", 2);
    Dict(e)
  }

  /** `CoreConfig.serialize`: `openocd_cfg` is not part of the dict. */
  function SerializeCore(c: CoreConfig): (d: Value)
    ensures d.Dict?
    ensures DictGet(d.entries, "core") == Str(c.core)
    ensures DictGet(d.entries, "arch") == Str(c.arch)
    ensures DictGet(d.entries, "memory") == SerializeMemory(c.memory)
    ensures DictGet(d.entries, "debug_configuration") == c.debugConfiguration
    ensures DictGet(d.entries, "openocd_cfg") == Null
  {
    var e := [("core", Str(c.core)), ("arch", Str(c.arch)), ("memory", SerializeMemory(c.memory)),
              ("debug_configuration", c.debugConfiguration)];
    CoreEntries(e);
    Dict(e)
  }

  /** The lookups in the four-entry dict `CoreConfig.serialize` builds. */
  lemma CoreEntries(e: seq<(string, Value)>)
    requires |e| == 4 && e[0].0 == "core" && e[1].0 == "arch" && e[2].0 == "memory"
    requires e[3].0 == "debug_configuration"
    ensures DictGet(e, "core") == e[0].1 && DictGet(e, "arch") == e[1].1
    ensures DictGet(e, "memory") == e[2].1 && DictGet(e, "debug_configuration") == e[3].1
    ensures DictGet(e, "openocd_cfg") == Null
  {
    assert "core"[0] != "arch"[0];
    DictGetLast(e, "core", 0);
    DictGetLast(e, "arch", 1);
    DictGetLast(e, "memory", 2);
    DictGetLast(e, "debug_configuration", 3);
    assert forall i :: 0 <= i < |e| ==> |e[i].0| != 11;
    DictGetAbsent(e, "openocd_cfg");
  }

  /** `ProjectConfig.serialize`. */
  function SerializeProject(p: ProjectConfig): (d: Value)
    ensures d.Dict?
    ensures DictGet(d.entries, "mcu_family") == Str(p.mcuFamily)
    ensures var v := DictGet(d.entries, "config");
      v.List? && |v.items| == |p.config|
      && forall i :: 0 <= i < |v.items| ==> v.items[i] == SerializeCore(p.config[i])
    ensures DictGet(d.entries, "directories") == p.directories
    ensures DictGet(d.entries, "arch") == p.arch
    ensures DictGet(d.entries, "debug_configuration") == p.debugConfiguration
  {
    var cores := List(seq(|p.config|, i requires 0 <= i < |p.config| => SerializeCore(p.config[i])));
    var e := [("mcu_family", Str(p.mcuFamily)), ("config", cores), ("directories", p.directories),
              ("arch", p.arch), ("debug_configuration", p.debugConfiguration)];
    DictGetLast(e, "mcu_family", 0);
    DictGetLast(e, "config", 1);
    DictGetLast(e, "directories", 2);
    DictGetLast(e, "arch", 3);
    DictGetLast(e, "debug_configuration", 4);
    Dict(e)
  }

  // ---------------------------------------------------------------------
  // Properties
  // ---------------------------------------------------------------------

  /** Rebuilding an `ExtraMemorySection` from its serialized dict gives an
      equal section. */
  lemma SectionRoundTrip(s: ExtraMemorySection, limits: Limits)
    requires ValidSection(s, limits)
    ensures var d := SerializeSection(s).entries;
      NewExtraMemorySection(DictGet(d, "memory_type"), DictGet(d, "origin"), DictGet(d, "length"), limits)
        == Success(s)
  {
  }

  /** Two cores that differ only in `openocd_cfg` serialize to the same dict,
      so a `CoreConfig` cannot be rebuilt from its serialized form. */
  lemma SerializeCoreForgetsOpenOcd(c: CoreConfig, other: OpenOcdCfg)
    ensures SerializeCore(c) == SerializeCore(c.(openocdCfg := other))
  {
  }

  /** An illustration of `ValidateMemorySize` on concrete values: "128K"
      and "128k" pass for the default unit list ["K"]. */
  lemma MemorySizeAccepted()
    ensures IsMemorySize("128K", ["K"]) && IsMemorySize("128k", ["K"])
  {
    assert SizeWithUnit("128K", "K") by { assert "128K"[..3] == "128"; }
    assert SizeWithUnit("128k", "K") by { assert "128k"[..3] == "128"; }
    assert ["K"][0] == "K";
  }

  /** An illustration of `ValidateMemorySize` on concrete values: "127K"
      (an odd number), "128M" (not a listed unit) and "K" (no number)
      fail. */
  lemma MemorySizeRejected()
    ensures !IsMemorySize("127K", ["K"]) && !IsMemorySize("128M", ["K"]) && !IsMemorySize("K", ["K"])
  {
    assert ["K"][0] == "K";
    assert !SizeWithUnit("127K", "K") by { assert "127K"[..3] == "127"; }
    assert !SizeWithUnit("128M", "K") by { assert LowerChar("128M"[3]) != LowerChar("K"[0]); }
    assert !SizeWithUnit("K", "K") by { assert "K"[..0] == ""; }
  }

  /** An illustration of `ValidateHexadecimal` on concrete values, for the
      default range 6..8. */
  lemma HexadecimalExamples()
    ensures IsHexadecimal("0x08000000", 6, 8) && IsHexadecimal("0x2000aBcD", 6, 8)
    ensures !IsHexadecimal("0X08000000", 6, 8) && !IsHexadecimal("0x08000", 6, 8)
    ensures !IsHexadecimal("0x080000000", 6, 8) && !IsHexadecimal("0x0800000g", 6, 8)
  {
    assert "0X08000000"[..2][1] != "0x"[1];
    assert !IsHexDigit("0x0800000g"[9]);
  }
}
