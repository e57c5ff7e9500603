/** Makefile text generation: rendering a rule table, appending the rules
    a Makefile does not have yet, prepending variable declarations, and
    making a core name usable as a rule name. Files are their contents;
    `None` is a file that does not exist. */
module Makefile {
  import opened Wrappers
  import opened Text

  /** A rule's commands: a single string is one command. */
  datatype CommandSpec = One(command: string) | Many(commands: seq<string>)

  /** A rule's value in the rules mapping: the commands alone, or a dict with
      optional `dependencies` and a `command` entry. */
  datatype RuleDetails =
    | Plain(spec: CommandSpec)
    | Table(dependencies: Option<seq<string>>, command: CommandSpec)

  datatype Rule = Rule(name: string, details: RuleDetails)

  function Commands(d: RuleDetails): seq<string> {
    var spec := if d.Table? then d.command else d.spec;
    match spec
    case One(c) => [c]
    case Many(cs) => cs
  }

  /** `name: d1 d2 ...` when the details name dependencies, else `name:`. */
  function Header(r: Rule): string {
    if r.details.Table? && r.details.dependencies.Some? then
      r.name + ": " + Join(" ", r.details.dependencies.value) + "\n"
    else r.name + ":\n"
  }

  /** Each command on its own line, after a tab. */
  function CommandLines(cs: seq<string>): string {
    if cs == [] then "" else "\t" + cs[0] + "\n" + CommandLines(cs[1..])
  }

  /** One rule as `create_makefile` writes it, blank line included. */
  function RuleText(r: Rule): string {
    Header(r) + CommandLines(Commands(r.details)) + "\n"
  }

  /** The whole file `create_makefile` writes. */
  function Rendered(rules: seq<Rule>): string {
    if rules == [] then "" else RuleText(rules[0]) + Rendered(rules[1..])
  }

  /** `create_makefile`: the rules in the mapping's order. */
  method CreateMakefile(rules: seq<Rule>) returns (content: string)
    ensures content == Rendered(rules)
  {
    content := "";
    var i := 0;
    while i < |rules|
      invariant 0 <= i <= |rules|
      invariant content == Rendered(rules[..i])
    {
      var text := WriteRule(rules[i]);
      RenderedSnoc(rules, i);
      content := content + text;
      i := i + 1;
    }
    assert rules[..i] == rules;
  }

  /** The text written for one rule: its header, a tab-indented line per
      command, and a blank line. */
  method WriteRule(rule: Rule) returns (text: string)
    ensures text == RuleText(rule)
  {
    text := Header(rule);
    var commands := Commands(rule.details);
    var j := 0;
    while j < |commands|
      invariant 0 <= j <= |commands|
      invariant text == Header(rule) + CommandLines(commands[..j])
    {
      CommandLinesSnoc(commands, j);
      text := text + "\t" + commands[j] + "\n";
      j := j + 1;
    }
    assert commands[..j] == commands;
    text := text + "\n";
  }

  lemma {:induction false} CommandLinesAppend(a: seq<string>, b: seq<string>)
    ensures CommandLines(a + b) == CommandLines(a) + CommandLines(b)
  {
    if a == [] {
      assert a + b == b;
    } else {
      assert (a + b)[1..] == a[1..] + b;
      CommandLinesAppend(a[1..], b);
    }
  }

  lemma CommandLinesSnoc(cs: seq<string>, j: nat)
    requires j < |cs|
    ensures CommandLines(cs[..j + 1]) == CommandLines(cs[..j]) + "\t" + cs[j] + "\n"
  {
    assert cs[..j + 1] == cs[..j] + [cs[j]];
    CommandLinesAppend(cs[..j], [cs[j]]);
    assert [cs[j]][1..] == [];
  }

  lemma {:induction false} RenderedAppend(a: seq<Rule>, b: seq<Rule>)
    ensures Rendered(a + b) == Rendered(a) + Rendered(b)
  {
    if a == [] {
      assert a + b == b;
    } else {
      assert (a + b)[1..] == a[1..] + b;
      RenderedAppend(a[1..], b);
    }
  }

  lemma RenderedSnoc(rules: seq<Rule>, i: nat)
    requires i < |rules|
    ensures Rendered(rules[..i + 1]) == Rendered(rules[..i]) + RuleText(rules[i])
  {
    assert rules[..i + 1] == rules[..i] + [rules[i]];
    RenderedAppend(rules[..i], [rules[i]]);
    assert [rules[i]][1..] == [];
  }

  // ---------------------------------------------------------------------
  // Lines and the existing rule names
  // ---------------------------------------------------------------------

  /** `s.splitlines()`, breaking at every line-break character (a "\r\n"
      pair gives an extra empty line, which has no rule name in it). Each
      character either ends the first line or is put in front of it. */
  function Lines(s: string): (r: seq<string>)
    ensures s != [] ==> r != []
  {
    if s == [] then [] else ConsLines(s[0], Lines(s[1..]))
  }

  /** A character put in front of lines `ls`: a line break starts a new,
      empty first line; any other character joins the first line. */
  function ConsLines(x: char, ls: seq<string>): seq<string> {
    if IsLineBreak(x) then [""] + ls
    else if ls == [] then [[x]]
    else [[x] + ls[0]] + ls[1..]
  }

  /** `line.split(':')[0]`: the longest prefix of `line` without a `:`,
      which is followed by the first `:` when the line has one. */
  function BeforeColon(line: string): (r: string)
    ensures ':' !in r
    ensures StartsWith(line, r)
    ensures |r| < |line| ==> line[|r|] == ':'
    ensures ':' !in line ==> r == line
  {
    if line == [] || line[0] == ':' then [] else [line[0]] + BeforeColon(line[1..])
  }

  /** The rule names of a sequence of lines: the stripped text before the
      first `:` of every line with a `:`. */
  function NamesIn(ls: seq<string>): set<string> {
    if ls == [] then {}
    else (if ':' in ls[0] then {Strip(BeforeColon(ls[0]))} else {}) + NamesIn(ls[1..])
  }

  /** The names of the rules a Makefile already has. */
  function RuleNames(content: string): set<string> {
    NamesIn(Lines(content))
  }

  lemma {:induction false} NamesInAppend(a: seq<string>, b: seq<string>)
    ensures NamesIn(a + b) == NamesIn(a) + NamesIn(b)
  {
    if a == [] {
      assert a + b == b;
    } else {
      assert (a + b)[1..] == a[1..] + b;
      NamesInAppend(a[1..], b);
    }
  }

  predicate NoLineBreak(s: string) {
    forall k :: 0 <= k < |s| ==> !IsLineBreak(s[k])
  }

  /** `Lines` on a text given as its first character and the rest. */
  lemma LinesCons(x: char, t: string)
    ensures Lines([x] + t) == ConsLines(x, Lines(t))
  {
    assert ([x] + t)[1..] == t;
  }

  /** Extending the first line, then appending more lines. */
  lemma JoinFirst(x: char, ls: seq<string>, more: seq<string>)
    requires ls != []
    ensures [[x] + (ls + more)[0]] + (ls + more)[1..] == ([[x] + ls[0]] + ls[1..]) + more
  {
    assert (ls + more)[1..] == ls[1..] + more;
  }

  /** Splitting after a line break splits each part on its own. */
  lemma {:induction false} LinesAppend(a: string, b: string)
    requires a != [] ==> IsLineBreak(a[|a| - 1])
    ensures Lines(a + b) == Lines(a) + Lines(b)
  {
    if a == [] {
      assert a + b == b;
    } else {
      LinesAppendStep(a, b);
    }
  }

  /** Putting a character in front commutes with appending lines, unless
      there were no lines to put it on. */
  lemma ConsLinesAppend(x: char, ls: seq<string>, more: seq<string>)
    requires ls != [] || IsLineBreak(x)
    ensures ConsLines(x, ls + more) == ConsLines(x, ls) + more
  {
    if IsLineBreak(x) {
      assert [""] + (ls + more) == ([""] + ls) + more;
    } else {
      JoinFirst(x, ls, more);
    }
  }

  lemma {:induction false} LinesAppendStep(a: string, b: string)
    requires a != [] && IsLineBreak(a[|a| - 1])
    ensures Lines(a + b) == Lines(a) + Lines(b)
    decreases |a|, 0
  {
    var x := a[0];
    var t := a[1..];
    assert a == [x] + t;
    assert a + b == [x] + (t + b);
    LinesCons(x, t + b);
    LinesCons(x, t);
    if t == [] {
      assert t + b == b;
    } else {
      assert t[|t| - 1] == a[|a| - 1];
      LinesAppendStep(t, b);
      ConsLinesAppend(x, Lines(t), Lines(b));
    }
  }

  /** The lines of a text with one more newline: an extra empty line when
      the text was empty or already ended in a line break. */
  lemma {:induction false} LinesNewline(c: string)
    ensures Lines(c + "\n") == Lines(c) + (if c == [] || IsLineBreak(c[|c| - 1]) then [""] else [])
  {
    if c == [] {
      assert c + "\n" == ['\n'] + [];
      LinesCons('\n', []);
    } else {
      var x := c[0];
      var t := c[1..];
      assert c == [x] + t;
      assert c + "\n" == [x] + (t + "\n");
      LinesCons(x, t + "\n");
      LinesCons(x, t);
      if t == [] {
        LinesNewline(t);
        assert t + "\n" == "\n";
        assert [x] + "" == [x];
      } else {
        assert t[|t| - 1] == c[|c| - 1];
        LinesNewline(t);
        if !IsLineBreak(x) {
          JoinFirst(x, Lines(t), if IsLineBreak(c[|c| - 1]) then [""] else []);
        }
      }
    }
  }

  /** A line without line breaks, then a newline, is read back as that
      line. */
  lemma {:induction false} LinesOneLine(line: string, rest: string)
    requires NoLineBreak(line)
    ensures Lines(line + "\n" + rest) == [line] + Lines(rest)
  {
    if line == [] {
      assert line + "\n" + rest == ['\n'] + rest;
      LinesCons('\n', rest);
    } else {
      var x := line[0];
      var t := line[1..];
      assert line + "\n" + rest == [x] + (t + "\n" + rest);
      LinesCons(x, t + "\n" + rest);
      LinesOneLine(t, rest);
      assert [x] + t == line;
    }
  }

  /** A text that starts with a piece without line breaks has a first line
      that starts with that piece. */
  lemma {:induction false} FirstLineStartsWith(s: string, p: string)
    requires StartsWith(s, p) && NoLineBreak(p) && s != []
    ensures Lines(s) != [] && StartsWith(Lines(s)[0], p)
  {
    if p != [] {
      assert s[0] == p[0];
      if s[1..] != [] {
        assert s[1..][..|p| - 1] == p[1..];
        FirstLineStartsWith(s[1..], p[1..]);
      }
    }
  }
  /** A header line gives back the name it starts with. */
  lemma {:induction false} BeforeColonOfHeader(line: string, name: string)
    requires StartsWith(line, name + ":") && ':' !in name
    ensures BeforeColon(line) == name
  {
    if name != [] {
      assert line[1..][..|name[1..] + ":"|] == name[1..] + ":";
      BeforeColonOfHeader(line[1..], name[1..]);
    } else {
      assert line[0] == ':';
    }
  }

  /** A rule name that the generated header makes recognisable: no `:`, no
      line break, and nothing for `strip` to remove. */
  predicate PlainName(name: string) {
    ':' !in name && NoLineBreak(name) && Strip(name) == name
  }

  /** The name of the rule whose header starts a text is among that text's
      rule names. */
  lemma HeadedNames(s: string, name: string)
    requires PlainName(name) && StartsWith(s, name + ":")
    ensures name in RuleNames(s)
  {
    var p := name + ":";
    assert NoLineBreak(p) by {
      forall k | 0 <= k < |p| ensures !IsLineBreak(p[k]) {
        if k < |name| { assert p[k] == name[k]; }
      }
    }
    FirstLineStartsWith(s, p);
    var l := Lines(s)[0];
    assert l[|name|] == ':';
    BeforeColonOfHeader(l, name);
  }

  /** A rule's text, as either operation writes it, starts with its header,
      which starts with `name:`. */
  lemma StartsWithHeader(r: Rule, rest: string)
    ensures StartsWith(Header(r) + rest, r.name + ":")
  {
    var h := Header(r);
    var p := r.name + ":";
    if r.details.Table? && r.details.dependencies.Some? {
      assert h == p + (" " + Join(" ", r.details.dependencies.value) + "\n");
    } else {
      assert h == p + "\n";
    }
    assert (h + rest)[..|p|] == h[..|p|];
  }

  /** A rule's text hides none of the rules written after it. */
  lemma RuleTextKeepsNames(r: Rule, rest: string)
    ensures RuleNames(rest) <= RuleNames(RuleText(r) + rest)
  {
    var first := RuleText(r);
    assert first[|first| - 1] == '\n';
    LinesAppend(first, rest);
    NamesInAppend(Lines(first), Lines(rest));
  }

  /** A rule's text adds the rule's own name. */
  lemma RuleTextName(r: Rule, rest: string)
    requires PlainName(r.name)
    ensures r.name in RuleNames(RuleText(r) + rest)
  {
    var first := RuleText(r);
    var tail := CommandLines(Commands(r.details)) + "\n";
    assert first == Header(r) + tail;
    LinesAppend(first, rest);
    NamesInAppend(Lines(first), Lines(rest));
    StartsWithHeader(r, tail);
    HeadedNames(first, r.name);
  }

  /** A rule `create_makefile` writes, under a plain name, is found again
      as an existing rule of the file. */
  lemma {:induction false} RenderedNameAt(rules: seq<Rule>, k: nat)
    requires k < |rules| && PlainName(rules[k].name)
    ensures rules[k].name in RuleNames(Rendered(rules))
  {
    var rest := Rendered(rules[1..]);
    assert Rendered(rules) == RuleText(rules[0]) + rest;
    if k == 0 {
      RuleTextName(rules[0], rest);
    } else {
      var r := rules[k];
      assert rules[1..][k - 1] == r;
      RenderedNameAt(rules[1..], k - 1);
      RuleTextKeepsNames(rules[0], rest);
    }
  }

  /** Every rule `create_makefile` writes, under a plain name, is found
      again as an existing rule of the file. */
  lemma RenderedNames(rules: seq<Rule>)
    requires forall k :: 0 <= k < |rules| ==> PlainName(rules[k].name)
    ensures forall k :: 0 <= k < |rules| ==> rules[k].name in RuleNames(Rendered(rules))
  {
    forall k | 0 <= k < |rules| ensures rules[k].name in RuleNames(Rendered(rules)) {
      RenderedNameAt(rules, k);
    }
  }

  // ---------------------------------------------------------------------
  // append_rules_to_makefile
  // ---------------------------------------------------------------------

  /** One rule as `append_rules_to_makefile` writes it: after a newline, and
      without the blank line `create_makefile` puts after a rule. */
  function Block(r: Rule): string {
    "\n" + Header(r) + CommandLines(Commands(r.details))
  }

  /** The rules of `rules` whose name is not in `existing`, in order. */
  function NewRules(rules: seq<Rule>, existing: set<string>): seq<Rule> {
    if rules == [] then []
    else
      var rest := NewRules(rules[1..], existing);
      if rules[0].name in existing then rest else [rules[0]] + rest
  }

  /** The rules written are exactly the given rules whose names are new. */
  lemma {:induction false} NewRulesFilter(rules: seq<Rule>, existing: set<string>)
    ensures forall x :: x in NewRules(rules, existing) <==> x in rules && x.name !in existing
  {
    if rules != [] {
      NewRulesFilter(rules[1..], existing);
      assert rules == [rules[0]] + rules[1..];
    }
  }

  function Blocks(rules: seq<Rule>): string {
    if rules == [] then "" else Block(rules[0]) + Blocks(rules[1..])
  }

  /** What `append_rules_to_makefile` leaves in the file. */
  function Appended(content: string, rules: seq<Rule>): string {
    content + Blocks(NewRules(rules, RuleNames(content)))
  }

  /** `append_rules_to_makefile`: the existing names are collected once,
      then every rule not among them is written at the end. */
  method AppendRulesToMakefile(file: Option<string>, rules: seq<Rule>) returns (r: Option<string>)
    ensures file.None? ==> r.None?
    ensures file.Some? ==> r == Some(Appended(file.value, rules))
  {
    if file.None? {
      return None;
    }
    var existing := RuleNames(file.value);
    var content := AppendBlocks(file.value, rules, existing);
    r := Some(content);
  }

  /** The writing loop of `append_rules_to_makefile`, given the names the
      file already has. */
  method AppendBlocks(content: string, rules: seq<Rule>, existing: set<string>) returns (r: string)
    ensures r == content + Blocks(NewRules(rules, existing))
  {
    r := content;
    var i := 0;
    while i < |rules|
      invariant 0 <= i <= |rules|
      invariant r == content + Blocks(NewRules(rules[..i], existing))
    {
      AppendStep(content, rules, i, existing);
      if rules[i].name !in existing {
        r := r + Block(rules[i]);
      }
      i := i + 1;
    }
    assert rules[..i] == rules;
  }

  /** One more rule looked at: its block is written when its name is new. */
  lemma AppendStep(content: string, rules: seq<Rule>, i: nat, existing: set<string>)
    requires i < |rules|
    ensures content + Blocks(NewRules(rules[..i + 1], existing))
            == content + Blocks(NewRules(rules[..i], existing))
               + (if rules[i].name in existing then "" else Block(rules[i]))
  {
    var before := NewRules(rules[..i], existing);
    NewRulesSnoc(rules, i, existing);
    if rules[i].name !in existing {
      BlocksSnoc(before, rules[i]);
    } else {
      assert before + [] == before;
    }
  }

  lemma NewRulesSnoc(rules: seq<Rule>, i: nat, existing: set<string>)
    requires i < |rules|
    ensures NewRules(rules[..i + 1], existing)
            == NewRules(rules[..i], existing) + (if rules[i].name in existing then [] else [rules[i]])
  {
    NewRulesAppend(rules[..i], [rules[i]], existing);
    assert rules[..i] + [rules[i]] == rules[..i + 1];
  }

  lemma {:induction false} NewRulesAppend(a: seq<Rule>, b: seq<Rule>, existing: set<string>)
    ensures NewRules(a + b, existing) == NewRules(a, existing) + NewRules(b, existing)
  {
    if a == [] {
      assert a + b == b;
    } else {
      assert (a + b)[1..] == a[1..] + b;
      NewRulesAppend(a[1..], b, existing);
    }
  }

  lemma {:induction false} BlocksSnoc(rules: seq<Rule>, r: Rule)
    ensures Blocks(rules + [r]) == Blocks(rules) + Block(r)
  {
    if rules == [] {
      assert rules + [r] == [r];
      assert [r][1..] == [];
    } else {
      assert (rules + [r])[1..] == rules[1..] + [r];
      BlocksSnoc(rules[1..], r);
    }
  }

  /** A newline then a text: the names of both sides, nothing more. */
  lemma NewlineNames(c: string, body: string)
    ensures RuleNames(c) <= RuleNames(c + "\n" + body)
    ensures RuleNames(body) <= RuleNames(c + "\n" + body)
  {
    LinesAppend(c + "\n", body);
    LinesNewline(c);
    NamesInAppend(Lines(c + "\n"), Lines(body));
    var extra: seq<string> := if c == [] || IsLineBreak(c[|c| - 1]) then [""] else [];
    NamesInAppend(Lines(c), extra);
  }

  /** Appending one block keeps the existing names. */
  lemma BlockKeepsNames(c: string, r: Rule)
    ensures RuleNames(c) <= RuleNames(c + Block(r))
  {
    var body := Header(r) + CommandLines(Commands(r.details));
    assert c + Block(r) == c + "\n" + body;
    NewlineNames(c, body);
  }

  /** Appending one block adds its rule's name. */
  lemma BlockAddsName(c: string, r: Rule)
    requires PlainName(r.name)
    ensures r.name in RuleNames(c + Block(r))
  {
    var body := Header(r) + CommandLines(Commands(r.details));
    assert c + Block(r) == c + "\n" + body;
    NewlineNames(c, body);
    StartsWithHeader(r, CommandLines(Commands(r.details)));
    HeadedNames(body, r.name);
  }

  lemma BlocksCons(c: string, rules: seq<Rule>)
    requires rules != []
    ensures c + Blocks(rules) == (c + Block(rules[0])) + Blocks(rules[1..])
  {
  }

  /** Appending blocks keeps the existing names. */
  lemma {:induction false} BlocksKeepNames(c: string, rules: seq<Rule>)
    ensures RuleNames(c) <= RuleNames(c + Blocks(rules))
    decreases |rules|
  {
    if rules == [] {
      assert c + Blocks(rules) == c;
    } else {
      var c' := c + Block(rules[0]);
      BlocksCons(c, rules);
      BlockKeepsNames(c, rules[0]);
      BlocksKeepNames(c', rules[1..]);
    }
  }

  /** A rule name of a text is one of any text equal to it. */
  lemma NameCarried(name: string, s: string, t: string)
    requires s == t && name in RuleNames(t)
    ensures name in RuleNames(s)
  {
  }

  /** Appending blocks adds the name of every block. */
  lemma {:induction false} BlocksNameAt(c: string, rules: seq<Rule>, k: nat)
    requires k < |rules| && PlainName(rules[k].name)
    ensures rules[k].name in RuleNames(c + Blocks(rules))
    decreases k, 1
  {
    if k == 0 {
      var c' := c + Block(rules[0]);
      BlocksCons(c, rules);
      BlockAddsName(c, rules[0]);
      BlocksKeepNames(c', rules[1..]);
    } else {
      BlocksNameLater(c, rules, k);
    }
  }

  /** The name of a later block survives the blocks before it. */
  lemma {:induction false} BlocksNameLater(c: string, rules: seq<Rule>, k: nat)
    requires 0 < k < |rules| && PlainName(rules[k].name)
    ensures rules[k].name in RuleNames(c + Blocks(rules))
    decreases k, 0
  {
    var c' := c + Block(rules[0]);
    var r := rules[k];
    assert rules[1..][k - 1] == r;
    BlocksNameAt(c', rules[1..], k - 1);
    BlocksCons(c, rules);
    NameCarried(r.name, c + Blocks(rules), c' + Blocks(rules[1..]));
  }

  lemma {:induction false} NewRulesNone(rules: seq<Rule>, existing: set<string>)
    requires forall k :: 0 <= k < |rules| ==> rules[k].name in existing
    ensures NewRules(rules, existing) == []
  {
    if rules != [] {
      NewRulesNone(rules[1..], existing);
    }
  }

  /** Appending keeps every rule name the file had. */
  lemma AppendedKeepsNames(c: string, rules: seq<Rule>)
    ensures RuleNames(c) <= RuleNames(Appended(c, rules))
  {
    BlocksKeepNames(c, NewRules(rules, RuleNames(c)));
  }

  /** Appending keeps every rule name the file had and adds the name of
      every rule asked for, whether it was written or already there. */
  lemma AppendedNames(c: string, rules: seq<Rule>)
    requires forall k :: 0 <= k < |rules| ==> PlainName(rules[k].name)
    ensures RuleNames(c) <= RuleNames(Appended(c, rules))
    ensures forall k :: 0 <= k < |rules| ==> rules[k].name in RuleNames(Appended(c, rules))
  {
    var added := NewRules(rules, RuleNames(c));
    assert Appended(c, rules) == c + Blocks(added);
    NewRulesFilter(rules, RuleNames(c));
    AppendedKeepsNames(c, rules);
    forall k | 0 <= k < |rules| ensures rules[k].name in RuleNames(c + Blocks(added)) {
      if rules[k].name !in RuleNames(c) {
        assert rules[k] in added;
        var j :| 0 <= j < |added| && added[j] == rules[k];
        BlocksNameAt(c, added, j);
      }
    }
  }

  /** Appending only ever adds at the end: the old content is a prefix. */
  lemma AppendedKeepsContent(c: string, rules: seq<Rule>)
    ensures StartsWith(Appended(c, rules), c)
  {
  }

  /** Appending the same rules a second time writes nothing. */
  lemma AppendIdempotent(c: string, rules: seq<Rule>)
    requires forall k :: 0 <= k < |rules| ==> PlainName(rules[k].name)
    ensures Appended(Appended(c, rules), rules) == Appended(c, rules)
  {
    var once := Appended(c, rules);
    AppendedNames(c, rules);
    NewRulesNone(rules, RuleNames(once));
    assert Blocks([]) == "";
    assert once + "" == once;
  }

  /** Appending to what `create_makefile` wrote, with the same rules, writes
      nothing. */
  lemma AppendAfterCreate(rules: seq<Rule>)
    requires forall k :: 0 <= k < |rules| ==> PlainName(rules[k].name)
    ensures Appended(Rendered(rules), rules) == Rendered(rules)
  {
    RenderedNames(rules);
    NewRulesNone(rules, RuleNames(Rendered(rules)));
    assert Blocks([]) == "";
  }

  // ---------------------------------------------------------------------
  // sanitize_rule_name
  // ---------------------------------------------------------------------

  /** `sanitize_rule_name`: every `:` becomes `_`. */
  function SanitizeRuleName(core: string): (r: string)
    ensures |r| == |core| && ':' !in r
    ensures forall k :: 0 <= k < |core| ==> r[k] == (if core[k] == ':' then '_' else core[k])
  {
    ReplaceAllChar(core, ':', '_');
    ReplaceAll(core, ":", "_")
  }

  // ---------------------------------------------------------------------
  // prepend_variables_to_makefile
  // ---------------------------------------------------------------------

  /** A variable's value in the mapping: the value alone, or a dict with
      optional `value` and `operator` entries. */
  datatype VariableDetails =
    | Direct(direct: string)
    | Settings(value: Option<string>, operator: Option<string>)

  datatype Variable = Variable(name: string, details: VariableDetails)

  /** `NAME OP VALUE`, the operator defaulting to `:=` and the value to the
      empty string. */
  function Declaration(v: Variable): string {
    match v.details
    case Direct(value) => v.name + " :=" + " " + value + "\n"
    case Settings(value, operator) => v.name + " " + operator.GetOr(":=") + " " + value.GetOr("") + "\n"
  }

  function Declarations(vars: seq<Variable>): string {
    if vars == [] then "" else Declaration(vars[0]) + Declarations(vars[1..])
  }

  /** `prepend_variables_to_makefile`. */
  method PrependVariablesToMakefile(file: Option<string>, vars: seq<Variable>) returns (r: Option<string>)
    ensures file.None? ==> r.None?
    ensures file.Some? ==> r == Some(Declarations(vars) + "\n" + file.value)
  {
    if file.None? {
      return None;
    }
    var newContent := "";
    var i := 0;
    while i < |vars|
      invariant 0 <= i <= |vars|
      invariant newContent == Declarations(vars[..i])
    {
      var line := WriteDeclaration(vars[i]);
      DeclarationsSnoc(vars, i);
      newContent := newContent + line;
      i := i + 1;
    }
    assert vars[..i] == vars;
    r := Some(newContent + "\n" + file.value);
  }

  /** One declaration line, its missing parts defaulted. */
  method WriteDeclaration(v: Variable) returns (line: string)
    ensures line == Declaration(v)
  {
    var value, operator;
    match v.details {
      case Settings(val, op) =>
        value := val.GetOr("");
        operator := op.GetOr(":=");
      case Direct(val) =>
        value := val;
        operator := ":=";
    }
    line := v.name + " " + operator + " " + value + "\n";
  }

  lemma {:induction false} DeclarationsAppend(a: seq<Variable>, b: seq<Variable>)
    ensures Declarations(a + b) == Declarations(a) + Declarations(b)
  {
    if a == [] {
      assert a + b == b;
    } else {
      assert (a + b)[1..] == a[1..] + b;
      DeclarationsAppend(a[1..], b);
    }
  }

  lemma DeclarationsSnoc(vars: seq<Variable>, i: nat)
    requires i < |vars|
    ensures Declarations(vars[..i + 1]) == Declarations(vars[..i]) + Declaration(vars[i])
  {
    assert vars[..i + 1] == vars[..i] + [vars[i]];
    DeclarationsAppend(vars[..i], [vars[i]]);
    assert [vars[i]][1..] == [];
  }

  /** The declaration of `v` without its newline. */
  function DeclarationLine(v: Variable): string {
    var d := Declaration(v);
    d[..|d| - 1]
  }

  /** The declarations' lines, without their newlines. */
  function DeclarationLines(vars: seq<Variable>): seq<string> {
    if vars == [] then [] else [DeclarationLine(vars[0])] + DeclarationLines(vars[1..])
  }

  /** A declaration written on one line. */
  predicate OneLine(v: Variable) {
    NoLineBreak(DeclarationLine(v))
  }

  /** Read back line by line, the new file is one line per declaration, a
      blank line, then the lines of the old content, unchanged. */
  lemma {:induction false} PrependedLines(vars: seq<Variable>, content: string)
    requires forall k :: 0 <= k < |vars| ==> OneLine(vars[k])
    ensures Lines(Declarations(vars) + "\n" + content)
            == DeclarationLines(vars) + [""] + Lines(content)
  {
    if vars == [] {
      assert Declarations(vars) + "\n" + content == ['\n'] + content;
      LinesCons('\n', content);
    } else {
      var line := DeclarationLine(vars[0]);
      var rest := Declarations(vars[1..]) + "\n" + content;
      assert forall k :: 0 <= k < |vars| - 1 ==> vars[1..][k] == vars[k + 1];
      PrependedLines(vars[1..], content);
      DeclarationSplit(vars, content);
      LinesOneLine(line, rest);
      RegroupLines(line, DeclarationLines(vars[1..]), Lines(content));
    }
  }

  /** The first declaration is its line and a newline. */
  lemma DeclarationSplit(vars: seq<Variable>, content: string)
    requires vars != []
    ensures Declarations(vars) + "\n" + content
            == DeclarationLine(vars[0]) + "\n" + (Declarations(vars[1..]) + "\n" + content)
  {
    var d := Declaration(vars[0]);
    assert d == DeclarationLine(vars[0]) + "\n";
    Reassociate(Declarations(vars), d, Declarations(vars[1..]), DeclarationLine(vars[0]), content);
  }

  lemma Reassociate(whole: string, d: string, ds: string, line: string, content: string)
    requires whole == d + ds && d == line + "\n"
    ensures whole + "\n" + content == line + "\n" + (ds + "\n" + content)
  {
  }

  lemma RegroupLines(line: string, ls: seq<string>, more: seq<string>)
    ensures [line] + (ls + [""] + more) == ([line] + ls) + [""] + more
  {
  }

  /** Prepending declarations keeps every rule name of the file. */
  lemma PrependedNames(vars: seq<Variable>, content: string)
    requires forall k :: 0 <= k < |vars| ==> OneLine(vars[k])
    ensures RuleNames(content) <= RuleNames(Declarations(vars) + "\n" + content)
  {
    PrependedLines(vars, content);
    NamesInAppend(DeclarationLines(vars) + [""], Lines(content));
  }
}
