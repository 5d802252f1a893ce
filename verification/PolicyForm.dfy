/** Reading policies from raw documents, printing them in normal form, and exchanging them as packs. */
module PolicyForm {
  import opened Texts
  import opened Entities

  /** Library behaviour nothing here depends on: `str` of values that are no text, the order
      in which a mapping's keys are iterated, and the hex digest of a normalized policy. */
  datatype Library = Library(str: Json -> string, keys: Arguments -> seq<string>, hex: Arguments -> string)

  datatype PolicyRule = PolicyRule(
    id: string,
    tool: string,
    effect: string,
    reason: string,
    paths: seq<string>,
    commandPatterns: seq<string>,
    argvPatterns: seq<seq<string>>)

  datatype HookRule = HookRule(id: string, tool: string, action: string, reason: string, pathGlob: Option<string>)

  datatype Policy = Policy(
    projectRoot: string,
    mode: string,
    rules: seq<PolicyRule>,
    hooks: seq<HookRule>,
    finalAnswerMode: string,
    verificationMode: string,
    ttl: int,
    version: string)

  const POLICY_VERSION := "agenttrust.policy/v1"

  // ----- Reading raw values -----

  function Get(raw: Arguments, key: string, default: Json): Json {
    if key in raw then raw[key] else default
  }

  predicate Falsy(j: Json) {
    match j
    case JNull => true
    case JBool(flag) => !flag
    case JInt(n) => n == 0
    case JText(s) => s == ""
    case JList(items) => items == []
    case JObject(fields) => fields == map[]
  }

  function Str(lib: Library, j: Json): string {
    if j.JText? then j.text else lib.str(j)
  }

  /** `raw.get(key, {}) or {}`, where only a mapping will do. */
  function Mapping(raw: Arguments, key: string): Option<Arguments> {
    var j := Get(raw, key, JObject(map[]));
    if Falsy(j) then Some(map[]) else if j.JObject? then Some(j.fields) else None
  }

  /** Iterating over `raw.get(key, ()) or ()`: a list by items, a text by characters, a
      mapping by keys; None where the value cannot be iterated. */
  function Items(lib: Library, raw: Arguments, key: string): Option<seq<Json>> {
    var j := Get(raw, key, JList([]));
    if Falsy(j) then Some([])
    else
      match j
      case JList(items) => Some(items)
      case JText(s) => Some(TextList(Characters(s)))
      case JObject(fields) => Some(TextList(lib.keys(fields)))
      case _ => None
  }

  function Characters(s: string): seq<string> {
    if s == "" then [] else [[s[0]]] + Characters(s[1..])
  }

  function TextList(texts: seq<string>): (r: seq<Json>)
    ensures |r| == |texts|
  {
    if texts == [] then [] else [JText(texts[0])] + TextList(texts[1..])
  }

  function Strs(lib: Library, items: seq<Json>): seq<string> {
    if items == [] then [] else [Str(lib, items[0])] + Strs(lib, items[1..])
  }

  // ----- Rules -----

  predicate PatternShape(j: Json) {
    && j.JList? && j.items != []
    && forall i | 0 <= i < |j.items| :: j.items[i].JText? && j.items[i].text != ""
  }

  function ParsePatterns(lib: Library, items: seq<Json>): Option<seq<seq<string>>> {
    if items == [] then Some([])
    else if !PatternShape(items[0]) then None
    else
      var rest := ParsePatterns(lib, items[1..]);
      if rest.None? then None else Some([Strs(lib, items[0].items)] + rest.value)
  }

  function ArgvPatterns(lib: Library, raw: Arguments): Option<seq<seq<string>>> {
    var j := Get(raw, "argv_patterns", JList([]));
    if Falsy(j) then Some([]) else if j.JList? then ParsePatterns(lib, j.items) else None
  }

  predicate Effect(s: string) { s in {"allow", "ask", "deny"} }

  function RuleFromDict(lib: Library, raw: Arguments): Option<PolicyRule> {
    var effect := Str(lib, Get(raw, "effect", JText("deny")));
    var argv := ArgvPatterns(lib, raw);
    var paths := Items(lib, raw, "paths");
    var commands := Items(lib, raw, "command_patterns");
    if !Effect(effect) || argv.None? || "tool" !in raw || paths.None? || commands.None? then None
    else
      Some(PolicyRule(
        Str(lib, Get(raw, "id", JText("unnamed-rule"))),
        Str(lib, raw["tool"]),
        effect,
        Str(lib, Get(raw, "reason", JText(""))),
        Strs(lib, paths.value),
        Strs(lib, commands.value),
        argv.value))
  }

  function PatternList(patterns: seq<seq<string>>): (r: seq<Json>)
    ensures |r| == |patterns|
  {
    if patterns == [] then [] else [JList(TextList(patterns[0]))] + PatternList(patterns[1..])
  }

  function RuleToDict(r: PolicyRule): Arguments {
    map["id" := JText(r.id), "tool" := JText(r.tool), "effect" := JText(r.effect), "reason" := JText(r.reason)]
    + (if r.paths == [] then map[] else map["paths" := JList(TextList(r.paths))])
    + (if r.commandPatterns == [] then map[] else map["command_patterns" := JList(TextList(r.commandPatterns))])
    + (if r.argvPatterns == [] then map[] else map["argv_patterns" := JList(PatternList(r.argvPatterns))])
  }

  /** The loop over the raw argv patterns; None where it raises. */
  method CollectPatterns(lib: Library, items: seq<Json>) returns (r: Option<seq<seq<string>>>)
    ensures r == ParsePatterns(lib, items)
  {
    hide Strs;
    var patterns: seq<seq<string>> := [];
    assert items[0..] == items;
    assert forall rest: seq<seq<string>> :: [] + rest == rest;
    for i := 0 to |items|
      invariant var rest := ParsePatterns(lib, items[i..]);
                ParsePatterns(lib, items) == if rest.None? then None else Some(patterns + rest.value)
    {
      assert items[i..][1..] == items[i + 1..];
      if !PatternShape(items[i]) {
        return None;
      }
      ghost var before := patterns;
      ghost var rest := ParsePatterns(lib, items[i + 1..]);
      patterns := patterns + [Strs(lib, items[i].items)];
      assert rest.Some? ==> patterns + rest.value == before + ([Strs(lib, items[i].items)] + rest.value);
    }
    assert patterns + [] == patterns;
    r := Some(patterns);
  }

  method ReadArgvPatterns(lib: Library, raw: Arguments) returns (r: Option<seq<seq<string>>>)
    ensures r == ArgvPatterns(lib, raw)
  {
    hide ParsePatterns;
    var rawPatterns := Get(raw, "argv_patterns", JList([]));
    if Falsy(rawPatterns) {
      return Some([]);
    }
    if !rawPatterns.JList? {
      return None;
    }
    r := CollectPatterns(lib, rawPatterns.items);
  }

  /** `PolicyRule.from_dict`. */
  method PolicyRuleFromDict(lib: Library, raw: Arguments) returns (r: Option<PolicyRule>)
    ensures r == RuleFromDict(lib, raw)
  {
    hide ArgvPatterns, Items, Strs, Str, Get;
    var effect := Str(lib, Get(raw, "effect", JText("deny")));
    if !Effect(effect) {
      return None;
    }
    var patterns := ReadArgvPatterns(lib, raw);
    if patterns.None? || "tool" !in raw {
      return None;
    }
    var paths := Items(lib, raw, "paths");
    var commands := Items(lib, raw, "command_patterns");
    if paths.None? || commands.None? {
      return None;
    }
    r := Some(PolicyRule(
      Str(lib, Get(raw, "id", JText("unnamed-rule"))), Str(lib, raw["tool"]), effect,
      Str(lib, Get(raw, "reason", JText(""))), Strs(lib, paths.value), Strs(lib, commands.value), patterns.value));
  }

  /** `PolicyRule.to_dict`, filling the payload step by step. */
  method PolicyRuleToDict(r: PolicyRule) returns (payload: Arguments)
    ensures payload == RuleToDict(r)
  {
    payload := map[
      "id" := JText(r.id), "tool" := JText(r.tool), "effect" := JText(r.effect), "reason" := JText(r.reason)];
    if r.paths != [] {
      payload := payload["paths" := JList(TextList(r.paths))];
    }
    if r.commandPatterns != [] {
      payload := payload["command_patterns" := JList(TextList(r.commandPatterns))];
    }
    if r.argvPatterns != [] {
      payload := payload["argv_patterns" := JList(PatternList(r.argvPatterns))];
    }
  }

  predicate NormalPattern(pattern: seq<string>) {
    pattern != [] && forall i | 0 <= i < |pattern| :: pattern[i] != ""
  }

  predicate NormalRule(r: PolicyRule) {
    Effect(r.effect) && forall i | 0 <= i < |r.argvPatterns| :: NormalPattern(r.argvPatterns[i])
  }

  // ----- Hooks -----

  function HookFromDict(lib: Library, raw: Arguments): Option<HookRule> {
    var j := Get(raw, "when", JObject(map[]));
    var when := if j.JObject? then j.fields else map[];
    var glob := Get(raw, "path_glob", Get(when, "path_glob", JNull));
    var action := Str(lib, Get(raw, "action", JText("deny")));
    if action != "deny" then None
    else
      Some(HookRule(
        Str(lib, Get(raw, "id", JText("unnamed-hook"))),
        Str(lib, Get(raw, "tool", Get(when, "tool", JText("*")))),
        action,
        Str(lib, Get(raw, "reason", JText("blocked by hook"))),
        if glob.JNull? then None else Some(Str(lib, glob))))
  }

  function HookToDict(h: HookRule): Arguments {
    var when :=
      map["tool" := JText(h.tool)]
      + (if h.pathGlob.None? then map[] else map["path_glob" := JText(h.pathGlob.value)]);
    map["id" := JText(h.id), "when" := JObject(when), "action" := JText(h.action), "reason" := JText(h.reason)]
  }

  // ----- Policies -----

  function ParseRules(lib: Library, items: seq<Json>): Option<seq<PolicyRule>> {
    if items == [] then Some([])
    else if !items[0].JObject? then None
    else
      var rule := RuleFromDict(lib, items[0].fields);
      var rest := ParseRules(lib, items[1..]);
      if rule.None? || rest.None? then None else Some([rule.value] + rest.value)
  }

  function ParseHooks(lib: Library, items: seq<Json>): Option<seq<HookRule>> {
    if items == [] then Some([])
    else if !items[0].JObject? then None
    else
      var hook := HookFromDict(lib, items[0].fields);
      var rest := ParseHooks(lib, items[1..]);
      if hook.None? || rest.None? then None else Some([hook.value] + rest.value)
  }

  function RuleList(rules: seq<PolicyRule>): (r: seq<Json>)
    ensures |r| == |rules|
  {
    if rules == [] then [] else [JObject(RuleToDict(rules[0]))] + RuleList(rules[1..])
  }

  function HookList(hooks: seq<HookRule>): (r: seq<Json>)
    ensures |r| == |hooks|
  {
    if hooks == [] then [] else [JObject(HookToDict(hooks[0]))] + HookList(hooks[1..])
  }

  predicate AnswerMode(s: string) { s in {"warn", "deny_completion", "require_revision"} }

  predicate VerificationMode(s: string) { s in {"fallback", "groundguard_required"} }

  /** The `pre_tool` hooks of the `hooks` section, parsed; None where reading them raises. */
  function HooksOf(lib: Library, raw: Arguments): Option<seq<HookRule>> {
    var hooks := Mapping(raw, "hooks");
    if hooks.None? then None
    else
      var items := Items(lib, hooks.value, "pre_tool");
      if items.None? then None else ParseHooks(lib, items.value)
  }

  function RulesOf(lib: Library, raw: Arguments): Option<seq<PolicyRule>> {
    var items := Items(lib, raw, "rules");
    if items.None? then None else ParseRules(lib, items.value)
  }

  /** `Policy.from_dict`; None where it raises. */
  function FromDict(lib: Library, raw: Arguments): Option<Policy> {
    var version := Str(lib, Get(raw, "policy_version", JText(POLICY_VERSION)));
    var answer, verification := Mapping(raw, "final_answer"), Mapping(raw, "verification");
    var approvals := Mapping(raw, "approvals");
    var rules, hooks := RulesOf(lib, raw), HooksOf(lib, raw);
    if version != POLICY_VERSION || answer.None? || verification.None? || approvals.None? || rules.None? || hooks.None?
    then None
    else
      var answerMode := Str(lib, Get(answer.value, "on_incomplete", JText("warn")));
      var verificationMode := Str(lib, Get(verification.value, "mode", JText("fallback")));
      var ttl := Get(approvals.value, "default_ttl_seconds", JInt(3600));
      if !AnswerMode(answerMode) || !VerificationMode(verificationMode) || !ttl.JInt? || ttl.number <= 0 then None
      else
        Some(Policy(
          Str(lib, Get(raw, "project_root", JText("."))),
          Str(lib, Get(raw, "mode", JText("default"))),
          rules.value, hooks.value, answerMode, verificationMode, ttl.number, version))
  }

  /** `Policy.to_dict`: the normal form. */
  function ToDict(p: Policy): Arguments {
    map[
      "policy_version" := JText(p.version),
      "project_root" := JText(p.projectRoot),
      "mode" := JText(p.mode),
      "final_answer" := JObject(map["on_incomplete" := JText(p.finalAnswerMode)]),
      "verification" := JObject(map["mode" := JText(p.verificationMode)]),
      "approvals" := JObject(map["default_ttl_seconds" := JInt(p.ttl)]),
      "rules" := JList(RuleList(p.rules))]
    + (if p.hooks == [] then map[] else map["hooks" := JObject(map["pre_tool" := JList(HookList(p.hooks))])])
  }

  /** `Policy.to_dict`, filling the payload step by step. */
  method PolicyToDict(p: Policy) returns (payload: Arguments)
    ensures payload == ToDict(p)
  {
    payload := map[
      "policy_version" := JText(p.version),
      "project_root" := JText(p.projectRoot),
      "mode" := JText(p.mode),
      "final_answer" := JObject(map["on_incomplete" := JText(p.finalAnswerMode)]),
      "verification" := JObject(map["mode" := JText(p.verificationMode)]),
      "approvals" := JObject(map["default_ttl_seconds" := JInt(p.ttl)]),
      "rules" := JList(RuleList(p.rules))];
    if p.hooks != [] {
      payload := payload["hooks" := JObject(map["pre_tool" := JList(HookList(p.hooks))])];
    }
  }

  /** The policies there are: what the constructors and the parser let through. */
  predicate NormalPolicy(p: Policy) {
    && p.version == POLICY_VERSION && AnswerMode(p.finalAnswerMode) && VerificationMode(p.verificationMode) && p.ttl > 0
    && (forall i | 0 <= i < |p.rules| :: NormalRule(p.rules[i]))
    && (forall i | 0 <= i < |p.hooks| :: p.hooks[i].action == "deny")
  }

  // ----- Only policies in normal range are read -----

  lemma {:induction false} ParsedPatternsAreNormal(lib: Library, items: seq<Json>)
    requires ParsePatterns(lib, items).Some?
    ensures forall i | 0 <= i < |ParsePatterns(lib, items).value| :: NormalPattern(ParsePatterns(lib, items).value[i])
  {
    if items != [] {
      ParsedPatternsAreNormal(lib, items[1..]);
      StrsOfTexts(lib, items[0].items);
    }
  }

  lemma {:induction false} StrsOfTexts(lib: Library, items: seq<Json>)
    requires forall i | 0 <= i < |items| :: items[i].JText?
    ensures |Strs(lib, items)| == |items|
    ensures forall i | 0 <= i < |items| :: Strs(lib, items)[i] == items[i].text
  {
    if items != [] {
      StrsOfTexts(lib, items[1..]);
    }
  }

  lemma ReadRuleIsNormal(lib: Library, raw: Arguments)
    requires RuleFromDict(lib, raw).Some?
    ensures NormalRule(RuleFromDict(lib, raw).value)
  {
    var j := Get(raw, "argv_patterns", JList([]));
    if !Falsy(j) {
      ParsedPatternsAreNormal(lib, j.items);
    }
  }

  lemma {:induction false} ReadRulesAreNormal(lib: Library, items: seq<Json>)
    requires ParseRules(lib, items).Some?
    ensures forall i | 0 <= i < |ParseRules(lib, items).value| :: NormalRule(ParseRules(lib, items).value[i])
  {
    if items != [] {
      ReadRulesAreNormal(lib, items[1..]);
      ReadRuleIsNormal(lib, items[0].fields);
    }
  }

  lemma {:induction false} ReadHooksAreNormal(lib: Library, items: seq<Json>)
    requires ParseHooks(lib, items).Some?
    ensures forall i | 0 <= i < |ParseHooks(lib, items).value| :: ParseHooks(lib, items).value[i].action == "deny"
  {
    if items != [] {
      ReadHooksAreNormal(lib, items[1..]);
    }
  }

  lemma ReadPolicyIsNormal(lib: Library, raw: Arguments)
    requires FromDict(lib, raw).Some?
    ensures NormalPolicy(FromDict(lib, raw).value)
  {
    ReadRulesAreNormal(lib, Items(lib, raw, "rules").value);
    ReadHooksAreNormal(lib, Items(lib, Mapping(raw, "hooks").value, "pre_tool").value);
  }

  // ----- Printing and reading back -----

  lemma {:induction false} TextsReadBack(lib: Library, texts: seq<string>)
    ensures Strs(lib, TextList(texts)) == texts
  {
    if texts != [] {
      TextsReadBack(lib, texts[1..]);
      assert TextList(texts)[1..] == TextList(texts[1..]);
    }
  }

  lemma {:induction false} TextListAt(texts: seq<string>, i: nat)
    requires i < |texts|
    ensures TextList(texts)[i] == JText(texts[i])
  {
    if i > 0 {
      TextListAt(texts[1..], i - 1);
    }
  }

  lemma {:induction false} PatternsReadBack(lib: Library, patterns: seq<seq<string>>)
    requires forall i | 0 <= i < |patterns| :: NormalPattern(patterns[i])
    ensures ParsePatterns(lib, PatternList(patterns)) == Some(patterns)
  {
    if patterns != [] {
      var first := TextList(patterns[0]);
      forall i | 0 <= i < |first|
        ensures first[i].JText? && first[i].text != ""
      {
        TextListAt(patterns[0], i);
      }
      TextsReadBack(lib, patterns[0]);
      PatternsReadBack(lib, patterns[1..]);
      assert PatternList(patterns)[1..] == PatternList(patterns[1..]) && PatternList(patterns)[0] == JList(first);
      assert [patterns[0]] + patterns[1..] == patterns;
    }
  }

  /** Reading a printed list of texts, whether it was left out for being empty or not. */
  lemma ItemsReadBack(lib: Library, raw: Arguments, key: string, texts: seq<string>)
    requires if texts == [] then key !in raw else key in raw && raw[key] == JList(TextList(texts))
    ensures Items(lib, raw, key).Some? && Strs(lib, Items(lib, raw, key).value) == texts
  {
    TextsReadBack(lib, texts);
  }

  lemma RuleFields(r: PolicyRule)
    ensures var raw := RuleToDict(r);
            && {"id", "tool", "effect", "reason"} <= raw.Keys
            && raw["id"] == JText(r.id) && raw["tool"] == JText(r.tool)
            && raw["effect"] == JText(r.effect) && raw["reason"] == JText(r.reason)
            && (if r.paths == [] then "paths" !in raw else "paths" in raw && raw["paths"] == JList(TextList(r.paths)))
            && (if r.commandPatterns == [] then "command_patterns" !in raw
                else "command_patterns" in raw && raw["command_patterns"] == JList(TextList(r.commandPatterns)))
            && (if r.argvPatterns == [] then "argv_patterns" !in raw
                else "argv_patterns" in raw && raw["argv_patterns"] == JList(PatternList(r.argvPatterns)))
  {
    hide TextList, PatternList;
  }

  lemma ArgvReadsBack(lib: Library, raw: Arguments, patterns: seq<seq<string>>)
    requires forall i | 0 <= i < |patterns| :: NormalPattern(patterns[i])
    requires if patterns == [] then "argv_patterns" !in raw
             else "argv_patterns" in raw && raw["argv_patterns"] == JList(PatternList(patterns))
    ensures ArgvPatterns(lib, raw) == Some(patterns)
  {
    hide ParsePatterns, PatternList, NormalPattern, Falsy;
    PatternsReadBack(lib, patterns);
    FalsyLists(PatternList(patterns));
    FalsyLists([]);
  }

  lemma FalsyLists(items: seq<Json>)
    ensures Falsy(JList(items)) <==> items == []
  {
  }

  lemma RuleReadsBack(lib: Library, r: PolicyRule)
    requires NormalRule(r)
    ensures RuleFromDict(lib, RuleToDict(r)) == Some(r)
  {
    var raw := RuleToDict(r);
    RuleFields(r);
    hide RuleToDict, Items, ArgvPatterns, NormalPattern;
    ItemsReadBack(lib, raw, "paths", r.paths);
    ItemsReadBack(lib, raw, "command_patterns", r.commandPatterns);
    ArgvReadsBack(lib, raw, r.argvPatterns);
  }

  lemma HookReadsBack(lib: Library, h: HookRule)
    requires h.action == "deny"
    ensures HookFromDict(lib, HookToDict(h)) == Some(h)
  {
  }

  lemma {:induction false} RulesReadBack(lib: Library, rules: seq<PolicyRule>)
    requires forall i | 0 <= i < |rules| :: NormalRule(rules[i])
    ensures ParseRules(lib, RuleList(rules)) == Some(rules)
  {
    hide RuleToDict, RuleFromDict, NormalRule;
    if rules != [] {
      RuleReadsBack(lib, rules[0]);
      RulesReadBack(lib, rules[1..]);
      assert RuleList(rules)[1..] == RuleList(rules[1..]);
      assert [rules[0]] + rules[1..] == rules;
    }
  }

  lemma {:induction false} HooksReadBack(lib: Library, hooks: seq<HookRule>)
    requires forall i | 0 <= i < |hooks| :: hooks[i].action == "deny"
    ensures ParseHooks(lib, HookList(hooks)) == Some(hooks)
  {
    if hooks != [] {
      HookReadsBack(lib, hooks[0]);
      hide HookToDict, HookFromDict;
      HooksReadBack(lib, hooks[1..]);
      assert HookList(hooks)[1..] == HookList(hooks[1..]);
      assert [hooks[0]] + hooks[1..] == hooks;
    }
  }

  lemma PolicyFields(p: Policy)
    ensures var raw := ToDict(p);
            && {"policy_version", "project_root", "mode"} <= raw.Keys
            && {"final_answer", "verification", "approvals", "rules"} <= raw.Keys
            && raw["policy_version"] == JText(p.version)
            && raw["project_root"] == JText(p.projectRoot) && raw["mode"] == JText(p.mode)
            && raw["final_answer"] == JObject(map["on_incomplete" := JText(p.finalAnswerMode)])
            && raw["verification"] == JObject(map["mode" := JText(p.verificationMode)])
            && raw["approvals"] == JObject(map["default_ttl_seconds" := JInt(p.ttl)])
            && raw["rules"] == JList(RuleList(p.rules))
            && (if p.hooks == [] then "hooks" !in raw
                else "hooks" in raw && raw["hooks"] == JObject(map["pre_tool" := JList(HookList(p.hooks))]))
  {
    hide RuleList, HookList;
  }

  lemma {:induction false} RuleListReadsBack(lib: Library, raw: Arguments, rules: seq<PolicyRule>)
    requires forall i | 0 <= i < |rules| :: NormalRule(rules[i])
    requires "rules" in raw && raw["rules"] == JList(RuleList(rules))
    ensures RulesOf(lib, raw) == Some(rules)
  {
    RulesReadBack(lib, rules);
    hide ParseRules, NormalRule;
    if rules == [] {
      assert Items(lib, raw, "rules") == Some([]);
    } else {
      assert Items(lib, raw, "rules") == Some(RuleList(rules));
    }
  }

  lemma {:induction false} HookListReadsBack(lib: Library, raw: Arguments, hooks: seq<HookRule>)
    requires forall i | 0 <= i < |hooks| :: hooks[i].action == "deny"
    requires if hooks == [] then "hooks" !in raw
             else "hooks" in raw && raw["hooks"] == JObject(map["pre_tool" := JList(HookList(hooks))])
    ensures HooksOf(lib, raw) == Some(hooks)
  {
    HooksReadBack(lib, hooks);
    hide ParseHooks;
    if hooks == [] {
      assert Mapping(raw, "hooks") == Some(map[]);
      assert Items(lib, map[], "pre_tool") == Some([]);
    } else {
      var fields: Arguments := map["pre_tool" := JList(HookList(hooks))];
      assert "pre_tool" in fields && fields["pre_tool"] == JList(HookList(hooks));
      assert Mapping(raw, "hooks") == Some(fields);
      assert Items(lib, fields, "pre_tool") == Some(HookList(hooks));
    }
  }

  lemma EntryReadsBack(raw: Arguments, section: string, key: string, value: Json)
    requires section in raw && raw[section] == JObject(map[key := value])
    ensures Mapping(raw, section).Some?
    ensures forall default :: Get(Mapping(raw, section).value, key, default) == value
  {
    var fields: Arguments := map[key := value];
    assert key in fields && fields[key] == value;
    assert Mapping(raw, section) == Some(fields);
  }

  lemma PolicyFromParts(lib: Library, raw: Arguments, p: Policy,
                        answer: Arguments, verification: Arguments, approvals: Arguments)
    requires NormalPolicy(p) && RulesOf(lib, raw) == Some(p.rules) && HooksOf(lib, raw) == Some(p.hooks)
    requires Mapping(raw, "final_answer") == Some(answer)
             && Get(answer, "on_incomplete", JText("warn")) == JText(p.finalAnswerMode)
    requires Mapping(raw, "verification") == Some(verification)
             && Get(verification, "mode", JText("fallback")) == JText(p.verificationMode)
    requires Mapping(raw, "approvals") == Some(approvals)
             && Get(approvals, "default_ttl_seconds", JInt(3600)) == JInt(p.ttl)
    requires Get(raw, "policy_version", JText(POLICY_VERSION)) == JText(p.version)
    requires Get(raw, "project_root", JText(".")) == JText(p.projectRoot)
    requires Get(raw, "mode", JText("default")) == JText(p.mode)
    ensures FromDict(lib, raw) == Some(p)
  {
    hide RulesOf, HooksOf, Mapping, Get, NormalRule;
  }

  lemma TopEntries(p: Policy)
    ensures var raw := ToDict(p);
            && Get(raw, "policy_version", JText(POLICY_VERSION)) == JText(p.version)
            && Get(raw, "project_root", JText(".")) == JText(p.projectRoot)
            && Get(raw, "mode", JText("default")) == JText(p.mode)
  {
    PolicyFields(p);
    hide ToDict, RuleList, HookList;
  }

  lemma PolicyReadsBack(lib: Library, p: Policy)
    requires NormalPolicy(p)
    ensures FromDict(lib, ToDict(p)) == Some(p)
  {
    var raw := ToDict(p);
    PolicyFields(p);
    TopEntries(p);
    hide ToDict, RulesOf, HooksOf, Mapping, Get, FromDict, NormalRule;
    RuleListReadsBack(lib, raw, p.rules);
    HookListReadsBack(lib, raw, p.hooks);
    EntryReadsBack(raw, "final_answer", "on_incomplete", JText(p.finalAnswerMode));
    EntryReadsBack(raw, "verification", "mode", JText(p.verificationMode));
    EntryReadsBack(raw, "approvals", "default_ttl_seconds", JInt(p.ttl));
    hide NormalPolicy;
    PolicyFromParts(lib, raw, p, Mapping(raw, "final_answer").value, Mapping(raw, "verification").value,
                    Mapping(raw, "approvals").value);
  }

  /** Whatever document a policy was read from, its normal form reads back to the same
      policy, and printing that changes nothing more. */
  lemma NormalFormIsFixed(lib: Library, raw: Arguments)
    requires FromDict(lib, raw).Some?
    ensures var p := FromDict(lib, raw).value;
            FromDict(lib, ToDict(p)) == Some(p)
  {
    ReadPolicyIsNormal(lib, raw);
    PolicyReadsBack(lib, FromDict(lib, raw).value);
  }

  /** So the normal form tells two policies apart. */
  lemma NormalFormIsInjective(lib: Library, p: Policy, q: Policy)
    requires NormalPolicy(p) && NormalPolicy(q) && ToDict(p) == ToDict(q)
    ensures p == q
  {
    PolicyReadsBack(lib, p);
    PolicyReadsBack(lib, q);
  }

  // ----- Packs -----

  const PACK_SCHEMA := "agenttrust.policy-pack/v1"
  const SHA := "sha256:"

  datatype PolicyPack = PolicyPack(name: string, version: string, policy: Policy, digest: string)

  predicate Alphanumeric(c: char) { 'A' <= c <= 'Z' || 'a' <= c <= 'z' || '0' <= c <= '9' }

  /** `_validate_pack_identifier`. */
  predicate Identifier(s: string, extra: set<char>) {
    && 1 <= |s| <= 64 && Alphanumeric(s[0])
    && forall i | 0 < i < |s| :: Alphanumeric(s[i]) || s[i] in {'.', '_', '-'} || s[i] in extra
  }

  predicate PackNamed(name: string, version: string) {
    Identifier(name, {}) && Identifier(version, {'+'})
  }

  function PackDigest(lib: Library, policy: Arguments): string { SHA + lib.hex(policy) }

  function PackToDict(p: PolicyPack): Arguments {
    map[
      "schema_version" := JText(PACK_SCHEMA),
      "pack" := JObject(map["name" := JText(p.name), "version" := JText(p.version)]),
      "policy" := JObject(ToDict(p.policy)),
      "policy_digest" := JText(p.digest)]
  }

  /** `export_policy_pack`, on the raw policy file: the pack it returns and writes. */
  function ExportPack(lib: Library, raw: Arguments, name: string, version: string): Option<PolicyPack> {
    var p := FromDict(lib, raw);
    if !PackNamed(name, version) || p.None? then None
    else Some(PolicyPack(name, version, p.value, PackDigest(lib, ToDict(p.value))))
  }

  /** `load_policy_pack`, on the parsed file. */
  function LoadPack(lib: Library, raw: Json): Option<PolicyPack> {
    if !raw.JObject? || !(raw.fields.Keys <= {"schema_version", "pack", "policy", "policy_digest"}) then None
    else if Get(raw.fields, "schema_version", JNull) != JText(PACK_SCHEMA) then None
    else
      var pack := Get(raw.fields, "pack", JNull);
      var payload := Get(raw.fields, "policy", JNull);
      var digest := Get(raw.fields, "policy_digest", JNull);
      if !pack.JObject? then None
      else
        var name, version := Get(pack.fields, "name", JNull), Get(pack.fields, "version", JNull);
        if !name.JText? || !version.JText? || !PackNamed(name.text, version.text) then None
        else if !payload.JObject? || !digest.JText? || !(SHA <= digest.text) then None
        else
          var policy := FromDict(lib, payload.fields);
          if policy.None? || payload.fields != ToDict(policy.value) then None
          else if digest.text != PackDigest(lib, ToDict(policy.value)) then None
          else Some(PolicyPack(name.text, version.text, policy.value, digest.text))
  }

  /** The packs `export_policy_pack` can produce. */
  predicate GenuinePack(lib: Library, p: PolicyPack) {
    PackNamed(p.name, p.version) && NormalPolicy(p.policy) && p.digest == PackDigest(lib, ToDict(p.policy))
  }

  /** A pack's document, where the name and version may stand beside other entries. */
  predicate PackDocument(raw: Json, p: PolicyPack) {
    && raw.JObject? && raw.fields.Keys == PackToDict(p).Keys
    && (forall key | key in raw.fields && key != "pack" :: raw.fields[key] == PackToDict(p)[key])
    && raw.fields["pack"].JObject?
    && Get(raw.fields["pack"].fields, "name", JNull) == JText(p.name)
    && Get(raw.fields["pack"].fields, "version", JNull) == JText(p.version)
  }

  lemma ExportIsGenuine(lib: Library, raw: Arguments, name: string, version: string)
    requires ExportPack(lib, raw, name, version).Some?
    ensures GenuinePack(lib, ExportPack(lib, raw, name, version).value)
  {
    ReadPolicyIsNormal(lib, raw);
  }

  /** A document loads as a pack exactly when it is that pack's document and the pack is one
      that export can produce. */
  lemma LoadsExactlyGenuinePacks(lib: Library, raw: Json, p: PolicyPack)
    ensures LoadPack(lib, raw) == Some(p) <==> GenuinePack(lib, p) && PackDocument(raw, p)
  {
    hide FromDict, ToDict, NormalPolicy, PackNamed;
    if LoadPack(lib, raw) == Some(p) {
      ReadPolicyIsNormal(lib, raw.fields["policy"].fields);
    }
    if GenuinePack(lib, p) && PackDocument(raw, p) {
      PolicyReadsBack(lib, p.policy);
      assert raw.fields["policy"] == PackToDict(p)["policy"];
      assert raw.fields["schema_version"] == PackToDict(p)["schema_version"];
      assert raw.fields["policy_digest"] == PackToDict(p)["policy_digest"];
    }
  }

  lemma OwnDocument(p: PolicyPack)
    ensures PackDocument(JObject(PackToDict(p)), p)
  {
    hide ToDict;
    var named: Arguments := map["name" := JText(p.name), "version" := JText(p.version)];
    assert "name" in named && "version" in named;
    assert PackToDict(p)["pack"] == JObject(named);
  }

  /** Every exported pack loads back to the same name, version, policy and digest. */
  lemma ExportLoadsBack(lib: Library, raw: Arguments, name: string, version: string)
    requires ExportPack(lib, raw, name, version).Some?
    ensures var p := ExportPack(lib, raw, name, version).value;
            LoadPack(lib, JObject(PackToDict(p))) == Some(p)
  {
    hide ExportPack, GenuinePack, PackDocument, LoadPack, PackToDict;
    ExportIsGenuine(lib, raw, name, version);
    OwnDocument(ExportPack(lib, raw, name, version).value);
    LoadsExactlyGenuinePacks(lib, JObject(PackToDict(ExportPack(lib, raw, name, version).value)),
                             ExportPack(lib, raw, name, version).value);
  }
}
