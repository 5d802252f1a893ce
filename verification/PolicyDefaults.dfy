/** What a policy document says where it is silent: leaving an entry out is writing its default. */
module PolicyDefaults {
  import opened Texts
  import opened Entities
  import opened PolicyForm

  function Filled(raw: Arguments, key: string, default: Json): Arguments {
    if key in raw then raw else raw[key := default]
  }

  lemma FilledReads(raw: Arguments, key: string, default: Json)
    ensures forall d :: Get(Filled(raw, key, default), key, d) == Get(raw, key, default)
    ensures forall k, d | k != key :: Get(Filled(raw, key, default), k, d) == Get(raw, k, d)
  {
  }

  // ----- Rules -----

  function FilledRule(raw: Arguments): Arguments {
    Filled(Filled(Filled(Filled(Filled(Filled(raw, "effect", JText("deny")), "id", JText("unnamed-rule")),
                                "reason", JText("")),
                         "paths", JList([])),
                  "command_patterns", JList([])),
           "argv_patterns", JList([]))
  }

  lemma FilledRuleReads(raw: Arguments)
    ensures var full := FilledRule(raw);
            && (forall d :: Get(full, "effect", d) == Get(raw, "effect", JText("deny")))
            && (forall d :: Get(full, "id", d) == Get(raw, "id", JText("unnamed-rule")))
            && (forall d :: Get(full, "reason", d) == Get(raw, "reason", JText("")))
            && (forall d :: Get(full, "paths", d) == Get(raw, "paths", JList([])))
            && (forall d :: Get(full, "command_patterns", d) == Get(raw, "command_patterns", JList([])))
            && (forall d :: Get(full, "argv_patterns", d) == Get(raw, "argv_patterns", JList([])))
            && ("tool" in full <==> "tool" in raw) && ("tool" in raw ==> full["tool"] == raw["tool"])
  {
  }

  /** A rule that names no effect denies; it needs a tool, and nothing else. */
  lemma RuleDefaults(lib: Library, raw: Arguments)
    ensures RuleFromDict(lib, FilledRule(raw)) == RuleFromDict(lib, raw)
  {
    FilledRuleReads(raw);
    hide FilledRule, Get, Strs, ParsePatterns;
  }

  lemma BareRule(lib: Library, tool: string)
    ensures RuleFromDict(lib, map["tool" := JText(tool)]) ==
            Some(PolicyRule("unnamed-rule", tool, "deny", "", [], [], []))
  {
  }

  /** A value that is no text counts as the text it prints as. */
  lemma RuleTexts(lib: Library, raw: Arguments, key: string, j: Json)
    requires key in {"effect", "id", "tool", "reason"}
    ensures RuleFromDict(lib, raw[key := j]) == RuleFromDict(lib, raw[key := JText(Str(lib, j))])
  {
    var a, b := raw[key := j], raw[key := JText(Str(lib, j))];
    ListsUnread(lib, raw, key, j);
    ListsUnread(lib, raw, key, JText(Str(lib, j)));
    EntryReads(lib, raw, key, j, "effect", JText("deny"));
    EntryReads(lib, raw, key, j, "id", JText("unnamed-rule"));
    EntryReads(lib, raw, key, j, "reason", JText(""));
    EntryReads(lib, raw, key, j, "tool", JNull);
    hide Str, Items, ArgvPatterns, RuleFromDict;
    SameRule(lib, a, b);
  }

  /** Writing one entry, in two ways that print alike. */
  lemma EntryReads(lib: Library, raw: Arguments, key: string, j: Json, k: string, default: Json)
    ensures var a, b := raw[key := j], raw[key := JText(Str(lib, j))];
            && Str(lib, Get(a, k, default)) == Str(lib, Get(b, k, default))
            && (k in a <==> k in b) && (k in a ==> Str(lib, a[k]) == Str(lib, b[k]))
  {
  }

  /** What a rule is read from. */
  lemma SameRule(lib: Library, a: Arguments, b: Arguments)
    requires Str(lib, Get(a, "effect", JText("deny"))) == Str(lib, Get(b, "effect", JText("deny")))
    requires Str(lib, Get(a, "id", JText("unnamed-rule"))) == Str(lib, Get(b, "id", JText("unnamed-rule")))
    requires Str(lib, Get(a, "reason", JText(""))) == Str(lib, Get(b, "reason", JText("")))
    requires "tool" in a <==> "tool" in b
    requires "tool" in a ==> Str(lib, a["tool"]) == Str(lib, b["tool"])
    requires Items(lib, a, "paths") == Items(lib, b, "paths")
    requires Items(lib, a, "command_patterns") == Items(lib, b, "command_patterns")
    requires ArgvPatterns(lib, a) == ArgvPatterns(lib, b)
    ensures RuleFromDict(lib, a) == RuleFromDict(lib, b)
  {
    hide Str, Items, ArgvPatterns, Get, Strs;
  }

  lemma ListsUnread(lib: Library, raw: Arguments, key: string, j: Json)
    requires key in {"effect", "id", "tool", "reason"}
    ensures Items(lib, raw[key := j], "paths") == Items(lib, raw, "paths")
    ensures Items(lib, raw[key := j], "command_patterns") == Items(lib, raw, "command_patterns")
    ensures ArgvPatterns(lib, raw[key := j]) == ArgvPatterns(lib, raw)
  {
    hide ParsePatterns;
  }

  /** Where a list of texts is meant, a text is a list of its characters, a mapping one of its
      keys, and an empty value of any kind no list at all; nothing else will do. */
  lemma RuleLists(lib: Library, raw: Arguments, key: string, j: Json)
    requires key in {"paths", "command_patterns"} && RuleFromDict(lib, raw[key := JList([])]).Some?
    ensures var r := RuleFromDict(lib, raw[key := j]);
            match j
            case JText(s) => r == RuleFromDict(lib, raw[key := JList(TextList(Characters(s)))])
            case JObject(fields) =>
              fields != map[] ==> r == RuleFromDict(lib, raw[key := JList(TextList(lib.keys(fields)))])
            case JList(_) => r.Some?
            case _ => r.Some? <==> Falsy(j)
    ensures Falsy(j) ==> RuleFromDict(lib, raw[key := j]) == RuleFromDict(lib, raw[key := JList([])])
  {
    ListReads(lib, raw, key, j);
    ListReads(lib, raw, key, JList([]));
    ListsElsewhere(lib, raw, key, j);
    ListsElsewhere(lib, raw, key, JList([]));
    match j {
      case JText(s) =>
        ListReads(lib, raw, key, JList(TextList(Characters(s))));
        ListsElsewhere(lib, raw, key, JList(TextList(Characters(s))));
      case JObject(fields) =>
        ListReads(lib, raw, key, JList(TextList(lib.keys(fields))));
        ListsElsewhere(lib, raw, key, JList(TextList(lib.keys(fields))));
      case _ =>
    }
    hide Items, Strs, ParsePatterns, ArgvPatterns, Str;
  }

  lemma ListReads(lib: Library, raw: Arguments, key: string, j: Json)
    ensures Items(lib, raw[key := j], key) ==
            if Falsy(j) then Some([])
            else
              match j
              case JList(items) => Some(items)
              case JText(s) => Some(TextList(Characters(s)))
              case JObject(fields) => Some(TextList(lib.keys(fields)))
              case _ => None
  {
  }

  lemma ListsElsewhere(lib: Library, raw: Arguments, key: string, j: Json)
    requires key in {"paths", "command_patterns"}
    ensures var other := if key == "paths" then "command_patterns" else "paths";
            Items(lib, raw[key := j], other) == Items(lib, raw, other)
    ensures ArgvPatterns(lib, raw[key := j]) == ArgvPatterns(lib, raw)
    ensures forall k, d | k != key :: Get(raw[key := j], k, d) == Get(raw, k, d)
  {
    hide ParsePatterns;
  }

  // ----- Hooks -----

  /** A hook may give its tool and its path beside its name or under `when`; the former wins. */
  function FilledHook(raw: Arguments): Arguments {
    var when := if "when" in raw && raw["when"].JObject? then raw["when"].fields else map[];
    var tool := if "tool" in when then when["tool"] else JText("*");
    var glob := if "path_glob" in when then when["path_glob"] else JNull;
    Filled(Filled(Filled(Filled(Filled(raw, "action", JText("deny")), "id", JText("unnamed-hook")),
                         "reason", JText("blocked by hook")),
                  "tool", tool),
           "path_glob", glob)
  }

  lemma FilledHookReads(raw: Arguments)
    ensures var full := FilledHook(raw);
            var when := if "when" in raw && raw["when"].JObject? then raw["when"].fields else map[];
            && (forall d :: Get(full, "action", d) == Get(raw, "action", JText("deny")))
            && (forall d :: Get(full, "id", d) == Get(raw, "id", JText("unnamed-hook")))
            && (forall d :: Get(full, "reason", d) == Get(raw, "reason", JText("blocked by hook")))
            && (forall d :: Get(full, "tool", d) == Get(raw, "tool", Get(when, "tool", JText("*"))))
            && (forall d :: Get(full, "path_glob", d) == Get(raw, "path_glob", Get(when, "path_glob", JNull)))
            && (forall d :: Get(full, "when", d) == Get(raw, "when", d))
  {
  }

  lemma HookDefaults(lib: Library, raw: Arguments)
    ensures HookFromDict(lib, FilledHook(raw)) == HookFromDict(lib, raw)
  {
    FilledHookReads(raw);
    hide FilledHook;
  }

  // ----- Policies -----

  /** A section that is missing or empty is one with nothing in it. */
  function FilledSection(raw: Arguments, section: string, key: string, default: Json): Arguments {
    if section !in raw || Falsy(raw[section]) then raw[section := JObject(map[key := default])]
    else if raw[section].JObject? then raw[section := JObject(Filled(raw[section].fields, key, default))]
    else raw
  }

  function FilledNames(raw: Arguments): Arguments {
    Filled(Filled(Filled(Filled(raw, "policy_version", JText(POLICY_VERSION)), "project_root", JText(".")),
                  "mode", JText("default")),
           "rules", JList([]))
  }

  function FilledPolicy(raw: Arguments): Arguments {
    var answered := FilledSection(FilledNames(raw), "final_answer", "on_incomplete", JText("warn"));
    var verified := FilledSection(answered, "verification", "mode", JText("fallback"));
    var timed := FilledSection(verified, "approvals", "default_ttl_seconds", JInt(3600));
    FilledSection(timed, "hooks", "pre_tool", JList([]))
  }

  lemma FilledNamesReads(raw: Arguments)
    ensures var full := FilledNames(raw);
            && (forall d :: Get(full, "policy_version", d) == Get(raw, "policy_version", JText(POLICY_VERSION)))
            && (forall d :: Get(full, "project_root", d) == Get(raw, "project_root", JText(".")))
            && (forall d :: Get(full, "mode", d) == Get(raw, "mode", JText("default")))
            && (forall d :: Get(full, "rules", d) == Get(raw, "rules", JList([])))
            && forall k, d | k in {"final_answer", "verification", "approvals", "hooks"} ::
                 Get(full, k, d) == Get(raw, k, d)
  {
    var version := Filled(raw, "policy_version", JText(POLICY_VERSION));
    var root := Filled(version, "project_root", JText("."));
    var mode := Filled(root, "mode", JText("default"));
    FilledReads(raw, "policy_version", JText(POLICY_VERSION));
    FilledReads(version, "project_root", JText("."));
    FilledReads(root, "mode", JText("default"));
    FilledReads(mode, "rules", JList([]));
    hide Filled, Get;
  }

  /** The same mapping or none, with the same reading of one of its entries. */
  predicate SameSection(a: Arguments, b: Arguments, section: string, key: string, default: Json) {
    && (Mapping(a, section).Some? <==> Mapping(b, section).Some?)
    && (Mapping(a, section).Some? ==>
          Get(Mapping(a, section).value, key, default) == Get(Mapping(b, section).value, key, default))
  }

  predicate ReadsAlike(a: Arguments, b: Arguments) {
    && Get(a, "policy_version", JText(POLICY_VERSION)) == Get(b, "policy_version", JText(POLICY_VERSION))
    && Get(a, "project_root", JText(".")) == Get(b, "project_root", JText("."))
    && Get(a, "mode", JText("default")) == Get(b, "mode", JText("default"))
    && Get(a, "rules", JList([])) == Get(b, "rules", JList([]))
    && SameSection(a, b, "final_answer", "on_incomplete", JText("warn"))
    && SameSection(a, b, "verification", "mode", JText("fallback"))
    && SameSection(a, b, "approvals", "default_ttl_seconds", JInt(3600))
    && SameSection(a, b, "hooks", "pre_tool", JList([]))
  }

  lemma AlikeMeansSame(lib: Library, a: Arguments, b: Arguments)
    requires ReadsAlike(a, b)
    ensures FromDict(lib, a) == FromDict(lib, b)
  {
    SameRules(lib, a, b);
    SameHooks(lib, a, b);
    hide RulesOf, HooksOf, Mapping, Get, Str, AnswerMode, VerificationMode;
  }

  lemma SameRules(lib: Library, a: Arguments, b: Arguments)
    requires Get(a, "rules", JList([])) == Get(b, "rules", JList([]))
    ensures RulesOf(lib, a) == RulesOf(lib, b)
  {
    hide ParseRules;
  }

  lemma SameHooks(lib: Library, a: Arguments, b: Arguments)
    requires SameSection(a, b, "hooks", "pre_tool", JList([]))
    ensures HooksOf(lib, a) == HooksOf(lib, b)
  {
    hide ParseHooks, Mapping;
  }

  lemma FilledSectionReads(raw: Arguments, section: string, key: string, default: Json)
    ensures var full := FilledSection(raw, section, key, default);
            && (forall k, d | k != section :: Get(full, k, d) == Get(raw, k, d))
            && SameSection(full, raw, section, key, default)
  {
  }

  lemma ElsewhereSame(a: Arguments, b: Arguments, section: string, key: string, default: Json)
    requires Get(a, section, JObject(map[])) == Get(b, section, JObject(map[]))
    ensures SameSection(a, b, section, key, default)
  {
  }

  lemma AlikeOn(a: Arguments, b: Arguments, c: Arguments)
    requires ReadsAlike(a, b) && ReadsAlike(b, c)
    ensures ReadsAlike(a, c)
  {
    hide Get, Mapping;
  }

  lemma SectionAlike(raw: Arguments, section: string, key: string, default: Json)
    requires (section, key, default) in
               {("final_answer", "on_incomplete", JText("warn")), ("verification", "mode", JText("fallback")),
                ("approvals", "default_ttl_seconds", JInt(3600)), ("hooks", "pre_tool", JList([]))}
    ensures ReadsAlike(FilledSection(raw, section, key, default), raw)
  {
    var full := FilledSection(raw, section, key, default);
    FilledSectionReads(raw, section, key, default);
    hide FilledSection, Get, Mapping, SameSection;
    if section != "final_answer" {
      ElsewhereSame(full, raw, "final_answer", "on_incomplete", JText("warn"));
    }
    if section != "verification" {
      ElsewhereSame(full, raw, "verification", "mode", JText("fallback"));
    }
    if section != "approvals" {
      ElsewhereSame(full, raw, "approvals", "default_ttl_seconds", JInt(3600));
    }
    if section != "hooks" {
      ElsewhereSame(full, raw, "hooks", "pre_tool", JList([]));
    }
  }

  lemma NamesAlike(raw: Arguments)
    ensures ReadsAlike(FilledNames(raw), raw)
  {
    FilledNamesReads(raw);
    hide FilledNames, Get, SameSection;
    ElsewhereSame(FilledNames(raw), raw, "final_answer", "on_incomplete", JText("warn"));
    ElsewhereSame(FilledNames(raw), raw, "verification", "mode", JText("fallback"));
    ElsewhereSame(FilledNames(raw), raw, "approvals", "default_ttl_seconds", JInt(3600));
    ElsewhereSame(FilledNames(raw), raw, "hooks", "pre_tool", JList([]));
  }

  /** What a policy leaves out is as if its default stood there: no rules and no hooks, warnings
      for unverified answers, and an hour for approvals. */
  lemma PolicyDefaults(lib: Library, raw: Arguments)
    ensures FromDict(lib, FilledPolicy(raw)) == FromDict(lib, raw)
  {
    var named := FilledNames(raw);
    var answered := FilledSection(named, "final_answer", "on_incomplete", JText("warn"));
    var verified := FilledSection(answered, "verification", "mode", JText("fallback"));
    var timed := FilledSection(verified, "approvals", "default_ttl_seconds", JInt(3600));
    NamesAlike(raw);
    SectionAlike(named, "final_answer", "on_incomplete", JText("warn"));
    SectionAlike(answered, "verification", "mode", JText("fallback"));
    SectionAlike(verified, "approvals", "default_ttl_seconds", JInt(3600));
    SectionAlike(timed, "hooks", "pre_tool", JList([]));
    hide ReadsAlike, FilledSection, FilledNames, FromDict;
    AlikeOn(answered, named, raw);
    AlikeOn(verified, answered, raw);
    AlikeOn(timed, verified, raw);
    AlikeOn(FilledPolicy(raw), timed, raw);
    AlikeMeansSame(lib, FilledPolicy(raw), raw);
  }

  /** The empty document is a policy. */
  lemma EmptyPolicy(lib: Library)
    ensures FromDict(lib, map[]) ==
            Some(Policy(".", "default", [], [], "warn", "fallback", 3600, POLICY_VERSION))
  {
  }
}
