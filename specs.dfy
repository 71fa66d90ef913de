/**
 * The options builders and the specs file update of fmu/specs.py.
 *
 * An argparse namespace is a record with one `Attr` per attribute name the
 * builders look at: `Missing` when the namespace has no such attribute
 * (hasattr is false), `HoldsNone` when it holds Python's None, `Given(v)` otherwise.
 * Options dictionaries and command entries are maps from key to value.
 */
module Specs {
  import opened Wrappers

  datatype Attr<T> = Missing | HoldsNone | Given(value: T)

  /** A value stored in an options dictionary or a command entry. */
  datatype OptVal = NoneValue | Str(s: string) | Flag(b: bool) | Strings(items: seq<string>)

  type Options = map<string, OptVal>

  datatype Args = Args(
    output: Attr<string>,
    skipHeading: Attr<bool>,
    name: Attr<string>,
    value: Attr<string>,
    ignoreCase: Attr<bool>,
    regex: Attr<bool>,
    csvFile: Attr<string>,
    exist: Attr<seq<string>>,
    notExist: Attr<seq<string>>,
    eq: Attr<seq<(string, string)>>,
    ne: Attr<seq<(string, string)>>,
    contain: Attr<seq<(string, string)>>,
    notContain: Attr<seq<(string, string)>>,
    matches: Attr<seq<(string, string)>>,     // the `match` attribute
    notMatches: Attr<seq<(string, string)>>,  // the `not_match` attribute
    deduplication: Attr<string>,
    caseStyle: Attr<string>,                  // the `case` attribute
    replace: Attr<seq<(string, string)>>,
    remove: Attr<seq<string>>)

  /** A namespace without any of the attributes. */
  const NoArgs := Args(Missing, Missing, Missing, Missing, Missing, Missing, Missing, Missing, Missing, Missing,
                       Missing, Missing, Missing, Missing, Missing, Missing, Missing, Missing, Missing)

  predicate Has<T>(a: Attr<T>)
  {
    !a.Missing?
  }

  // Python truthiness of an attribute: present, not None, and not empty or false.

  predicate TruthyStr(a: Attr<string>)
  {
    a.Given? && a.value != ""
  }

  predicate TruthyFlag(a: Attr<bool>)
  {
    a.Given? && a.value
  }

  predicate TruthyList<T>(a: Attr<seq<T>>)
  {
    a.Given? && |a.value| > 0
  }

  predicate Truthy(v: OptVal)
  {
    match v
    case NoneValue => false
    case Str(s) => s != ""
    case Flag(b) => b
    case Strings(items) => |items| > 0
  }

  /** Every value of the dictionary outside `exempt` is truthy: nothing falsy
      was stored under those keys. */
  predicate AllTruthyExcept(options: Options, exempt: set<string>)
  {
    forall k :: k in options && k !in exempt ==> Truthy(options[k])
  }

  /** Proof aid: storing a truthy value, or any value under an exempt key, keeps `AllTruthyExcept`. */
  lemma InsertTruthy(options: Options, exempt: set<string>, key: string, v: OptVal)
    requires AllTruthyExcept(options, exempt)
    requires key in exempt || Truthy(v)
    ensures AllTruthyExcept(options[key := v], exempt)
  {
  }

  /** The value an attribute contributes when it is copied as it is. */
  function StrValue(a: Attr<string>): OptVal
  {
    match a
    case Given(s) => Str(s)
    case _ => NoneValue
  }

  function ListValue(a: Attr<seq<string>>): OptVal
  {
    match a
    case Given(items) => Strings(items)
    case _ => NoneValue
  }

  function PairsValue(a: Attr<seq<(string, string)>>): OptVal
  {
    match a
    case Given(pairs) => Strings(JoinPairs(pairs))
    case _ => NoneValue
  }

  /** `key` is in `options`, holding `v`, exactly when `cond` holds. */
  predicate Stored(options: Options, key: string, cond: bool, v: OptVal)
  {
    if cond then key in options && options[key] == v else key !in options
  }

  /** The `f"{a} {b}"` comprehension over a list of pairs. */
  function JoinPairs(pairs: seq<(string, string)>): (joined: seq<string>)
    ensures |joined| == |pairs|
    ensures forall k :: 0 <= k < |pairs| ==> joined[k] == pairs[k].0 + " " + pairs[k].1
    decreases |pairs|
  {
    if |pairs| == 0 then []
    else JoinPairs(pairs[..|pairs| - 1]) + [pairs[|pairs| - 1].0 + " " + pairs[|pairs| - 1].1]
  }

  /** Proof aid: the literal keys of the search options are distinct. */
  lemma SearchKeysDistinct()
    ensures "name" != "value"
    ensures "name" != "ignore_case"
    ensures "name" != "regex"
    ensures "name" != "csv"
    ensures "value" != "ignore_case"
    ensures "value" != "regex"
    ensures "value" != "csv"
    ensures "ignore_case" != "regex"
    ensures "ignore_case" != "csv"
    ensures "regex" != "csv"
  {
  }

  method ConvertReadArgsToOptions(args: Args) returns (options: Options)
    ensures options.Keys <= {"output", "skip_heading"}
    ensures Stored(options, "output", Has(args.output) && args.output != Given("both"), StrValue(args.output))
    ensures Stored(options, "skip_heading", TruthyFlag(args.skipHeading), Flag(true))
  {
    options := map[];
    if Has(args.output) && args.output != Given("both") {
      options := options["output" := StrValue(args.output)];
    }
    if TruthyFlag(args.skipHeading) {
      options := options["skip_heading" := Flag(true)];
    }
  }

  method ConvertSearchArgsToOptions(args: Args) returns (options: Options)
    ensures options.Keys <= {"name", "value", "ignore_case", "regex", "csv"}
    ensures Stored(options, "name", Has(args.name), StrValue(args.name))
    ensures Stored(options, "value", TruthyStr(args.value), StrValue(args.value))
    ensures Stored(options, "ignore_case", TruthyFlag(args.ignoreCase), Flag(true))
    ensures Stored(options, "regex", TruthyFlag(args.regex), Flag(true))
    ensures Stored(options, "csv", TruthyStr(args.csvFile), StrValue(args.csvFile))
    ensures AllTruthyExcept(options, {"name"})
  {
    SearchKeysDistinct();
    options := map[];
    if Has(args.name) {
      InsertTruthy(options, {"name"}, "name", StrValue(args.name));
      options := options["name" := StrValue(args.name)];
    }
    if TruthyStr(args.value) {
      InsertTruthy(options, {"name"}, "value", Str(args.value.value));
      options := options["value" := Str(args.value.value)];
    }
    if TruthyFlag(args.ignoreCase) {
      InsertTruthy(options, {"name"}, "ignore_case", Flag(true));
      options := options["ignore_case" := Flag(true)];
    }
    if TruthyFlag(args.regex) {
      InsertTruthy(options, {"name"}, "regex", Flag(true));
      options := options["regex" := Flag(true)];
    }
    if TruthyStr(args.csvFile) {
      InsertTruthy(options, {"name"}, "csv", Str(args.csvFile.value));
      options := options["csv" := Str(args.csvFile.value)];
    }
  }

  /** One guarded insertion `if present: options[key] = value` of a builder. */
  datatype Rule = Rule(key: string, present: bool, value: OptVal)

  /** `options` holds exactly what the first `n` rules insert into an empty dictionary. */
  ghost predicate Tabulates(options: Options, rules: seq<Rule>, n: nat)
    requires n <= |rules|
  {
    && (forall i | 0 <= i < n :: Stored(options, rules[i].key, rules[i].present, rules[i].value))
    && (forall k | k in options :: exists i | 0 <= i < n :: rules[i].key == k)
  }

  ghost predicate DistinctKeys(rules: seq<Rule>)
  {
    forall i, j | 0 <= i < j < |rules| :: rules[i].key != rules[j].key
  }

  /** Runs the guarded insertions in order, updating one dictionary in place. */
  method ApplyRules(rules: seq<Rule>) returns (options: Options)
    requires DistinctKeys(rules)
    ensures Tabulates(options, rules, |rules|)
  {
    options := map[];
    for n := 0 to |rules|
      invariant Tabulates(options, rules, n)
    {
      assert forall i | 0 <= i < n :: rules[i].key != rules[n].key;
      if rules[n].present {
        options := options[rules[n].key := rules[n].value];
      }
    }
  }

  /** The rules determine the dictionary: two dictionaries that both hold them are equal. */
  lemma {:induction false} TabulatesUnique(a: Options, b: Options, rules: seq<Rule>)
    requires Tabulates(a, rules, |rules|) && Tabulates(b, rules, |rules|)
    ensures a == b
  {
    forall k | k in a
      ensures k in b && b[k] == a[k]
    {
      var i :| 0 <= i < |rules| && rules[i].key == k;
      assert Stored(a, rules[i].key, rules[i].present, rules[i].value);
      assert Stored(b, rules[i].key, rules[i].present, rules[i].value);
    }
    forall k | k in b
      ensures k in a
    {
      var i :| 0 <= i < |rules| && rules[i].key == k;
      assert Stored(b, rules[i].key, rules[i].present, rules[i].value);
      assert Stored(a, rules[i].key, rules[i].present, rules[i].value);
    }
  }

  /** The ten guarded insertions of `convert_validate_args_to_options`, in source order. */
  function ValidateRules(args: Args): seq<Rule>
  {
    [ Rule("exist", TruthyList(args.exist), ListValue(args.exist)),
      Rule("not", TruthyList(args.notExist), ListValue(args.notExist)),
      Rule("eq", TruthyList(args.eq), PairsValue(args.eq)),
      Rule("ne", TruthyList(args.ne), PairsValue(args.ne)),
      Rule("contain", TruthyList(args.contain), PairsValue(args.contain)),
      Rule("not_contain", TruthyList(args.notContain), PairsValue(args.notContain)),
      Rule("match", TruthyList(args.matches), PairsValue(args.matches)),
      Rule("not_match", TruthyList(args.notMatches), PairsValue(args.notMatches)),
      Rule("ignore_case", TruthyFlag(args.ignoreCase), Flag(true)),
      Rule("csv", TruthyStr(args.csvFile), StrValue(args.csvFile)) ]
  }

  lemma ValidateRulesDistinct(args: Args)
    ensures DistinctKeys(ValidateRules(args))
  {
  }

  /** What `convert_validate_args_to_options` returns: each rule key holds its argument exactly when that argument is truthy, and nothing else is stored. */
  ghost predicate ValidateOptions(args: Args, options: Options)
  {
    && options.Keys <= {"exist", "not", "eq", "ne", "contain", "not_contain", "match", "not_match", "ignore_case", "csv"}
    && Stored(options, "exist", TruthyList(args.exist), ListValue(args.exist))
    && Stored(options, "not", TruthyList(args.notExist), ListValue(args.notExist))
    && Stored(options, "eq", TruthyList(args.eq), PairsValue(args.eq))
    && Stored(options, "ne", TruthyList(args.ne), PairsValue(args.ne))
    && Stored(options, "contain", TruthyList(args.contain), PairsValue(args.contain))
    && Stored(options, "not_contain", TruthyList(args.notContain), PairsValue(args.notContain))
    && Stored(options, "match", TruthyList(args.matches), PairsValue(args.matches))
    && Stored(options, "not_match", TruthyList(args.notMatches), PairsValue(args.notMatches))
    && Stored(options, "ignore_case", TruthyFlag(args.ignoreCase), Flag(true))
    && Stored(options, "csv", TruthyStr(args.csvFile), StrValue(args.csvFile))
  }

  /** The contract pins the dictionary down: two results for the same namespace are equal. */
  lemma ValidateOptionsUnique(args: Args, a: Options, b: Options)
    requires ValidateOptions(args, a) && ValidateOptions(args, b)
    ensures a == b
  {
    forall k | k in a
      ensures k in b && b[k] == a[k]
    {
      if k in {"exist", "not", "eq"} {
      } else if k in {"ne", "contain", "not_contain"} {
      } else {
      }
    }
    forall k | k in b
      ensures k in a
    {
      if k in {"exist", "not", "eq"} {
      } else if k in {"ne", "contain", "not_contain"} {
      } else {
      }
    }
  }

  lemma ValidateRulesKeys(args: Args, options: Options)
    requires Tabulates(options, ValidateRules(args), |ValidateRules(args)|)
    ensures options.Keys <= {"exist", "not", "eq", "ne", "contain", "not_contain", "match", "not_match", "ignore_case", "csv"}
  {
  }

  lemma ValidateRulesContents(args: Args, options: Options)
    requires Tabulates(options, ValidateRules(args), |ValidateRules(args)|)
    ensures ValidateOptions(args, options)
  {
    ValidateRulesKeys(args, options);
    var rules := ValidateRules(args);
    assert rules[0] == Rule("exist", TruthyList(args.exist), ListValue(args.exist));
    assert rules[1] == Rule("not", TruthyList(args.notExist), ListValue(args.notExist));
    assert rules[2] == Rule("eq", TruthyList(args.eq), PairsValue(args.eq));
    assert rules[3] == Rule("ne", TruthyList(args.ne), PairsValue(args.ne));
    assert rules[4] == Rule("contain", TruthyList(args.contain), PairsValue(args.contain));
    assert rules[5] == Rule("not_contain", TruthyList(args.notContain), PairsValue(args.notContain));
    assert rules[6] == Rule("match", TruthyList(args.matches), PairsValue(args.matches));
    assert rules[7] == Rule("not_match", TruthyList(args.notMatches), PairsValue(args.notMatches));
    assert rules[8] == Rule("ignore_case", TruthyFlag(args.ignoreCase), Flag(true));
    assert rules[9] == Rule("csv", TruthyStr(args.csvFile), StrValue(args.csvFile));
  }

  lemma ValidateRulesTruthy(args: Args, options: Options)
    requires Tabulates(options, ValidateRules(args), |ValidateRules(args)|)
    ensures AllTruthyExcept(options, {})
  {
  }

  method ConvertValidateArgsToOptions(args: Args) returns (options: Options)
    ensures ValidateOptions(args, options)
    ensures AllTruthyExcept(options, {})
  {
    ValidateRulesDistinct(args);
    options := ApplyRules(ValidateRules(args));
    ValidateRulesContents(args, options);
    ValidateRulesTruthy(args, options);
  }

  /** The seven guarded insertions of `convert_update_args_to_options`, in source order. */
  function UpdateRules(args: Args): seq<Rule>
  {
    [ Rule("name", Has(args.name), StrValue(args.name)),
      Rule("deduplication", Has(args.deduplication) && args.deduplication != Given("true"), StrValue(args.deduplication)),
      Rule("case", TruthyStr(args.caseStyle), StrValue(args.caseStyle)),
      Rule("replace", TruthyList(args.replace), PairsValue(args.replace)),
      Rule("remove", TruthyList(args.remove), ListValue(args.remove)),
      Rule("ignore_case", TruthyFlag(args.ignoreCase), Flag(true)),
      Rule("regex", TruthyFlag(args.regex), Flag(true)) ]
  }

  lemma UpdateRulesDistinct(args: Args)
    ensures DistinctKeys(UpdateRules(args))
  {
  }

  /** What `convert_update_args_to_options` returns: `name` whenever the attribute exists, `deduplication` unless it is the default `'true'`, the rest only when truthy. */
  ghost predicate UpdateOptions(args: Args, options: Options)
  {
    && options.Keys <= {"name", "deduplication", "case", "replace", "remove", "ignore_case", "regex"}
    && Stored(options, "name", Has(args.name), StrValue(args.name))
    && Stored(options, "deduplication", Has(args.deduplication) && args.deduplication != Given("true"), StrValue(args.deduplication))
    && Stored(options, "case", TruthyStr(args.caseStyle), StrValue(args.caseStyle))
    && Stored(options, "replace", TruthyList(args.replace), PairsValue(args.replace))
    && Stored(options, "remove", TruthyList(args.remove), ListValue(args.remove))
    && Stored(options, "ignore_case", TruthyFlag(args.ignoreCase), Flag(true))
    && Stored(options, "regex", TruthyFlag(args.regex), Flag(true))
  }

  /** The contract pins the dictionary down: two results for the same namespace are equal. */
  lemma UpdateOptionsUnique(args: Args, a: Options, b: Options)
    requires UpdateOptions(args, a) && UpdateOptions(args, b)
    ensures a == b
  {
    forall k | k in a
      ensures k in b && b[k] == a[k]
    {
      if k in {"name", "deduplication", "case"} {
      } else {
      }
    }
    forall k | k in b
      ensures k in a
    {
      if k in {"name", "deduplication", "case"} {
      } else {
      }
    }
  }

  lemma UpdateRulesKeys(args: Args, options: Options)
    requires Tabulates(options, UpdateRules(args), |UpdateRules(args)|)
    ensures options.Keys <= {"name", "deduplication", "case", "replace", "remove", "ignore_case", "regex"}
  {
  }

  lemma UpdateRulesContents(args: Args, options: Options)
    requires Tabulates(options, UpdateRules(args), |UpdateRules(args)|)
    ensures UpdateOptions(args, options)
  {
    UpdateRulesKeys(args, options);
    var rules := UpdateRules(args);
    assert rules[0] == Rule("name", Has(args.name), StrValue(args.name));
    assert rules[1] == Rule("deduplication", Has(args.deduplication) && args.deduplication != Given("true"), StrValue(args.deduplication));
    assert rules[2] == Rule("case", TruthyStr(args.caseStyle), StrValue(args.caseStyle));
    assert rules[3] == Rule("replace", TruthyList(args.replace), PairsValue(args.replace));
    assert rules[4] == Rule("remove", TruthyList(args.remove), ListValue(args.remove));
    assert rules[5] == Rule("ignore_case", TruthyFlag(args.ignoreCase), Flag(true));
    assert rules[6] == Rule("regex", TruthyFlag(args.regex), Flag(true));
  }

  lemma UpdateRulesTruthy(args: Args, options: Options)
    requires Tabulates(options, UpdateRules(args), |UpdateRules(args)|)
    ensures AllTruthyExcept(options, {"name", "deduplication"})
  {
  }

  method ConvertUpdateArgsToOptions(args: Args) returns (options: Options)
    ensures UpdateOptions(args, options)
    ensures AllTruthyExcept(options, {"name", "deduplication"})
  {
    UpdateRulesDistinct(args);
    options := ApplyRules(UpdateRules(args));
    UpdateRulesContents(args, options);
    UpdateRulesTruthy(args, options);
  }

  // ---- save_specs_file: the merge and append, without the YAML file itself ----

  /** A command entry of the specs file (`command`, `description`, `patterns` and the options). */
  type Entry = map<string, OptVal>

  /** A top-level value of the specs document: the `commands` list or any other setting. */
  datatype TopValue = CommandList(entries: seq<Entry>) | Setting(setting: OptVal)

  /** A specs document whose `commands`, when present, is a list. */
  type SpecsData = m: map<string, TopValue> | "commands" in m ==> m["commands"].CommandList?
    witness map[]

  /** What reading the specs file gives: no file, a caught `IOError` or `yaml.YAMLError`, a falsy
      document (an empty file loads as None), or a mapping. */
  datatype Loaded = NotFound | Unreadable | Falsy | Mapping(data: SpecsData)

  const FreshSpecs: SpecsData := map["commands" := CommandList([])]

  /** The command entry: the three base keys, then `command_entry.update(options)`. */
  function CommandEntry(command: string, description: string, patterns: seq<string>, options: Options): (e: Entry)
    ensures e.Keys == {"command", "description", "patterns"} + options.Keys
    ensures forall k | k in options :: e[k] == options[k]
    ensures "command" !in options ==> e["command"] == Str(command)
    ensures "description" !in options ==> e["description"] == Str(description)
    ensures "patterns" !in options ==> e["patterns"] == Strings(patterns)
  {
    map["command" := Str(command), "description" := Str(description), "patterns" := Strings(patterns)] + options
  }

  /** The commands the file already lists: none unless it held a mapping with `commands`. */
  function PriorCommands(loaded: Loaded): seq<Entry>
  {
    if loaded.Mapping? && "commands" in loaded.data then loaded.data["commands"].entries else []
  }

  /** The document to append to: the loaded mapping (given an empty `commands` when it has
      none), or a fresh `{'commands': []}` when the file is missing, unreadable or falsy. */
  function StartingSpecs(loaded: Loaded): (start: SpecsData)
    ensures "commands" in start && start["commands"] == CommandList(PriorCommands(loaded))
    ensures forall k | k != "commands" :: k in start <==> loaded.Mapping? && k in loaded.data
    ensures forall k | k != "commands" && k in start :: loaded.Mapping? && start[k] == loaded.data[k]
  {
    match loaded
    case Mapping(m) =>
      if |m| == 0 then FreshSpecs
      else if "commands" in m then m
      else m["commands" := CommandList([])]
    case _ => FreshSpecs
  }

  /** The document `save_specs_file` writes back. */
  function SavedSpecs(loaded: Loaded, command: string, description: string, patterns: seq<string>,
                      options: Options): (saved: SpecsData)
    ensures "commands" in saved
    ensures saved["commands"] == CommandList(PriorCommands(loaded) + [CommandEntry(command, description, patterns, options)])
    ensures forall k | k != "commands" :: k in saved <==> loaded.Mapping? && k in loaded.data
    ensures forall k | k != "commands" && k in saved :: loaded.Mapping? && saved[k] == loaded.data[k]
  {
    var start := StartingSpecs(loaded);
    start["commands" := CommandList(start["commands"].entries + [CommandEntry(command, description, patterns, options)])]
  }

  /** Loading the document to append to: `yaml.safe_load(f) or {'commands': []}`, then an empty
      `commands` list when the mapping has none; an unreadable file starts fresh. */
  method LoadSpecs(loaded: Loaded) returns (specs: SpecsData)
    ensures specs == StartingSpecs(loaded)
  {
    specs := FreshSpecs;
    match loaded {
      case Mapping(m) =>
        specs := if |m| == 0 then FreshSpecs else m;
        if "commands" !in specs {
          specs := specs["commands" := CommandList([])];
        }
      case Unreadable =>
        specs := FreshSpecs;
      case _ =>
    }
  }

  method SaveSpecsFile(loaded: Loaded, command: string, description: string, patterns: seq<string>,
                       options: Options) returns (saved: SpecsData)
    ensures saved == SavedSpecs(loaded, command, description, patterns, options)
  {
    var entry: Entry := map["command" := Str(command), "description" := Str(description), "patterns" := Strings(patterns)];
    entry := entry + options;
    assert entry == CommandEntry(command, description, patterns, options);
    var specs := LoadSpecs(loaded);
    var commands := specs["commands"].entries;
    saved := specs["commands" := CommandList(commands + [entry])];
  }

  /** A missing, unreadable or falsy file is replaced by a document holding just the new entry. */
  lemma FreshStart(loaded: Loaded, command: string, description: string, patterns: seq<string>, options: Options)
    requires !loaded.Mapping? || loaded.data == map[]
    ensures SavedSpecs(loaded, command, description, patterns, options)
         == map["commands" := CommandList([CommandEntry(command, description, patterns, options)])]
  {
    var e := CommandEntry(command, description, patterns, options);
    assert StartingSpecs(loaded) == FreshSpecs;
    assert FreshSpecs["commands"].entries + [e] == [e];
    assert FreshSpecs["commands" := CommandList([e])] == map["commands" := CommandList([e])];
  }

  /** A document that already lists commands gets the entry appended to that list, and
      nothing else of it changes. */
  lemma AppendToListed(m: SpecsData, command: string, description: string, patterns: seq<string>, options: Options)
    requires "commands" in m
    ensures SavedSpecs(Mapping(m), command, description, patterns, options)
         == m["commands" := CommandList(m["commands"].entries + [CommandEntry(command, description, patterns, options)])]
  {
    assert StartingSpecs(Mapping(m)) == m;
  }

  /** Saving twice appends both entries in order and keeps everything else of the file. */
  lemma {:induction false} SaveTwice(loaded: Loaded, c1: string, d1: string, p1: seq<string>, o1: Options,
                                     c2: string, d2: string, p2: seq<string>, o2: Options)
    ensures var twice := SavedSpecs(Mapping(SavedSpecs(loaded, c1, d1, p1, o1)), c2, d2, p2, o2);
            && twice["commands"].entries
               == PriorCommands(loaded) + [CommandEntry(c1, d1, p1, o1), CommandEntry(c2, d2, p2, o2)]
            && forall k | k != "commands" :: k in twice <==> loaded.Mapping? && k in loaded.data
  {
    var once := SavedSpecs(loaded, c1, d1, p1, o1);
    assert PriorCommands(Mapping(once)) == PriorCommands(loaded) + [CommandEntry(c1, d1, p1, o1)];
    assert PriorCommands(loaded) + [CommandEntry(c1, d1, p1, o1)] + [CommandEntry(c2, d2, p2, o2)]
        == PriorCommands(loaded) + [CommandEntry(c1, d1, p1, o1), CommandEntry(c2, d2, p2, o2)];
  }
}
