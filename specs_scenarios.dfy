/**
 * The examples of tests/test_specs.py, stated as facts about the model. The
 * namespaces there define only the attributes they list, so every other
 * attribute is `Missing`.
 */
module SpecsScenarios {
  import opened Specs

  /** Proof aid: the literal pairs of the examples, joined with a space. */
  lemma JoinedExamples()
    ensures "status" + " " + "published" == "status published"
    ensures "date" + " " + "\\d{4}-\\d{2}-\\d{2}" == "date \\d{4}-\\d{2}-\\d{2}"
    ensures "old" + " " + "new" == "old new"
  {
  }

  method ReadOptions() returns (options: Options)
    ensures options == map["output" := Str("frontmatter"), "skip_heading" := Flag(true)]
  {
    options := ConvertReadArgsToOptions(NoArgs.(output := Given("frontmatter"), skipHeading := Given(true)));
  }

  /** The defaults `output='both'` and `skip_heading=False` are left out. */
  method ReadDefaults() returns (options: Options)
    ensures options == map[]
  {
    options := ConvertReadArgsToOptions(NoArgs.(output := Given("both"), skipHeading := Given(false)));
  }

  method SearchOptions() returns (options: Options)
    ensures options == map["name" := Str("tags"), "value" := Str("test"), "ignore_case" := Flag(true),
                           "csv" := Str("results.csv")]
  {
    options := ConvertSearchArgsToOptions(NoArgs.(name := Given("tags"), value := Given("test"),
                                                  ignoreCase := Given(true), regex := Given(false),
                                                  csvFile := Given("results.csv")));
  }

  /** Proof aid: the attributes that namespace of `test_convert_validate_args_to_options` sets, and the
      ones it lacks, read off the record one by one so that later proofs need not unfold it. */
  lemma ValidateExampleArgs(args: Args)
    requires args == NoArgs.(exist := Given(["title", "author"]), notExist := Given(["draft"]),
                             eq := Given([("status", "published")]),
                             matches := Given([("date", "\\d{4}-\\d{2}-\\d{2}")]),
                             ignoreCase := Given(true), csvFile := Given("validation.csv"))
    ensures args.exist == Given(["title", "author"]) && args.notExist == Given(["draft"])
    ensures args.eq == Given([("status", "published")])
    ensures args.matches == Given([("date", "\\d{4}-\\d{2}-\\d{2}")])
    ensures args.ignoreCase == Given(true) && args.csvFile == Given("validation.csv")
    ensures args.ne == Missing && args.contain == Missing && args.notContain == Missing && args.notMatches == Missing
  {
  }

  /** Proof aid: the keys the expected dictionary of that test holds, with their values. */
  lemma ValidateExpectedPresent(o: Options)
    requires o == map["exist" := Strings(["title", "author"]), "not" := Strings(["draft"]),
                 "eq" := Strings(["status published"]),
                 "match" := Strings(["date \\d{4}-\\d{2}-\\d{2}"]),
                 "ignore_case" := Flag(true), "csv" := Str("validation.csv")]
    ensures "exist" in o && o["exist"] == Strings(["title", "author"])
    ensures "not" in o && o["not"] == Strings(["draft"])
    ensures "eq" in o && o["eq"] == Strings(["status published"])
    ensures "match" in o && o["match"] == Strings(["date \\d{4}-\\d{2}-\\d{2}"])
    ensures "ignore_case" in o && o["ignore_case"] == Flag(true)
    ensures "csv" in o && o["csv"] == Str("validation.csv")
  {
  }

  /** Proof aid: the keys the expected dictionary of that test lacks. */
  lemma ValidateExpectedAbsent(o: Options)
    requires o == map["exist" := Strings(["title", "author"]), "not" := Strings(["draft"]),
                 "eq" := Strings(["status published"]),
                 "match" := Strings(["date \\d{4}-\\d{2}-\\d{2}"]),
                 "ignore_case" := Flag(true), "csv" := Str("validation.csv")]
    ensures "ne" !in o && "contain" !in o && "not_contain" !in o && "not_match" !in o
  {
  }

  /** The namespace of `test_convert_validate_args_to_options` meets the contract with the options it expects. */
  lemma ValidateExampleMeetsContract(args: Args, o: Options)
    requires args == NoArgs.(exist := Given(["title", "author"]), notExist := Given(["draft"]),
                             eq := Given([("status", "published")]),
                             matches := Given([("date", "\\d{4}-\\d{2}-\\d{2}")]),
                             ignoreCase := Given(true), csvFile := Given("validation.csv"))
    requires o == map["exist" := Strings(["title", "author"]), "not" := Strings(["draft"]),
                 "eq" := Strings(["status published"]),
                 "match" := Strings(["date \\d{4}-\\d{2}-\\d{2}"]),
                 "ignore_case" := Flag(true), "csv" := Str("validation.csv")]
    ensures ValidateOptions(args, o)
  {
    JoinedExamples();
    ValidateExampleArgs(args);
    ValidateExpectedPresent(o);
    ValidateExpectedAbsent(o);
  }

  method ValidateOptionsExample() returns (options: Options)
    ensures options == map["exist" := Strings(["title", "author"]), "not" := Strings(["draft"]),
                           "eq" := Strings(["status published"]),
                           "match" := Strings(["date \\d{4}-\\d{2}-\\d{2}"]),
                           "ignore_case" := Flag(true), "csv" := Str("validation.csv")]
  {
    var args := NoArgs.(exist := Given(["title", "author"]), notExist := Given(["draft"]),
                        eq := Given([("status", "published")]),
                        matches := Given([("date", "\\d{4}-\\d{2}-\\d{2}")]),
                        ignoreCase := Given(true), csvFile := Given("validation.csv"));
    options := ConvertValidateArgsToOptions(args);
    var expected := map["exist" := Strings(["title", "author"]), "not" := Strings(["draft"]),
                        "eq" := Strings(["status published"]),
                        "match" := Strings(["date \\d{4}-\\d{2}-\\d{2}"]),
                        "ignore_case" := Flag(true), "csv" := Str("validation.csv")];
    ValidateExampleMeetsContract(args, expected);
    ValidateOptionsUnique(args, options, expected);
  }

  /** Proof aid: the keys the expected dictionary of `test_convert_update_args_to_options` holds, and the
      ones it lacks. */
  lemma UpdateExpectedKeys(o: Options)
    requires o == map["name" := Str("title"), "case" := Str("Title Case"), "replace" := Strings(["old new"]),
                 "remove" := Strings(["test"]), "regex" := Flag(true)]
    ensures "name" in o && o["name"] == Str("title")
    ensures "case" in o && o["case"] == Str("Title Case")
    ensures "replace" in o && o["replace"] == Strings(["old new"])
    ensures "remove" in o && o["remove"] == Strings(["test"])
    ensures "regex" in o && o["regex"] == Flag(true)
    ensures "deduplication" !in o && "ignore_case" !in o
  {
  }

  /** The namespace of that test meets the contract with the options it expects. */
  lemma UpdateExampleMeetsContract(args: Args, o: Options)
    requires args == NoArgs.(name := Given("title"), caseStyle := Given("Title Case"),
                             replace := Given([("old", "new")]), remove := Given(["test"]),
                             deduplication := Given("true"), ignoreCase := Given(false), regex := Given(true))
    requires o == map["name" := Str("title"), "case" := Str("Title Case"), "replace" := Strings(["old new"]),
                 "remove" := Strings(["test"]), "regex" := Flag(true)]
    ensures UpdateOptions(args, o)
  {
    JoinedExamples();
    assert JoinPairs(args.replace.value) == ["old new"];
    UpdateExpectedKeys(o);
  }

  /** `deduplication='true'` and `ignore_case=False` are left out. */
  method UpdateOptionsExample() returns (options: Options)
    ensures options == map["name" := Str("title"), "case" := Str("Title Case"), "replace" := Strings(["old new"]),
                           "remove" := Strings(["test"]), "regex" := Flag(true)]
  {
    var args := NoArgs.(name := Given("title"), caseStyle := Given("Title Case"),
                        replace := Given([("old", "new")]), remove := Given(["test"]),
                        deduplication := Given("true"), ignoreCase := Given(false), regex := Given(true));
    options := ConvertUpdateArgsToOptions(args);
    var expected := map["name" := Str("title"), "case" := Str("Title Case"), "replace" := Strings(["old new"]),
                        "remove" := Strings(["test"]), "regex" := Flag(true)];
    UpdateExampleMeetsContract(args, expected);
    UpdateOptionsUnique(args, options, expected);
  }

  /** Saving to a file that does not exist yet. */
  method SaveToNewFile() returns (saved: SpecsData)
    ensures saved == map["commands" := CommandList([map["command" := Str("read"), "description" := Str("test read"),
                                                        "patterns" := Strings(["*.md", "docs/*.md"]),
                                                        "output" := Str("frontmatter"), "skip_heading" := Flag(true)]])]
  {
    var patterns := ["*.md", "docs/*.md"];
    var options := map["output" := Str("frontmatter"), "skip_heading" := Flag(true)];
    saved := SaveSpecsFile(NotFound, "read", "test read", patterns, options);
    FreshStart(NotFound, "read", "test read", patterns, options);
    assert CommandEntry("read", "test read", patterns, options)
        == map["command" := Str("read"), "description" := Str("test read"), "patterns" := Strings(patterns),
               "output" := Str("frontmatter"), "skip_heading" := Flag(true)];
  }

  /** The entry of the second save in `test_save_specs_file_append`. */
  lemma SearchEntry()
    ensures CommandEntry("search", "test search", ["new/*.md"], map["name" := Str("tags"), "value" := Str("test")])
         == map["command" := Str("search"), "description" := Str("test search"), "patterns" := Strings(["new/*.md"]),
                "name" := Str("tags"), "value" := Str("test")]
  {
  }

  /** A file holding only a list of commands keeps holding only that list, one entry longer. */
  lemma CommandsOnly(entries: seq<Entry>, command: string, description: string, patterns: seq<string>, options: Options)
    ensures SavedSpecs(Mapping(map["commands" := CommandList(entries)]), command, description, patterns, options)
         == map["commands" := CommandList(entries + [CommandEntry(command, description, patterns, options)])]
  {
    var m: SpecsData := map["commands" := CommandList(entries)];
    AppendToListed(m, command, description, patterns, options);
    var e := CommandEntry(command, description, patterns, options);
    assert m["commands" := CommandList(entries + [e])] == map["commands" := CommandList(entries + [e])];
  }

  /** Appending to a file that already lists one command: the old entry stays first. */
  method AppendToExisting() returns (saved: SpecsData)
    ensures saved == map["commands" := CommandList([
      map["command" := Str("read"), "description" := Str("existing read"), "patterns" := Strings(["old/*.md"])],
      map["command" := Str("search"), "description" := Str("test search"), "patterns" := Strings(["new/*.md"]),
          "name" := Str("tags"), "value" := Str("test")]])]
  {
    var existing: Entry := map["command" := Str("read"), "description" := Str("existing read"),
                               "patterns" := Strings(["old/*.md"])];
    var options := map["name" := Str("tags"), "value" := Str("test")];
    saved := SaveSpecsFile(Mapping(map["commands" := CommandList([existing])]), "search", "test search", ["new/*.md"], options);
    CommandsOnly([existing], "search", "test search", ["new/*.md"], options);
    SearchEntry();
    var entry := CommandEntry("search", "test search", ["new/*.md"], options);
    assert [existing] + [entry] == [existing, entry];
  }
}
