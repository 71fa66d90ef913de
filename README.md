# fmu search and specs, modelled in Dafny

This project models two parts of `fmu`, a front matter utility for Markdown files.

**Front matter search (`fmu/search.py`).**
- `search_frontmatter` walks the resolved files in order. For every top-level field of every file that has front matter, it keeps a `(file, field name, field value)` triple when the field's name equals the query name. When a query value is given, the field's `str()` must also equal that value.
- With `ignore_case`, both sides of both comparisons are lowercased. An empty query value is left as it is.
- Files without front matter, and files whose parse raises one of the caught errors, are skipped. (A caught error raised later, inside the field loop, is not modelled; see "## Left out".)
- `output_search_results` writes the triples either as CSV rows under a fixed header or as two console lines per result.
- `search_and_output` runs the search and then the output.

**Specs files (`fmu/specs.py`).**
- Four builders turn an argparse namespace into the options dictionary of a `read`, `search`, `validate` or `update` command. Each stores a key only under its own guard: `name` whenever the attribute exists (even when it is None), `output` and `deduplication` whenever the attribute exists and is not the default `'both'` or `'true'` (even when None or empty), and every other key only when its argument is truthy. The builders rename a few keys (`csv_file` becomes `csv`, `not_exist` becomes `not`) and join `(field, value)` pairs into `"field value"` strings.
- `save_specs_file` overlays the options on a `command`/`description`/`patterns` entry. It then appends that entry to the `commands` list of the loaded specs document, starting fresh when the file is missing, empty, or raises a caught `IOError` or `yaml.YAMLError`.

Modules:
- `Wrappers`: `Option`.
- `Sequences`: order-preserving `Filter` and the subsequence relation.
- `Search`: the search, its specification `Matches`, and the rendering `Render`.
- `Specs`: the builders and the specs document update.
- `SearchScenarios` and `SpecsScenarios`: the repository's unit-test scenarios, stated as lemmas and methods.

The search, the output, the validate and update builders and the specs update are methods with loops or guarded updates, proved equal to a specification function or to a predicate that determines the result uniquely; properties of those are proved as lemmas. The read and search builders are methods whose contracts state, key by key, when each key is stored and with which value, and that nothing else is stored.

The `validate` and `update` builders are a long series of guarded insertions `if cond: options[key] = value`. The model writes them as a table of `Rule(key, present, value)` records, in source order, and runs the table through one loop, `ApplyRules`. Its invariant `Tabulates` says each processed key is stored exactly when its guard holds. `read` and `search` keep their guarded insertions written out.

## Model

| member | source | states |
|---|---|---|
| Search.SearchFields | fmu/search.py:45-56 | the inner loop over one file's fields returns, in field order, exactly the fields the query selects: folded name equal to the folded query name, and, when a value is given, folded `str()` equal to the folded value |
| Search.SelectedIffAgrees | fmu/search.py:35-36 | folding the query terms once up front, with an empty query value left unlowered, selects exactly the fields whose folded name equals the folded query name and, when a value is given, whose folded `str()` equals the folded query value, provided lowering keeps the empty string empty |
| Search.SearchFrontmatter | fmu/search.py:31-62 | the nested loop returns exactly `Matches`: the selected fields of all files with front matter, file by file and field by field, skipping files without front matter and files that fail to parse |
| Search.MatchesMembership | fmu/search.py:38-56 | a triple is a result if and only if it is the name and value of a top-level field of one of the input files and the query selects it |
| Search.ResultsAgreeWithQuery | fmu/search.py:35-56 | every result keeps the field's original name and value, comes from an input file, has a folded name equal to the folded query name (exact equality without `ignore_case`), and, when a value is given, a folded `str()` equal to the folded query value |
| Search.MatchesAppend | fmu/search.py:38-60 | searching a concatenation of file lists gives the concatenation of the separate results |
| Search.SkippedFile | fmu/search.py:41-42 | a file without front matter, or one whose parse raises a caught error, adds no result and does not change the results of the files after it |
| Search.ResultsInOrder | fmu/search.py:38-56 | the results are a subsequence of all candidate fields in file order, then field order |
| Search.PresenceOnly | fmu/search.py:50-51 | without a query value, the results are exactly the fields whose folded name matches, one per field, and do not depend on how values are stringified |
| Search.CaseSensitiveIsSubsequence | fmu/search.py:35-56 | the case-sensitive results are a subsequence of the case-insensitive results for the same name and value |
| Search.CsvRowsShape | fmu/search.py:79-84 | the CSV rows are the header `File Path`, `Front Matter Name`, `Front Matter Value`, then exactly one row per result, in order: n + 1 rows |
| Search.ConsoleLinesShape | fmu/search.py:86-89 | the console output is exactly two lines per result, in order: `"{path}:"` then `"- {name}: {value}"`, with no grouping and no deduplication |
| Search.OutputSearchResults | fmu/search.py:76-89 | the output loops produce `Render`: CSV rows when a non-empty CSV file name is given, console lines otherwise |
| Search.SearchAndOutput | fmu/search.py:111-112 | the output is the rendering of exactly the search results |
| Specs.JoinPairs | fmu/specs.py:104 | the joined list has the same length and order as the pairs, each entry being `field + " " + value` |
| Specs.ConvertReadArgsToOptions | fmu/specs.py:57-67 | `output` is stored exactly when the attribute exists and is not `'both'`; `skip_heading` is stored as `True` exactly when the flag is truthy; no other key is stored |
| Specs.ConvertSearchArgsToOptions | fmu/specs.py:70-89 | `name` is copied whenever the attribute exists, even when it is None; `value`, `ignore_case`, `regex` and `csv` (the `csv_file` attribute) are stored only when truthy; no other key is stored, and every value besides `name` is truthy |
| Specs.ApplyRules | fmu/specs.py:92-127 | running guarded insertions with distinct keys in order stores each key, with its value, exactly when its guard holds, and stores nothing else |
| Specs.TabulatesUnique | fmu/specs.py:92-155 | a table of guarded insertions determines the dictionary: two dictionaries that both satisfy it are equal |
| Specs.ValidateRulesContents | fmu/specs.py:97-125 | the validate rule table yields the dictionary described by `ValidateOptions` |
| Specs.ConvertValidateArgsToOptions | fmu/specs.py:92-127 | each of `exist`, `not` (the `not_exist` attribute), `eq`, `ne`, `contain`, `not_contain`, `match`, `not_match`, `ignore_case` and `csv` is stored exactly when its argument is truthy; pair lists are stored joined; nothing else is stored and no stored value is falsy |
| Specs.ValidateOptionsUnique | fmu/specs.py:92-127 | the validate contract determines the options dictionary uniquely |
| Specs.UpdateRulesContents | fmu/specs.py:134-153 | the update rule table yields the dictionary described by `UpdateOptions` |
| Specs.ConvertUpdateArgsToOptions | fmu/specs.py:130-155 | `name` is stored whenever the attribute exists; `deduplication` exactly when it exists and is not `'true'`; `case`, `replace` (joined), `remove`, `ignore_case` and `regex` only when truthy; nothing else is stored |
| Specs.UpdateOptionsUnique | fmu/specs.py:130-155 | the update contract determines the options dictionary uniquely |
| Specs.CommandEntry | fmu/specs.py:28-35 | the entry's keys are the three base keys plus the option keys; every option value overrides a base key of the same name; the base keys the options leave alone keep their command, description and patterns |
| Specs.StartingSpecs | fmu/specs.py:38-47 | the document to append to has a `commands` list holding the prior commands; its other keys are exactly those of the loaded mapping, with the same values; a missing file, a caught `IOError` or `yaml.YAMLError`, or a falsy document gives just an empty `commands` list |
| Specs.SavedSpecs | fmu/specs.py:28-50 | the saved document's `commands` is the prior commands followed by exactly one new entry; every other key of the loaded mapping is kept unchanged and no other key is added |
| Specs.LoadSpecs | fmu/specs.py:38-47 | loading yields `StartingSpecs`: the loaded mapping (or `{'commands': []}` when falsy, missing, or failing with a caught `IOError` or `yaml.YAMLError`), with an empty `commands` added when the mapping has none |
| Specs.SaveSpecsFile | fmu/specs.py:28-50 | building the entry, updating it with the options, loading and appending give exactly `SavedSpecs` |
| Specs.FreshStart | fmu/specs.py:38-47 | a missing or empty file, or one failing with a caught `IOError` or `yaml.YAMLError`, is replaced by a document holding only a `commands` list with the new entry |
| Specs.AppendToListed | fmu/specs.py:43-50 | a document that already has `commands` gets the entry appended to that list, and nothing else of it changes |
| Specs.SaveTwice | fmu/specs.py:50 | two saves append both entries, in order, after the prior commands, and keep the other keys of the file |
| SearchScenarios.TitlePresence | tests/test_search.py:56-65 | searching the three sample posts for `title` yields one result per post, in file order |
| SearchScenarios.ExactValue | tests/test_search.py:67-74 | `author` = `John Doe` yields only the first post's field, with its original name and value |
| SearchScenarios.CaseInsensitiveValue | tests/test_search.py:76-84 | `author` = `john doe` with `ignore_case` yields the first and third posts |
| SearchScenarios.CaseSensitiveValue | tests/test_search.py:86-91 | `author` = `john doe` without `ignore_case` yields only the third post |
| SearchScenarios.CaseInsensitiveName | tests/test_search.py:93-100 | `CATEGORY` = `programming` with `ignore_case` yields the first and third posts |
| SearchScenarios.NoSuchField | tests/test_search.py:102-106 | a field name that no post has yields no results |
| SearchScenarios.OneResultOnConsole | tests/test_search.py:108-126 | one result is printed as its path line followed by `- title: First Post` |
| SearchScenarios.TwoResultsAsCsv | tests/test_search.py:128-150 | two results are written as the header and the two rows, in order |
| SpecsScenarios.SaveToNewFile | tests/test_specs.py:36-59 | saving to a new file yields a single `commands` entry with the command, description, patterns and options |
| SpecsScenarios.AppendToExisting | tests/test_specs.py:61-88 | saving to a file with one command yields two commands: the existing one unchanged, then the new `search` entry |
| SpecsScenarios.ReadOptions | tests/test_specs.py:90-104 | the read builder stores `output` and `skip_heading` |
| SpecsScenarios.ReadDefaults | tests/test_specs.py:106-116 | with `output='both'` and `skip_heading=False`, the read builder gives `{}` |
| SpecsScenarios.SearchOptions | tests/test_specs.py:118-137 | the search builder keeps `name`, `value`, `ignore_case` and `csv`, and drops a false `regex` |
| SpecsScenarios.ValidateOptionsExample | tests/test_specs.py:139-161 | the validate builder gives the expected six keys, with `not` for `not_exist` and joined `eq`/`match` lists |
| SpecsScenarios.UpdateOptionsExample | tests/test_specs.py:163-185 | the update builder drops `deduplication='true'` and a false `ignore_case`, and joins `replace` pairs |


## Left out

- `fmu/core.py` is not part of this model. `parse_file` and `get_files_from_patterns` live there. The resolved file list and each file's parse outcome are inputs of the search.
- Python's `str()` of a front matter value and `str.lower()` are function parameters (`str`, `lower`), because Python's value formatting and Unicode case mapping are outside the model. The test scenarios state the lowercasings they rely on as preconditions. `CaseSensitiveIsSubsequence`, `ResultsAgreeWithQuery` and `SelectedIffAgrees` assume `lower("") == ""`, which holds of `str.lower`.
- Front matter that parses to something other than a mapping, such as a bare YAML list, is not modelled. The source's `.items()` call would raise an error that the search does not catch. The parse outcome type admits only an error, no front matter, or a mapping.
- Field values: `Value` has constructors for None, booleans, integers, strings, lists and mappings, and `Other` for every other YAML scalar (floats, dates, timestamps); all of them are compared only through `str`.
- Field names that are not strings (a YAML key such as `2024: x`) are not modelled: with `ignore_case`, `fm_name.lower()` at fmu/search.py:47 would raise `AttributeError`, which the search does not catch.
- Search.SearchFrontmatter: `str` is total in the model, so no error is raised inside the field loop. In the source the `try` at fmu/search.py:39-60 also covers that loop (:45-56). A caught error raised there, such as the `ValueError` Python 3.11 and later raise from `str()` of an integer with too many digits (:54), ends that file early: its earlier matches stay and its later fields are not examined. The model instead examines every field of such a file.
- Exceptions other than the three the search catches (`FileNotFoundError`, `ValueError`, `UnicodeDecodeError`) are not modelled. Such an exception would abort the whole search.
- The `format_type` argument is not modelled. The search only passes it on to `parse_file`.
- CSV quoting and escaping by Python's `csv` module are not modelled, and neither is opening and writing the CSV file. The output is the list of rows, each a list of cells. The console output is the list of printed lines.
- Reading and writing the YAML specs file are not modelled. The loaded document is an input (`Loaded`) and the saved document is the result. Values in a specs document are restricted to `OptVal` (None, a string, a boolean, a list of strings) and nested command lists.
- A specs file that is not valid UTF-8 is not modelled: reading it inside `yaml.safe_load` at fmu/specs.py:42 raises `UnicodeDecodeError`, which the except at fmu/specs.py:45 does not catch, so `save_specs_file` aborts. `Unreadable` stands only for the caught `IOError` and `yaml.YAMLError`.
- A specs document whose `commands` value is not a list is excluded by the `SpecsData` type. The source's `.append` would raise on it.
- A YAML document that loads to a truthy non-mapping value (a list or a string) is not modelled. The source would fail on it or misbehave.
- Specs.ConvertReadArgsToOptions: the insertion order of the dictionary's keys is not modelled, because a Dafny `map` is unordered. The same holds for the other three builders and for `CommandEntry`. The order is not observable in the source either: `yaml.dump` at fmu/specs.py:54 is called without `sort_keys=False`, so PyYAML writes the keys of every mapping sorted.
- Specs.ConvertValidateArgsToOptions: the ten consecutive guarded insertions run from the rule table `ValidateRules` through the loop of `ApplyRules`, not as ten separate `if` statements. They keep the same keys, guards, values and order.
- Specs.ConvertUpdateArgsToOptions: the seven guarded insertions run from the rule table `UpdateRules` through `ApplyRules`, in the same way.
- An attribute that holds a value of an unexpected type, such as a non-string `output`, is not modelled. Each attribute of `Args` has the type the command-line parser gives it.
- `fmu/cli.py` (argument parsing, help text and command dispatch) and `fmu/__init__.py` (re-exports) are not part of this model.
