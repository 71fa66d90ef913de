/**
 * The front matter search engine of fmu/search.py.
 *
 * The files to search arrive already resolved and parsed: each is a path and
 * the outcome of parsing it (a read or decode error, no front matter, or a
 * mapping of top-level fields in their document order). Python's `str()` of a
 * field value and `str.lower()` are parameters `str` and `lower`: the search
 * only ever compares their results.
 */
module Search {
  import opened Wrappers
  import opened Sequences

  type Path = string

  /** A decoded front matter value. */
  datatype Value =
    | Null
    | Boolean(b: bool)
    | Integer(n: int)
    | Text(s: string)
    | Sequence(items: seq<Value>)
    | Nested(entries: seq<(string, Value)>)
    | Other(tag: string)  // any other YAML scalar (a float, a date, a timestamp), known only through `str`

  /** The exceptions of parse_file that the search catches. */
  datatype FileError = FileNotFound | InvalidValue | UndecodableText

  /** What parsing one file produced. */
  datatype ParseOutcome =
    | Unreadable(error: FileError)
    | NoFrontMatter
    | FrontMatter(fields: seq<(string, Value)>)

  datatype Query = Query(name: string, value: Option<string>, ignoreCase: bool)

  /** One search result: the file, and the field's own name and value. */
  datatype Match = Match(path: Path, name: string, value: Value)

  function Fold(lower: string -> string, ignoreCase: bool, s: string): string
  {
    if ignoreCase then lower(s) else s
  }

  /** The name that field names are compared with. */
  function SearchName(q: Query, lower: string -> string): string
  {
    Fold(lower, q.ignoreCase, q.name)
  }

  /** The value that stringified field values are compared with; an empty
      value is left as it is even when case is ignored. */
  function SearchValue(q: Query, lower: string -> string): Option<string>
  {
    if q.ignoreCase && q.value.Some? && q.value.value != "" then Some(lower(q.value.value))
    else q.value
  }

  /** Whether a field with this name and value yields a result for `q`. */
  predicate Selected(q: Query, lower: string -> string, str: Value -> string, name: string, value: Value)
  {
    && Fold(lower, q.ignoreCase, name) == SearchName(q, lower)
    && (q.value.None? || Some(Fold(lower, q.ignoreCase, str(value))) == SearchValue(q, lower))
  }

  function Selector(q: Query, lower: string -> string, str: Value -> string): Match -> bool
  {
    (r: Match) => Selected(q, lower, str, r.name, r.value)
  }

  /** Every field of one file, as a candidate result. */
  function FieldRecords(path: Path, fields: seq<(string, Value)>): (rs: seq<Match>)
    ensures |rs| == |fields|
    ensures forall k :: 0 <= k < |fields| ==> rs[k] == Match(path, fields[k].0, fields[k].1)
    decreases |fields|
  {
    if |fields| == 0 then []
    else
      var (name, value) := fields[|fields| - 1];
      FieldRecords(path, fields[..|fields| - 1]) + [Match(path, name, value)]
  }

  function DocRecords(doc: (Path, ParseOutcome)): seq<Match>
  {
    match doc.1
    case FrontMatter(fields) => FieldRecords(doc.0, fields)
    case _ => []
  }

  /** Every top-level field of every file that has front matter, file by file
      and in field order within a file. */
  function Candidates(docs: seq<(Path, ParseOutcome)>): seq<Match>
    decreases |docs|
  {
    if |docs| == 0 then []
    else Candidates(docs[..|docs| - 1]) + DocRecords(docs[|docs| - 1])
  }

  /** The results of a search: the candidates that the query selects. */
  function Matches(docs: seq<(Path, ParseOutcome)>, q: Query, lower: string -> string, str: Value -> string): seq<Match>
  {
    Filter(Candidates(docs), Selector(q, lower, str))
  }

  /** One step of the inner loop: adding the next record when it is selected extends the
      selected records of the prefix seen so far. */
  lemma FilterPrefixStep(recs: seq<Match>, j: nat, p: Match -> bool, before: seq<Match>, after: seq<Match>)
    requires j < |recs| && before == Filter(recs[..j], p)
    requires after == before + (if p(recs[j]) then [recs[j]] else [])
    ensures after == Filter(recs[..j + 1], p)
  {
    assert recs[..j + 1][..j] == recs[..j];
  }

  lemma MatchesStep(docs: seq<(Path, ParseOutcome)>, i: nat, q: Query, lower: string -> string, str: Value -> string)
    requires i < |docs|
    ensures Matches(docs[..i + 1], q, lower, str) == Matches(docs[..i], q, lower, str) + Filter(DocRecords(docs[i]), Selector(q, lower, str))
  {
    assert docs[..i + 1][..i] == docs[..i];
    FilterAppend(Candidates(docs[..i]), DocRecords(docs[i]), Selector(q, lower, str));
  }

  /** Proof aid: selection of a record, stated with the already folded search name and value
      that the loop compares against. */
  lemma SelectedByFolds(q: Query, lower: string -> string, str: Value -> string, m: Match,
                        searchName: string, searchValue: Option<string>)
    requires searchName == SearchName(q, lower) && searchValue == SearchValue(q, lower)
    ensures Selector(q, lower, str)(m) <==>
      && Fold(lower, q.ignoreCase, m.name) == searchName
      && (searchValue.None? || Fold(lower, q.ignoreCase, str(m.value)) == searchValue.value)
  {
  }

  /** The comparison as the query describes it: each side of each comparison is
      folded where it is compared, the query value included. */
  predicate Agrees(q: Query, lower: string -> string, str: Value -> string, name: string, value: Value)
  {
    && Fold(lower, q.ignoreCase, name) == Fold(lower, q.ignoreCase, q.name)
    && (q.value.None? || Fold(lower, q.ignoreCase, str(value)) == Fold(lower, q.ignoreCase, q.value.value))
  }

  /** Leaving an empty query value unlowered changes nothing as long as lowering
      keeps the empty string empty: the search selects exactly the fields that
      agree with the query. */
  lemma SelectedIffAgrees(q: Query, lower: string -> string, str: Value -> string, name: string, value: Value)
    requires lower("") == ""
    ensures Selected(q, lower, str, name, value) <==> Agrees(q, lower, str, name, value)
  {
  }

  /** The inner loop of search_frontmatter: the fields of one file's front
      matter that match, given the already folded search name and value. */
  method SearchFields(path: Path, fields: seq<(string, Value)>, searchName: string, searchValue: Option<string>,
                      q: Query, lower: string -> string, str: Value -> string)
    returns (found: seq<Match>)
    requires searchName == SearchName(q, lower) && searchValue == SearchValue(q, lower)
    ensures found == Filter(FieldRecords(path, fields), Selector(q, lower, str))
  {
    ghost var p := Selector(q, lower, str);
    ghost var recs := FieldRecords(path, fields);
    found := [];
    var j := 0;
    while j < |fields|
      invariant 0 <= j <= |fields|
      invariant found == Filter(recs[..j], p)
    {
      var fmName := fields[j].0;
      var fmValue := fields[j].1;
      var m := Match(path, fmName, fmValue);
      assert recs[j] == m;
      SelectedByFolds(q, lower, str, m, searchName, searchValue);
      ghost var selected := p(m);
      ghost var before := found;
      var checkName := if q.ignoreCase then lower(fmName) else fmName;
      if checkName == searchName {
        if searchValue.None? {
          found := found + [m];
        } else {
          var checkValue := if q.ignoreCase then lower(str(fmValue)) else str(fmValue);
          if checkValue == searchValue.value {
            found := found + [m];
          }
        }
      }
      assert found == before + (if selected then [m] else []);
      FilterPrefixStep(recs, j, p, before, found);
      j := j + 1;
    }
    assert recs[..|fields|] == recs;
  }

  /** search_frontmatter over the resolved and parsed files. */
  method SearchFrontmatter(docs: seq<(Path, ParseOutcome)>, name: string, value: Option<string>, ignoreCase: bool,
                           lower: string -> string, str: Value -> string)
    returns (results: seq<Match>)
    ensures results == Matches(docs, Query(name, value, ignoreCase), lower, str)
  {
    var q := Query(name, value, ignoreCase);
    results := [];
    var searchName := if ignoreCase then lower(name) else name;
    var searchValue := if ignoreCase && value.Some? && value.value != "" then Some(lower(value.value)) else value;
    var i := 0;
    while i < |docs|
      invariant 0 <= i <= |docs|
      invariant results == Matches(docs[..i], q, lower, str)
    {
      var path := docs[i].0;
      MatchesStep(docs, i, q, lower, str);
      match docs[i].1 {
        case FrontMatter(fields) =>
          var found := SearchFields(path, fields, searchName, searchValue, q, lower, str);
          results := results + found;
        case _ =>
          // an unreadable file, or one without front matter, is skipped
      }
      i := i + 1;
    }
    assert docs[..|docs|] == docs;
  }

  // ---------------------------------------------------------------------------
  // Properties of the search

  /** `r` is the record of some top-level field of some file with front matter. */
  ghost predicate FieldOf(docs: seq<(Path, ParseOutcome)>, r: Match)
  {
    exists i, k :: 0 <= i < |docs| && docs[i].1.FrontMatter? && 0 <= k < |docs[i].1.fields| &&
      r == Match(docs[i].0, docs[i].1.fields[k].0, docs[i].1.fields[k].1)
  }

  lemma {:induction false} CandidatesSound(docs: seq<(Path, ParseOutcome)>, r: Match)
    requires r in Candidates(docs)
    ensures FieldOf(docs, r)
    decreases |docs|
  {
    var n := |docs| - 1;
    var docs' := docs[..n];
    var last := DocRecords(docs[n]);
    assert Candidates(docs) == Candidates(docs') + last;
    if r in Candidates(docs') {
      CandidatesSound(docs', r);
      var i, k :| 0 <= i < |docs'| && docs'[i].1.FrontMatter? && 0 <= k < |docs'[i].1.fields| &&
        r == Match(docs'[i].0, docs'[i].1.fields[k].0, docs'[i].1.fields[k].1);
      assert docs[i] == docs'[i];
    } else {
      var fields := docs[n].1.fields;
      var k :| 0 <= k < |fields| && FieldRecords(docs[n].0, fields)[k] == r;
      assert r == Match(docs[n].0, docs[n].1.fields[k].0, docs[n].1.fields[k].1);
    }
  }

  lemma {:induction false} CandidatesComplete(docs: seq<(Path, ParseOutcome)>, i: nat, k: nat)
    requires i < |docs| && docs[i].1.FrontMatter? && k < |docs[i].1.fields|
    ensures Match(docs[i].0, docs[i].1.fields[k].0, docs[i].1.fields[k].1) in Candidates(docs)
    decreases |docs|
  {
    var n := |docs| - 1;
    var docs' := docs[..n];
    var last := DocRecords(docs[n]);
    assert Candidates(docs) == Candidates(docs') + last;
    if i < n {
      assert docs'[i] == docs[i];
      CandidatesComplete(docs', i, k);
    } else {
      assert last[k] == Match(docs[i].0, docs[i].1.fields[k].0, docs[i].1.fields[k].1);
    }
  }

  lemma CandidatesMembership(docs: seq<(Path, ParseOutcome)>, r: Match)
    ensures r in Candidates(docs) <==> FieldOf(docs, r)
  {
    if r in Candidates(docs) {
      CandidatesSound(docs, r);
    }
    if FieldOf(docs, r) {
      var i, k :| 0 <= i < |docs| && docs[i].1.FrontMatter? && 0 <= k < |docs[i].1.fields| &&
        r == Match(docs[i].0, docs[i].1.fields[k].0, docs[i].1.fields[k].1);
      CandidatesComplete(docs, i, k);
    }
  }

  /** A record is a result exactly when it comes from a field of one of the
      files and the query selects that field's name and value. */
  lemma MatchesMembership(docs: seq<(Path, ParseOutcome)>, q: Query, lower: string -> string, str: Value -> string, r: Match)
    ensures r in Matches(docs, q, lower, str) <==> FieldOf(docs, r) && Selected(q, lower, str, r.name, r.value)
  {
    FilterMembership(Candidates(docs), Selector(q, lower, str));
    CandidatesMembership(docs, r);
  }

  /** Every result carries a field name equal to the query's name after
      folding, and, when a value is given, a value whose folded string form
      equals the folded query value; the field's own name and value are kept. */
  lemma ResultsAgreeWithQuery(docs: seq<(Path, ParseOutcome)>, q: Query, lower: string -> string, str: Value -> string, r: Match)
    requires lower("") == ""
    requires r in Matches(docs, q, lower, str)
    ensures Fold(lower, q.ignoreCase, r.name) == Fold(lower, q.ignoreCase, q.name)
    ensures !q.ignoreCase ==> r.name == q.name
    ensures q.value.Some? ==> Fold(lower, q.ignoreCase, str(r.value)) == Fold(lower, q.ignoreCase, q.value.value)
    ensures q.value.Some? && !q.ignoreCase ==> str(r.value) == q.value.value
    ensures FieldOf(docs, r)
  {
    MatchesMembership(docs, q, lower, str, r);
  }

  lemma {:induction false} CandidatesAppend(d1: seq<(Path, ParseOutcome)>, d2: seq<(Path, ParseOutcome)>)
    ensures Candidates(d1 + d2) == Candidates(d1) + Candidates(d2)
    decreases |d2|
  {
    if |d2| > 0 {
      var d2' := d2[..|d2| - 1];
      assert (d1 + d2)[..|d1 + d2| - 1] == d1 + d2';
      CandidatesAppend(d1, d2');
    } else {
      assert d1 + d2 == d1;
    }
  }

  /** Searching a list of files is searching each part and concatenating. */
  lemma MatchesAppend(d1: seq<(Path, ParseOutcome)>, d2: seq<(Path, ParseOutcome)>, q: Query, lower: string -> string, str: Value -> string)
    ensures Matches(d1 + d2, q, lower, str) == Matches(d1, q, lower, str) + Matches(d2, q, lower, str)
  {
    CandidatesAppend(d1, d2);
    FilterAppend(Candidates(d1), Candidates(d2), Selector(q, lower, str));
  }

  /** A file that cannot be read or parsed, or has no front matter, adds no
      results and does not affect the results of the files after it. */
  lemma SkippedFile(d1: seq<(Path, ParseOutcome)>, path: Path, outcome: ParseOutcome, d2: seq<(Path, ParseOutcome)>,
                    q: Query, lower: string -> string, str: Value -> string)
    requires !outcome.FrontMatter?
    ensures Matches(d1 + [(path, outcome)] + d2, q, lower, str) == Matches(d1 + d2, q, lower, str)
  {
    MatchesAppend(d1 + [(path, outcome)], d2, q, lower, str);
    MatchesAppend(d1, [(path, outcome)], q, lower, str);
    MatchesAppend(d1, d2, q, lower, str);
    var skipped := [(path, outcome)];
    assert skipped[..0] == [];
    assert Candidates(skipped) == Candidates([]) + DocRecords((path, outcome));
    assert Matches(skipped, q, lower, str) == [];
  }

  /** Results come in the order of the candidates: file order, then field order. */
  lemma ResultsInOrder(docs: seq<(Path, ParseOutcome)>, q: Query, lower: string -> string, str: Value -> string)
    ensures IsSubsequence(Matches(docs, q, lower, str), Candidates(docs))
  {
    FilterIsSubsequence(Candidates(docs), Selector(q, lower, str));
  }

  lemma {:induction false} FilterExtensional<T(!new)>(s: seq<T>, p: T -> bool, p': T -> bool)
    requires forall x :: x in s ==> p(x) == p'(x)
    ensures Filter(s, p) == Filter(s, p')
    decreases |s|
  {
    if |s| > 0 {
      var s' := s[..|s| - 1];
      assert forall x :: x in s' ==> x in s;
      FilterExtensional(s', p, p');
    }
  }

  function NameSelector(q: Query, lower: string -> string): Match -> bool
  {
    (r: Match) => Fold(lower, q.ignoreCase, r.name) == SearchName(q, lower)
  }

  /** Without a value, a query only asks for the field's presence: the results
      are the candidates whose folded name matches, one per such field, and do
      not depend on how values are stringified. */
  lemma PresenceOnly(docs: seq<(Path, ParseOutcome)>, q: Query, lower: string -> string, str: Value -> string, str': Value -> string)
    requires q.value.None?
    ensures Matches(docs, q, lower, str) == Filter(Candidates(docs), NameSelector(q, lower))
    ensures Matches(docs, q, lower, str) == Matches(docs, q, lower, str')
  {
    FilterExtensional(Candidates(docs), Selector(q, lower, str), NameSelector(q, lower));
    FilterExtensional(Candidates(docs), Selector(q, lower, str'), NameSelector(q, lower));
  }

  /** Every case-sensitive result is also found when case is ignored, in the
      same relative order. */
  lemma CaseSensitiveIsSubsequence(docs: seq<(Path, ParseOutcome)>, name: string, value: Option<string>,
                                   lower: string -> string, str: Value -> string)
    requires lower("") == ""
    ensures IsSubsequence(Matches(docs, Query(name, value, false), lower, str),
                          Matches(docs, Query(name, value, true), lower, str))
  {
    var exact := Selector(Query(name, value, false), lower, str);
    var folded := Selector(Query(name, value, true), lower, str);
    var cands := Candidates(docs);
    FilterOfFilter(cands, exact, folded);
    FilterIsSubsequence(Filter(cands, folded), exact);
  }

  // ---------------------------------------------------------------------------
  // Rendering the results (output_search_results)

  /** The header row of the CSV output. */
  const CsvHeader: seq<string> := ["File Path", "Front Matter Name", "Front Matter Value"]

  /** A value as the csv writer puts it in a field: None as an empty field,
      anything else as its str(). */
  function CsvCell(v: Value, str: Value -> string): string
  {
    if v.Null? then "" else str(v)
  }

  function CsvRow(r: Match, str: Value -> string): seq<string>
  {
    [r.path, r.name, CsvCell(r.value, str)]
  }

  /** The two console lines printed for one result. */
  function ConsoleEntry(r: Match, str: Value -> string): seq<string>
  {
    [r.path + ":", "- " + r.name + ": " + str(r.value)]
  }

  function CsvRows(results: seq<Match>, str: Value -> string): seq<seq<string>>
    decreases |results|
  {
    if |results| == 0 then [CsvHeader]
    else CsvRows(results[..|results| - 1], str) + [CsvRow(results[|results| - 1], str)]
  }

  function ConsoleLines(results: seq<Match>, str: Value -> string): seq<string>
    decreases |results|
  {
    if |results| == 0 then []
    else ConsoleLines(results[..|results| - 1], str) + ConsoleEntry(results[|results| - 1], str)
  }

  /** Where the results go: the rows of a CSV file, or lines on the console. */
  datatype Output = CsvFile(file: string, rows: seq<seq<string>>) | Console(lines: seq<string>)

  /** A CSV file is written when a non-empty file name is given. */
  function Render(results: seq<Match>, csvFile: Option<string>, str: Value -> string): Output
  {
    if csvFile.Some? && csvFile.value != "" then CsvFile(csvFile.value, CsvRows(results, str))
    else Console(ConsoleLines(results, str))
  }

  /** The CSV output is the header followed by one row per result, in order,
      none skipped. */
  lemma {:induction false} CsvRowsShape(results: seq<Match>, str: Value -> string)
    ensures |CsvRows(results, str)| == |results| + 1
    ensures CsvRows(results, str)[0] == CsvHeader
    ensures forall k :: 0 <= k < |results| ==> CsvRows(results, str)[k + 1] == [results[k].path, results[k].name, CsvCell(results[k].value, str)]
    decreases |results|
  {
    if |results| > 0 {
      var prefix := results[..|results| - 1];
      CsvRowsShape(prefix, str);
      assert forall k :: 0 <= k < |prefix| ==> prefix[k] == results[k];
    }
  }

  /** The console output is two lines per result, in order, with no grouping
      by file and no deduplication. */
  lemma {:induction false} ConsoleLinesShape(results: seq<Match>, str: Value -> string)
    ensures |ConsoleLines(results, str)| == 2 * |results|
    ensures forall k :: 0 <= k < |results| ==>
      && ConsoleLines(results, str)[2 * k] == results[k].path + ":"
      && ConsoleLines(results, str)[2 * k + 1] == "- " + results[k].name + ": " + str(results[k].value)
    decreases |results|
  {
    if |results| > 0 {
      var prefix := results[..|results| - 1];
      ConsoleLinesShape(prefix, str);
      assert forall k :: 0 <= k < |prefix| ==> prefix[k] == results[k];
    }
  }

  /** output_search_results, returning what it writes instead of writing it. */
  method OutputSearchResults(results: seq<Match>, csvFile: Option<string>, str: Value -> string) returns (out: Output)
    ensures out == Render(results, csvFile, str)
  {
    if csvFile.Some? && csvFile.value != "" {
      var rows := [CsvHeader];
      for k := 0 to |results|
        invariant rows == CsvRows(results[..k], str)
      {
        assert results[..k + 1][..k] == results[..k];
        var r := results[k];
        rows := rows + [[r.path, r.name, CsvCell(r.value, str)]];
      }
      assert results[..|results|] == results;
      out := CsvFile(csvFile.value, rows);
    } else {
      var lines := [];
      for k := 0 to |results|
        invariant lines == ConsoleLines(results[..k], str)
      {
        assert results[..k + 1][..k] == results[..k];
        var r := results[k];
        lines := lines + [r.path + ":"];
        lines := lines + ["- " + r.name + ": " + str(r.value)];
      }
      assert results[..|results|] == results;
      out := Console(lines);
    }
  }

  /** search_and_output: the search followed by its rendering. */
  method SearchAndOutput(docs: seq<(Path, ParseOutcome)>, name: string, value: Option<string>, ignoreCase: bool,
                         csvFile: Option<string>, lower: string -> string, str: Value -> string)
    returns (out: Output)
    ensures out == Render(Matches(docs, Query(name, value, ignoreCase), lower, str), csvFile, str)
  {
    var results := SearchFrontmatter(docs, name, value, ignoreCase, lower, str);
    out := OutputSearchResults(results, csvFile, str);
  }
}
