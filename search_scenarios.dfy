/**
 * The scenarios of tests/test_search.py, stated over the search model: three
 * posts whose `author` fields are "John Doe", "Jane Smith" and "john doe".
 */
module SearchScenarios {
  import opened Wrappers
  import opened Sequences
  import opened Search

  const Post1: Path := "post1.md"
  const Post2: Path := "post2.md"
  const Post3: Path := "post3.md"

  const Fields1: seq<(string, Value)> := [
    ("title", Text("First Post")), ("author", Text("John Doe")),
    ("category", Text("programming")), ("tags", Sequence([Text("python"), Text("testing")]))]
  const Fields2: seq<(string, Value)> := [
    ("title", Text("Second Post")), ("author", Text("Jane Smith")),
    ("category", Text("design")), ("tags", Sequence([Text("ui"), Text("ux")]))]
  const Fields3: seq<(string, Value)> := [
    ("title", Text("Third Post")), ("author", Text("john doe")), ("category", Text("Programming"))]

  function Posts(): seq<(Path, ParseOutcome)>
  {
    [(Post1, FrontMatter(Fields1)), (Post2, FrontMatter(Fields2)), (Post3, FrontMatter(Fields3))]
  }

  /** What Python's str.lower() gives on the field names of the posts. */
  predicate LowersFieldNames(lower: string -> string)
  {
    lower("title") == "title" && lower("author") == "author" && lower("category") == "category" && lower("tags") == "tags"
  }

  /** What Python's str.lower() gives on the strings these scenarios compare. */
  predicate LowersTestStrings(lower: string -> string)
  {
    && LowersFieldNames(lower) && lower("CATEGORY") == "category"
    && lower("John Doe") == "john doe" && lower("Jane Smith") == "jane smith" && lower("john doe") == "john doe"
    && lower("programming") == "programming" && lower("Programming") == "programming" && lower("design") == "design"
  }

  /** Python's str() of a string is the string itself. */
  ghost predicate StrOfText(str: Value -> string)
  {
    forall s :: str(Text(s)) == s
  }

  lemma FilterStep<T(!new)>(s: seq<T>, x: T, p: T -> bool)
    ensures Filter(s + [x], p) == Filter(s, p) + (if p(x) then [x] else [])
  {
    assert (s + [x])[..|s|] == s;
  }

  lemma OnePost(path: Path, fields: seq<(string, Value)>, q: Query, lower: string -> string, str: Value -> string)
    ensures Matches([(path, FrontMatter(fields))], q, lower, str) == Filter(FieldRecords(path, fields), Selector(q, lower, str))
  {
    var d := [(path, FrontMatter(fields))];
    assert d[..0] == [];
    assert Candidates(d) == Candidates([]) + DocRecords(d[0]);
    assert DocRecords(d[0]) == FieldRecords(path, fields);
    assert Candidates(d) == FieldRecords(path, fields);
  }

  /** The results for the three posts, file by file. */
  lemma PostsMatches(q: Query, lower: string -> string, str: Value -> string)
    ensures Matches(Posts(), q, lower, str) ==
      Filter(FieldRecords(Post1, Fields1), Selector(q, lower, str)) +
      Filter(FieldRecords(Post2, Fields2), Selector(q, lower, str)) +
      Filter(FieldRecords(Post3, Fields3), Selector(q, lower, str))
  {
    var d1, d2, d3 := (Post1, FrontMatter(Fields1)), (Post2, FrontMatter(Fields2)), (Post3, FrontMatter(Fields3));
    assert Posts() == [d1] + [d2] + [d3];
    MatchesAppend([d1] + [d2], [d3], q, lower, str);
    MatchesAppend([d1], [d2], q, lower, str);
    OnePost(Post1, Fields1, q, lower, str);
    OnePost(Post2, Fields2, q, lower, str);
    OnePost(Post3, Fields3, q, lower, str);
  }

  function Keep(r: Match, p: Match -> bool): seq<Match>
  {
    if p(r) then [r] else []
  }

  function RecordAt(path: Path, fields: seq<(string, Value)>, k: nat): Match
    requires k < |fields|
  {
    Match(path, fields[k].0, fields[k].1)
  }

  lemma FourFields(path: Path, fields: seq<(string, Value)>, p: Match -> bool)
    requires |fields| == 4
    ensures Filter(FieldRecords(path, fields), p) ==
      Keep(RecordAt(path, fields, 0), p) + Keep(RecordAt(path, fields, 1), p) +
      Keep(RecordAt(path, fields, 2), p) + Keep(RecordAt(path, fields, 3), p)
  {
    var rs := FieldRecords(path, fields);
    assert rs == [rs[0]] + [rs[1]] + [rs[2]] + [rs[3]];
    FilterAppend([rs[0]] + [rs[1]] + [rs[2]], [rs[3]], p);
    FilterAppend([rs[0]] + [rs[1]], [rs[2]], p);
    FilterAppend([rs[0]], [rs[1]], p);
    forall k | 0 <= k < 4 ensures Filter([rs[k]], p) == Keep(RecordAt(path, fields, k), p) {
      assert [rs[k]][..0] == [];
    }
  }

  lemma ThreeFields(path: Path, fields: seq<(string, Value)>, p: Match -> bool)
    requires |fields| == 3
    ensures Filter(FieldRecords(path, fields), p) ==
      Keep(RecordAt(path, fields, 0), p) + Keep(RecordAt(path, fields, 1), p) + Keep(RecordAt(path, fields, 2), p)
  {
    var rs := FieldRecords(path, fields);
    assert rs == [rs[0]] + [rs[1]] + [rs[2]];
    FilterAppend([rs[0]] + [rs[1]], [rs[2]], p);
    FilterAppend([rs[0]], [rs[1]], p);
    forall k | 0 <= k < 3 ensures Filter([rs[k]], p) == Keep(RecordAt(path, fields, k), p) {
      assert [rs[k]][..0] == [];
    }
  }

  /** The one-element result of a field that `q` selects, or nothing. */
  function Pick(q: Query, lower: string -> string, str: Value -> string, r: Match): seq<Match>
  {
    if Selected(q, lower, str, r.name, r.value) then [r] else []
  }

  /** The candidates of each post, written out, with the query applied to each. */
  lemma Post1Filter(q: Query, lower: string -> string, str: Value -> string)
    ensures Filter(FieldRecords(Post1, Fields1), Selector(q, lower, str)) ==
      Pick(q, lower, str, Match(Post1, "title", Text("First Post"))) +
      Pick(q, lower, str, Match(Post1, "author", Text("John Doe"))) +
      Pick(q, lower, str, Match(Post1, "category", Text("programming"))) +
      Pick(q, lower, str, Match(Post1, "tags", Sequence([Text("python"), Text("testing")])))
  {
    FourFields(Post1, Fields1, Selector(q, lower, str));
  }

  lemma Post2Filter(q: Query, lower: string -> string, str: Value -> string)
    ensures Filter(FieldRecords(Post2, Fields2), Selector(q, lower, str)) ==
      Pick(q, lower, str, Match(Post2, "title", Text("Second Post"))) +
      Pick(q, lower, str, Match(Post2, "author", Text("Jane Smith"))) +
      Pick(q, lower, str, Match(Post2, "category", Text("design"))) +
      Pick(q, lower, str, Match(Post2, "tags", Sequence([Text("ui"), Text("ux")])))
  {
    FourFields(Post2, Fields2, Selector(q, lower, str));
  }

  lemma Post3Filter(q: Query, lower: string -> string, str: Value -> string)
    ensures Filter(FieldRecords(Post3, Fields3), Selector(q, lower, str)) ==
      Pick(q, lower, str, Match(Post3, "title", Text("Third Post"))) +
      Pick(q, lower, str, Match(Post3, "author", Text("john doe"))) +
      Pick(q, lower, str, Match(Post3, "category", Text("Programming")))
  {
    ThreeFields(Post3, Fields3, Selector(q, lower, str));
  }

  /** The results for the three posts, field by field. */
  lemma PostsPicks(q: Query, lower: string -> string, str: Value -> string)
    ensures Matches(Posts(), q, lower, str) ==
      (Pick(q, lower, str, Match(Post1, "title", Text("First Post"))) +
       Pick(q, lower, str, Match(Post1, "author", Text("John Doe"))) +
       Pick(q, lower, str, Match(Post1, "category", Text("programming"))) +
       Pick(q, lower, str, Match(Post1, "tags", Sequence([Text("python"), Text("testing")])))) +
      (Pick(q, lower, str, Match(Post2, "title", Text("Second Post"))) +
       Pick(q, lower, str, Match(Post2, "author", Text("Jane Smith"))) +
       Pick(q, lower, str, Match(Post2, "category", Text("design"))) +
       Pick(q, lower, str, Match(Post2, "tags", Sequence([Text("ui"), Text("ux")])))) +
      (Pick(q, lower, str, Match(Post3, "title", Text("Third Post"))) +
       Pick(q, lower, str, Match(Post3, "author", Text("john doe"))) +
       Pick(q, lower, str, Match(Post3, "category", Text("Programming"))))
  {
    PostsMatches(q, lower, str);
    Post1Filter(q, lower, str);
    Post2Filter(q, lower, str);
    Post3Filter(q, lower, str);
  }

  /** A query for `title` can only select the `title` field of each post. */
  lemma TitleFields(q: Query, lower: string -> string, str: Value -> string)
    requires SearchName(q, lower) == "title" && (q.ignoreCase ==> LowersFieldNames(lower))
    ensures Matches(Posts(), q, lower, str) ==
      Pick(q, lower, str, Match(Post1, "title", Text("First Post"))) +
      Pick(q, lower, str, Match(Post2, "title", Text("Second Post"))) +
      Pick(q, lower, str, Match(Post3, "title", Text("Third Post")))
  {
    assert Pick(q, lower, str, Match(Post1, "author", Text("John Doe"))) == [];
    assert Pick(q, lower, str, Match(Post1, "category", Text("programming"))) == [];
    assert Pick(q, lower, str, Match(Post1, "tags", Sequence([Text("python"), Text("testing")]))) == [];
    assert Pick(q, lower, str, Match(Post2, "author", Text("Jane Smith"))) == [];
    assert Pick(q, lower, str, Match(Post2, "category", Text("design"))) == [];
    assert Pick(q, lower, str, Match(Post2, "tags", Sequence([Text("ui"), Text("ux")]))) == [];
    assert Pick(q, lower, str, Match(Post3, "author", Text("john doe"))) == [];
    assert Pick(q, lower, str, Match(Post3, "category", Text("Programming"))) == [];
    PostsPicks(q, lower, str);
    var t1 := Pick(q, lower, str, Match(Post1, "title", Text("First Post")));
    var t2 := Pick(q, lower, str, Match(Post2, "title", Text("Second Post")));
    var t3 := Pick(q, lower, str, Match(Post3, "title", Text("Third Post")));
    assert t1 + [] + [] + [] == t1;
    assert t2 + [] + [] + [] == t2;
    assert t3 + [] + [] == t3;
  }

  /** A query for `author` can only select the `author` field of each post. */
  lemma AuthorFields(q: Query, lower: string -> string, str: Value -> string)
    requires SearchName(q, lower) == "author" && (q.ignoreCase ==> LowersFieldNames(lower))
    ensures Matches(Posts(), q, lower, str) ==
      Pick(q, lower, str, Match(Post1, "author", Text("John Doe"))) +
      Pick(q, lower, str, Match(Post2, "author", Text("Jane Smith"))) +
      Pick(q, lower, str, Match(Post3, "author", Text("john doe")))
  {
    assert Pick(q, lower, str, Match(Post1, "title", Text("First Post"))) == [];
    assert Pick(q, lower, str, Match(Post1, "category", Text("programming"))) == [];
    assert Pick(q, lower, str, Match(Post1, "tags", Sequence([Text("python"), Text("testing")]))) == [];
    assert Pick(q, lower, str, Match(Post2, "title", Text("Second Post"))) == [];
    assert Pick(q, lower, str, Match(Post2, "category", Text("design"))) == [];
    assert Pick(q, lower, str, Match(Post2, "tags", Sequence([Text("ui"), Text("ux")]))) == [];
    assert Pick(q, lower, str, Match(Post3, "title", Text("Third Post"))) == [];
    assert Pick(q, lower, str, Match(Post3, "category", Text("Programming"))) == [];
    PostsPicks(q, lower, str);
    var t1 := Pick(q, lower, str, Match(Post1, "author", Text("John Doe")));
    var t2 := Pick(q, lower, str, Match(Post2, "author", Text("Jane Smith")));
    var t3 := Pick(q, lower, str, Match(Post3, "author", Text("john doe")));
    assert [] + t1 + [] + [] == t1;
    assert [] + t2 + [] + [] == t2;
    assert [] + t3 + [] == t3;
  }

  /** A query for `category` can only select the `category` field of each post. */
  lemma CategoryFields(q: Query, lower: string -> string, str: Value -> string)
    requires SearchName(q, lower) == "category" && (q.ignoreCase ==> LowersFieldNames(lower))
    ensures Matches(Posts(), q, lower, str) ==
      Pick(q, lower, str, Match(Post1, "category", Text("programming"))) +
      Pick(q, lower, str, Match(Post2, "category", Text("design"))) +
      Pick(q, lower, str, Match(Post3, "category", Text("Programming")))
  {
    assert Pick(q, lower, str, Match(Post1, "title", Text("First Post"))) == [];
    assert Pick(q, lower, str, Match(Post1, "author", Text("John Doe"))) == [];
    assert Pick(q, lower, str, Match(Post1, "tags", Sequence([Text("python"), Text("testing")]))) == [];
    assert Pick(q, lower, str, Match(Post2, "title", Text("Second Post"))) == [];
    assert Pick(q, lower, str, Match(Post2, "author", Text("Jane Smith"))) == [];
    assert Pick(q, lower, str, Match(Post2, "tags", Sequence([Text("ui"), Text("ux")]))) == [];
    assert Pick(q, lower, str, Match(Post3, "title", Text("Third Post"))) == [];
    assert Pick(q, lower, str, Match(Post3, "author", Text("john doe"))) == [];
    PostsPicks(q, lower, str);
    var t1 := Pick(q, lower, str, Match(Post1, "category", Text("programming")));
    var t2 := Pick(q, lower, str, Match(Post2, "category", Text("design")));
    var t3 := Pick(q, lower, str, Match(Post3, "category", Text("Programming")));
    assert [] + [] + t1 + [] == t1;
    assert [] + [] + t2 + [] == t2;
    assert [] + [] + t3 == t3;
  }

  /** Proof aid: the literal author and category values that the scenarios tell apart. */
  lemma ValuesDiffer()
    ensures "John Doe" != "john doe" && "Jane Smith" != "john doe" && "jane smith" != "john doe"
    ensures "Jane Smith" != "John Doe" && "design" != "programming"
  {
    assert "John Doe"[0] != "john doe"[0];
  }

  /** test_search_case_insensitive: "john doe" ignoring case finds posts 1 and 3,
      each with its own spelling of the value. */
  lemma CaseInsensitiveValue(lower: string -> string, str: Value -> string)
    requires LowersTestStrings(lower) && StrOfText(str)
    ensures Matches(Posts(), Query("author", Some("john doe"), true), lower, str) ==
      [Match(Post1, "author", Text("John Doe")), Match(Post3, "author", Text("john doe"))]
  {
    var q := Query("author", Some("john doe"), true);
    assert SearchValue(q, lower) == Some("john doe");
    assert Pick(q, lower, str, Match(Post1, "author", Text("John Doe"))) == [Match(Post1, "author", Text("John Doe"))] by { ValuesDiffer(); }
    assert Pick(q, lower, str, Match(Post2, "author", Text("Jane Smith"))) == [] by { ValuesDiffer(); }
    assert Pick(q, lower, str, Match(Post3, "author", Text("john doe"))) == [Match(Post3, "author", Text("john doe"))] by { ValuesDiffer(); }
    AuthorFields(q, lower, str);
  }

  /** test_search_by_field_name: every post has a title. */
  lemma TitlePresence(lower: string -> string, str: Value -> string)
    ensures Matches(Posts(), Query("title", None, false), lower, str) ==
      [Match(Post1, "title", Text("First Post")), Match(Post2, "title", Text("Second Post")),
       Match(Post3, "title", Text("Third Post"))]
  {
    var q := Query("title", None, false);
    TitleFields(q, lower, str);
  }

  /** test_search_by_field_name_and_value: the exact value "John Doe" is only
      in post 1, and the result keeps the field's name and value. */
  lemma ExactValue(lower: string -> string, str: Value -> string)
    requires StrOfText(str)
    ensures Matches(Posts(), Query("author", Some("John Doe"), false), lower, str) ==
      [Match(Post1, "author", Text("John Doe"))]
  {
    var q := Query("author", Some("John Doe"), false);
    assert Pick(q, lower, str, Match(Post1, "author", Text("John Doe"))) == [Match(Post1, "author", Text("John Doe"))] by { ValuesDiffer(); }
    assert Pick(q, lower, str, Match(Post2, "author", Text("Jane Smith"))) == [] by { ValuesDiffer(); }
    assert Pick(q, lower, str, Match(Post3, "author", Text("john doe"))) == [] by { ValuesDiffer(); }
    AuthorFields(q, lower, str);
  }

  /** test_search_case_sensitive: "john doe" with case respected is only in post 3. */
  lemma CaseSensitiveValue(lower: string -> string, str: Value -> string)
    requires StrOfText(str)
    ensures Matches(Posts(), Query("author", Some("john doe"), false), lower, str) ==
      [Match(Post3, "author", Text("john doe"))]
  {
    var q := Query("author", Some("john doe"), false);
    assert Pick(q, lower, str, Match(Post1, "author", Text("John Doe"))) == [] by { ValuesDiffer(); }
    assert Pick(q, lower, str, Match(Post2, "author", Text("Jane Smith"))) == [] by { ValuesDiffer(); }
    assert Pick(q, lower, str, Match(Post3, "author", Text("john doe"))) == [Match(Post3, "author", Text("john doe"))] by { ValuesDiffer(); }
    AuthorFields(q, lower, str);
  }

  /** test_search_field_name_case_insensitive: "CATEGORY" = "programming"
      ignoring case finds posts 1 and 3, under the field's own name. */
  lemma CaseInsensitiveName(lower: string -> string, str: Value -> string)
    requires LowersTestStrings(lower) && StrOfText(str)
    ensures Matches(Posts(), Query("CATEGORY", Some("programming"), true), lower, str) ==
      [Match(Post1, "category", Text("programming")), Match(Post3, "category", Text("Programming"))]
  {
    var q := Query("CATEGORY", Some("programming"), true);
    assert SearchValue(q, lower) == Some("programming");
    assert Pick(q, lower, str, Match(Post1, "category", Text("programming"))) == [Match(Post1, "category", Text("programming"))] by { ValuesDiffer(); }
    assert Pick(q, lower, str, Match(Post2, "category", Text("design"))) == [] by { ValuesDiffer(); }
    assert Pick(q, lower, str, Match(Post3, "category", Text("Programming"))) == [Match(Post3, "category", Text("Programming"))] by { ValuesDiffer(); }
    CategoryFields(q, lower, str);
  }

  /** test_search_no_matches. */
  lemma NoSuchField(lower: string -> string, str: Value -> string)
    ensures Matches(Posts(), Query("nonexistent", None, false), lower, str) == []
  {
    var q := Query("nonexistent", None, false);
    PostsPicks(q, lower, str);
  }

  /** test_output_search_results_csv: two results give the header and two rows. */
  lemma TwoResultsAsCsv(str: Value -> string)
    requires StrOfText(str)
    ensures Render([Match(Post1, "title", Text("First Post")), Match(Post2, "author", Text("Jane Smith"))],
                   Some("results.csv"), str) ==
      CsvFile("results.csv", [["File Path", "Front Matter Name", "Front Matter Value"],
                              [Post1, "title", "First Post"], [Post2, "author", "Jane Smith"]])
  {
    var results := [Match(Post1, "title", Text("First Post")), Match(Post2, "author", Text("Jane Smith"))];
    CsvRowsShape(results, str);
  }

  /** test_output_search_results_console: the path line, then the field line. */
  lemma OneResultOnConsole(str: Value -> string)
    requires StrOfText(str)
    ensures Render([Match(Post1, "title", Text("First Post"))], None, str) ==
      Console(["post1.md:", "- title: First Post"])
  {
    var results := [Match(Post1, "title", Text("First Post"))];
    assert results[..0] == [];
    assert str(Text("First Post")) == "First Post";
    assert Post1 + ":" == "post1.md:";
    assert "- " + "title" + ": " + "First Post" == "- title: First Post";
    assert ConsoleLines(results, str) == ConsoleLines([], str) + ConsoleEntry(results[0], str);
    assert ConsoleEntry(results[0], str) == ["post1.md:", "- title: First Post"];
  }
}
