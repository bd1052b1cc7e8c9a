/** `scripts/ttest_eval.py`: reading per-query `trec_eval -q` outputs of
    several runs and aligning them on the metrics and the query ids they
    all share, before the paired significance test. */
module TtestEval {
  import opened Wrappers
  import opened Seqs
  import opened Text
  import opened Assoc
  import opened Sorting

  // ---------------------------------------------------------------------
  // Parsing one line

  /** A measurement: one number for a `trec_eval` line, the value and its
      residual for an rbp line. */
  type Value = seq<real>

  datatype Record = Record(metric: string, qid: string, value: Value)

  datatype ParseError =
    | TooFewFields(line: string)   // `splits[2]` raises IndexError
    | NotAFloat(text: string)      // `float(...)` raises ValueError
    | NoRbpMatch(line: string)     // `assert match is not None` fails

  /** The groups the rbp pattern captures: `p`, the query id, the depth,
      the rbp value and its residual. */
  datatype RbpGroups = RbpGroups(p: string, qid: string, depth: string, value: string, residual: string)

  /** The two conversions the script borrows from Python: `float(text)`
      and matching the rbp regular expression at the start of a line. */
  datatype Parsers = Parsers(toFloat: string -> Option<real>, rbpMatch: string -> Option<RbpGroups>)

  function ToFloat(ps: Parsers, text: string): (r: Result<real, ParseError>)
    ensures r.Ok? <==> ps.toFloat(text).Some?
    ensures r.Ok? ==> r.value == ps.toFloat(text).value
  {
    match ps.toFloat(text)
    case Some(x) => Ok(x)
    case None => Err(NotAFloat(text))
  }

  /** `trec_parse`: the first three whitespace-separated fields are the
      metric, the query id and the value; the rest of the line is
      ignored. */
  function TrecParse(line: string, ps: Parsers): (r: Result<Record, ParseError>)
    ensures r == Err(TooFewFields(line)) <==> |Words(line)| < 3
    ensures r.Ok? <==> |Words(line)| >= 3 && ps.toFloat(Words(line)[2]).Some?
    ensures r.Ok? ==>
      && r.value.metric == Words(line)[0] && r.value.qid == Words(line)[1]
      && r.value.value == [ps.toFloat(Words(line)[2]).value]
  {
    var splits := Words(line);
    if |splits| < 3 then Err(TooFewFields(line))
    else
      var x :- ToFloat(ps, splits[2]);
      Ok(Record(splits[0], splits[1], [x]))
  }

  /** The metric name of an rbp line: `rbp_{p}@{depth}`. */
  function RbpName(p: string, depth: string): string
  {
    "rbp_" + p + "@" + depth
  }

  /** The rbp name keeps `p` and the depth apart: cutting the prefix and
      splitting at `@` gives them back, when neither holds an `@` (the
      pattern captures digits and a dot, and word characters). */
  lemma {:induction false} RbpNameSplit(p: string, depth: string)
    requires '@' !in p && '@' !in depth
    ensures RbpName(p, depth)[..4] == "rbp_"
    ensures Split(RbpName(p, depth)[4..], '@') == [p, depth]
  {
    var parts := [p, depth];
    assert Join(parts[1..], '@') == depth;
    assert RbpName(p, depth)[4..] == Join(parts, '@');
    SplitJoin(parts, '@');
  }

  /** Different captured groups never give the same metric name. */
  lemma {:induction false} RbpNameInjective(p: string, depth: string, p': string, depth': string)
    requires '@' !in p && '@' !in depth && '@' !in p' && '@' !in depth'
    requires RbpName(p, depth) == RbpName(p', depth')
    ensures p == p' && depth == depth'
  {
    RbpNameSplit(p, depth);
    RbpNameSplit(p', depth');
  }

  /** `rbp_parse`: the metric is named from `p` and the depth, and the
      value is the pair (rbp, residual). */
  function RbpParse(line: string, ps: Parsers): (r: Result<Record, ParseError>)
    ensures ps.rbpMatch(line).None? ==> r == Err(NoRbpMatch(line))
    ensures r.Ok? <==>
      var g := ps.rbpMatch(line);
      g.Some? && ps.toFloat(g.value.value).Some? && ps.toFloat(g.value.residual).Some?
    ensures r.Ok? ==>
      var g := ps.rbpMatch(line).value;
      && r.value.metric == RbpName(g.p, g.depth) && r.value.qid == g.qid
      && r.value.value == [ps.toFloat(g.value).value, ps.toFloat(g.residual).value]
  {
    match ps.rbpMatch(line)
    case None => Err(NoRbpMatch(line))
    case Some(g) =>
      var value :- ToFloat(ps, g.value);
      var residual :- ToFloat(ps, g.residual);
      Ok(Record(RbpName(g.p, g.depth), g.qid, [value, residual]))
  }

  // ---------------------------------------------------------------------
  // The parse loop of `main`

  /** A run's values by query id (only looked up, popped and averaged:
      their order is never observed). */
  type QidTable = map<string, Value>

  /** `results[metric]`: each file's table, files in the order they first
      produced this metric. */
  type FileTables = Dict<string, QidTable>

  /** What the parse loop has built: `results`, `file_metrics` and whether
      `parse_func` has switched to `rbp_parse`. */
  datatype Loaded = Loaded(results: map<string, FileTables>, fileMetrics: Dict<string, set<string>>, rbp: bool)

  function Start(): Loaded
  {
    Loaded(map[], Empty(), false)
  }

  predicate Comment(line: string)
  {
    "#" <= line
  }

  /** A line that switches the parser to `rbp_parse`. */
  predicate RbpLine(line: string)
  {
    Contains(line, "rbp=")
  }

  /** `results.setdefault(metric, {}).setdefault(name, {})[qid] = value`. */
  function Store(results: map<string, FileTables>, r: Record, name: string): map<string, FileTables>
  {
    var files := if r.metric in results then results[r.metric] else Empty();
    var table := if name in files.values then files.values[name] else map[];
    results[r.metric := Put(files, name, table[r.qid := r.value])]
  }

  /** `file_metrics.setdefault(name, set()).add(metric)`. */
  function AddMetric(fileMetrics: Dict<string, set<string>>, name: string, metric: string): Dict<string, set<string>>
  {
    Put(fileMetrics, name, GetOr(fileMetrics, name, {}) + {metric})
  }

  /** `parse_func(line)`. */
  function ParseLine(rbp: bool, line: string, ps: Parsers): Result<Record, ParseError>
  {
    if rbp then RbpParse(line, ps) else TrecParse(line, ps)
  }

  /** What a parsed record does to the state: a record for `all` is
      skipped, any other is stored. */
  function Keep(st: Loaded, r: Record, name: string, rbp: bool): Loaded
  {
    if r.qid == "all" then st.(rbp := rbp)
    else Loaded(Store(st.results, r, name), AddMetric(st.fileMetrics, name, r.metric), rbp)
  }

  /** One line of file `name`: comments are skipped before anything else;
      a line holding `rbp=` switches the parser before it is parsed. */
  function Step(st: Loaded, name: string, line: string, ps: Parsers): Result<Loaded, ParseError>
  {
    if Comment(line) then Ok(st)
    else
      var rbp := st.rbp || RbpLine(line);
      var r :- ParseLine(rbp, line, ps);
      Ok(Keep(st, r, name, rbp))
  }

  /** The lines of file `name`, one after the other; the first error ends
      the script. */
  function LoadLines(st: Loaded, name: string, lines: seq<string>, ps: Parsers): Result<Loaded, ParseError>
  {
    if lines == [] then Ok(st)
    else
      var st' :- LoadLines(st, name, lines[..|lines| - 1], ps);
      Step(st', name, lines[|lines| - 1], ps)
  }

  /** All files, each a name and its lines. */
  function LoadFiles(files: seq<(string, seq<string>)>, ps: Parsers): Result<Loaded, ParseError>
  {
    if files == [] then Ok(Start())
    else
      var st :- LoadFiles(files[..|files| - 1], ps);
      LoadLines(st, files[|files| - 1].0, files[|files| - 1].1, ps)
  }

  /** The parse loop of `main`: the `parse_func` switch is the flag `rbp`. */
  method Load(files: seq<(string, seq<string>)>, ps: Parsers) returns (r: Result<Loaded, ParseError>)
    ensures r == LoadFiles(files, ps)
  {
    var results: map<string, FileTables> := map[];
    var fileMetrics: Dict<string, set<string>> := Empty();
    var rbp := false;
    for i := 0 to |files|
      invariant LoadFiles(files[..i], ps) == Ok(Loaded(results, fileMetrics, rbp))
    {
      var (name, lines) := files[i];
      ghost var st0 := Loaded(results, fileMetrics, rbp);
      for j := 0 to |lines|
        invariant LoadLines(st0, name, lines[..j], ps) == Ok(Loaded(results, fileMetrics, rbp))
      {
        var line := lines[j];
        assert lines[..j + 1][..j] == lines[..j];
        if Comment(line) {
          continue;
        }
        if RbpLine(line) {
          rbp := true;
        }
        var parsed := if rbp then RbpParse(line, ps) else TrecParse(line, ps);
        assert parsed == ParseLine(rbp, line, ps);
        if parsed.Err? {
          r := Err(parsed.error);
          LoadFilesFails(files, i, j, ps);
          return;
        }
        var rec := parsed.value;
        if rec.qid == "all" {
          continue;
        }
        fileMetrics := AddMetric(fileMetrics, name, rec.metric);
        results := Store(results, rec, name);
      }
      assert lines[..|lines|] == lines;
      assert files[..i + 1][..i] == files[..i];
    }
    assert files[..|files|] == files;
    r := Ok(Loaded(results, fileMetrics, rbp));
  }

  /** An error on line `j` of file `i` is the error of the whole load. */
  lemma {:induction false} LoadFilesFails(files: seq<(string, seq<string>)>, i: nat, j: nat, ps: Parsers)
    requires i < |files| && j < |files[i].1|
    requires LoadFiles(files[..i], ps).Ok?
    requires LoadLines(LoadFiles(files[..i], ps).value, files[i].0, files[i].1[..j + 1], ps).Err?
    ensures LoadFiles(files, ps) == LoadLines(LoadFiles(files[..i], ps).value, files[i].0, files[i].1[..j + 1], ps)
  {
    var st := LoadFiles(files[..i], ps).value;
    LoadLinesFails(st, files[i].0, files[i].1, j + 1, ps);
    LoadFilesNext(files, i, ps);
    LoadFilesFrom(files, i + 1, ps);
  }

  /** Loading one more file continues from the state of the files before it. */
  lemma {:induction false} LoadFilesNext(files: seq<(string, seq<string>)>, i: nat, ps: Parsers)
    requires i < |files| && LoadFiles(files[..i], ps).Ok?
    ensures LoadFiles(files[..i + 1], ps) == LoadLines(LoadFiles(files[..i], ps).value, files[i].0, files[i].1, ps)
  {
    assert files[..i + 1][..i] == files[..i];
  }

  /** An error in a prefix of the lines is the error of all of them. */
  lemma {:induction false} LoadLinesFails(st: Loaded, name: string, lines: seq<string>, n: nat, ps: Parsers)
    requires n <= |lines| && LoadLines(st, name, lines[..n], ps).Err?
    ensures LoadLines(st, name, lines, ps) == LoadLines(st, name, lines[..n], ps)
    decreases |lines| - n
  {
    if n < |lines| {
      assert lines[..n + 1][..n] == lines[..n];
      LoadLinesFails(st, name, lines, n + 1, ps);
    } else {
      assert lines[..n] == lines;
    }
  }

  /** An error in a prefix of the files is the error of all of them. */
  lemma {:induction false} LoadFilesFrom(files: seq<(string, seq<string>)>, n: nat, ps: Parsers)
    requires n <= |files| && LoadFiles(files[..n], ps).Err?
    ensures LoadFiles(files, ps) == LoadFiles(files[..n], ps)
    decreases |files| - n
  {
    if n < |files| {
      assert files[..n + 1][..n] == files[..n];
      LoadFilesFrom(files, n + 1, ps);
    } else {
      assert files[..n] == files;
    }
  }

  // ---------------------------------------------------------------------
  // What the parse loop promises

  /** The lines that are not comments, in order. */
  function Uncommented(lines: seq<string>): (r: seq<string>)
    ensures forall l :: l in r <==> l in lines && !Comment(l)
  {
    if lines == [] then []
    else Uncommented(lines[..|lines| - 1]) + (if Comment(lines[|lines| - 1]) then [] else [lines[|lines| - 1]])
  }

  /** Loading the lines one after the other from a given state. */
  lemma {:induction false} LoadLinesAppend(st: Loaded, name: string, lines: seq<string>, line: string, ps: Parsers)
    ensures LoadLines(st, name, lines + [line], ps) ==
      if LoadLines(st, name, lines, ps).Err? then LoadLines(st, name, lines, ps)
      else Step(LoadLines(st, name, lines, ps).value, name, line, ps)
  {
    assert (lines + [line])[..|lines|] == lines;
  }

  /** Comment lines change nothing: a file loads as its lines without the
      comments do. */
  lemma {:induction false} CommentsIgnored(st: Loaded, name: string, lines: seq<string>, ps: Parsers)
    ensures LoadLines(st, name, lines, ps) == LoadLines(st, name, Uncommented(lines), ps)
  {
    if lines != [] {
      var front, last := lines[..|lines| - 1], lines[|lines| - 1];
      CommentsIgnored(st, name, front, ps);
      if Comment(last) {
        assert Uncommented(lines) == Uncommented(front);
      } else {
        assert Uncommented(lines) == Uncommented(front) + [last];
        LoadLinesAppend(st, name, Uncommented(front), last, ps);
      }
    }
  }

  /** The parser switch is sticky: after a file, `rbp_parse` is in use
      exactly when it was before or some non-comment line of the file
      contains `rbp=`. */
  lemma {:induction false} LoadLinesRbp(st: Loaded, name: string, lines: seq<string>, ps: Parsers)
    requires LoadLines(st, name, lines, ps).Ok?
    ensures LoadLines(st, name, lines, ps).value.rbp <==> st.rbp || HasRbp(lines)
  {
    if lines != [] {
      var front := lines[..|lines| - 1];
      LoadLinesRbp(st, name, front, ps);
      if HasRbp(front) {
        var j :| 0 <= j < |front| && !Comment(front[j]) && RbpLine(front[j]);
        assert lines[j] == front[j];
      }
      if HasRbp(lines) {
        var j :| 0 <= j < |lines| && !Comment(lines[j]) && RbpLine(lines[j]);
        if j < |front| {
          assert front[j] == lines[j];
        }
      }
    }
  }

  /** Some non-comment line of `lines` contains `rbp=`. */
  predicate HasRbp(lines: seq<string>)
  {
    exists j :: 0 <= j < |lines| && !Comment(lines[j]) && RbpLine(lines[j])
  }

  /** Across files too: after all files `rbp_parse` is in use exactly when
      some non-comment line of some file contains `rbp=`; from that line on,
      every later line of every later file is parsed by it. */
  lemma {:induction false} LoadFilesRbp(files: seq<(string, seq<string>)>, ps: Parsers)
    requires LoadFiles(files, ps).Ok?
    ensures LoadFiles(files, ps).value.rbp <==> exists i :: 0 <= i < |files| && HasRbp(files[i].1)
  {
    if files != [] {
      var front := files[..|files| - 1];
      var last := files[|files| - 1];
      LoadFilesRbp(front, ps);
      LoadLinesRbp(LoadFiles(front, ps).value, last.0, last.1, ps);
      SomeFileRbp(files);
    }
  }

  /** Splitting off the last file for the "some file has an `rbp=` line" test. */
  lemma {:induction false} SomeFileRbp(files: seq<(string, seq<string>)>)
    requires files != []
    ensures var front := files[..|files| - 1];
      (exists i :: 0 <= i < |files| && HasRbp(files[i].1)) <==>
      (exists i :: 0 <= i < |front| && HasRbp(front[i].1)) || HasRbp(files[|files| - 1].1)
  {
    var front := files[..|files| - 1];
    if exists i :: 0 <= i < |front| && HasRbp(front[i].1) {
      var i :| 0 <= i < |front| && HasRbp(front[i].1);
      assert files[i] == front[i];
    }
    if exists i :: 0 <= i < |files| && HasRbp(files[i].1) {
      var i :| 0 <= i < |files| && HasRbp(files[i].1);
      if i < |front| {
        assert front[i] == files[i];
      }
    }
  }

  /** Every per-metric dictionary is valid. */
  predicate TablesValid(results: map<string, FileTables>)
  {
    forall m :: m in results ==> Valid(results[m])
  }

  /** No table holds the query id `all`. */
  predicate NoAll(results: map<string, FileTables>)
  {
    forall m, f :: m in results && f in results[m].values ==> "all" !in results[m].values[f]
  }

  /** A metric a file lists has a table for that file. */
  predicate Listed(results: map<string, FileTables>, fm: Dict<string, set<string>>)
  {
    forall f, m :: f in fm.values && m in fm.values[f] ==> m in results && f in results[m].values
  }

  /** A file with a table under a metric lists that metric. */
  predicate Tabled(results: map<string, FileTables>, fm: Dict<string, set<string>>)
  {
    forall m, f :: m in results && f in results[m].values ==> f in fm.values && m in fm.values[f]
  }

  /** `results` and `file_metrics` agree: a file lists a metric exactly
      when it has a table under that metric; every dictionary is valid and
      no table holds the query id `all`. */
  predicate Consistent(st: Loaded)
  {
    && Valid(st.fileMetrics) && TablesValid(st.results) && NoAll(st.results)
    && Listed(st.results, st.fileMetrics) && Tabled(st.results, st.fileMetrics)
  }

  /** Storing a record keeps every dictionary valid and puts its value under
      its metric, file and query id. */
  lemma {:induction false} StoreValid(results: map<string, FileTables>, r: Record, name: string)
    requires TablesValid(results)
    ensures TablesValid(Store(results, r, name))
    ensures r.metric in Store(results, r, name) && name in Store(results, r, name)[r.metric].values
    ensures Store(results, r, name)[r.metric].values[name][r.qid] == r.value
  {
    var files := if r.metric in results then results[r.metric] else Empty();
    var table := if name in files.values then files.values[name] else map[];
    PutValid(files, name, table[r.qid := r.value]);
  }

  /** Storing a record whose query id is not `all` stores no `all`. */
  lemma {:induction false} StoreNoAll(results: map<string, FileTables>, r: Record, name: string)
    requires NoAll(results) && r.qid != "all"
    ensures NoAll(Store(results, r, name))
  {
    var results' := Store(results, r, name);
    forall m, f | m in results' && f in results'[m].values ensures "all" !in results'[m].values[f] {
      if m == r.metric && f == name {
        var files := if r.metric in results then results[r.metric] else Empty();
        assert name in files.values ==> files == results[m];
      }
    }
  }

  /** Storing a record and listing its metric keep the two dictionaries in
      agreement. */
  lemma {:induction false} StoreAgrees(results: map<string, FileTables>, fm: Dict<string, set<string>>, r: Record, name: string)
    requires Listed(results, fm) && Tabled(results, fm)
    ensures Listed(Store(results, r, name), AddMetric(fm, name, r.metric))
    ensures Tabled(Store(results, r, name), AddMetric(fm, name, r.metric))
  {
    var results' := Store(results, r, name);
    var fm' := AddMetric(fm, name, r.metric);
    var files := if r.metric in results then results[r.metric] else Empty();
    assert results'[r.metric].values.Keys == files.values.Keys + {name};
    forall f, m | f in fm'.values && m in fm'.values[f] ensures m in results' && f in results'[m].values {
      if f == name && m == r.metric {
      } else {
        assert f in fm.values && m in fm.values[f];
      }
    }
    forall m, f | m in results' && f in results'[m].values ensures f in fm'.values && m in fm'.values[f] {
      if f == name && m == r.metric {
      } else {
        assert m in results && f in results[m].values;
      }
    }
  }

  /** Each line keeps the two dictionaries in agreement; in particular no
      `all` record is ever stored. */
  lemma {:induction false} StepKeeps(st: Loaded, name: string, line: string, ps: Parsers)
    requires Consistent(st) && Step(st, name, line, ps).Ok?
    ensures Consistent(Step(st, name, line, ps).value)
  {
    if !Comment(line) {
      var rbp := st.rbp || RbpLine(line);
      var r := ParseLine(rbp, line, ps).value;
      assert Step(st, name, line, ps) == Ok(Keep(st, r, name, rbp));
      KeepKeeps(st, r, name, rbp);
    }
  }

  lemma {:induction false} KeepKeeps(st: Loaded, r: Record, name: string, rbp: bool)
    requires Consistent(st)
    ensures Consistent(Keep(st, r, name, rbp))
  {
    if r.qid != "all" {
      StoreValid(st.results, r, name);
      StoreNoAll(st.results, r, name);
      StoreAgrees(st.results, st.fileMetrics, r, name);
      PutValid(st.fileMetrics, name, GetOr(st.fileMetrics, name, {}) + {r.metric});
    }
  }

  lemma {:induction false} LoadLinesKeeps(st: Loaded, name: string, lines: seq<string>, ps: Parsers)
    requires Consistent(st) && LoadLines(st, name, lines, ps).Ok?
    ensures Consistent(LoadLines(st, name, lines, ps).value)
  {
    if lines != [] {
      LoadLinesKeeps(st, name, lines[..|lines| - 1], ps);
      StepKeeps(LoadLines(st, name, lines[..|lines| - 1], ps).value, name, lines[|lines| - 1], ps);
    }
  }

  lemma {:induction false} LoadFilesKeeps(files: seq<(string, seq<string>)>, ps: Parsers)
    requires LoadFiles(files, ps).Ok?
    ensures Consistent(LoadFiles(files, ps).value)
  {
    if files != [] {
      var front := files[..|files| - 1];
      LoadFilesKeeps(front, ps);
      LoadLinesKeeps(LoadFiles(front, ps).value, files[|files| - 1].0, files[|files| - 1].1, ps);
    }
  }

  // ---------------------------------------------------------------------
  // Alignment

  /** `set.intersection(*ss)`. */
  function Intersection(ss: seq<set<string>>): set<string>
    requires |ss| > 0
  {
    if |ss| == 1 then ss[0] else Intersection(ss[..|ss| - 1]) * ss[|ss| - 1]
  }

  /** An element is in the intersection exactly when it is in every set. */
  lemma {:induction false} IntersectionMem(ss: seq<set<string>>, x: string)
    requires |ss| > 0
    ensures x in Intersection(ss) <==> forall i :: 0 <= i < |ss| ==> x in ss[i]
  {
    if |ss| > 1 {
      var front := ss[..|ss| - 1];
      IntersectionMem(front, x);
      if forall i :: 0 <= i < |front| ==> x in front[i] {
        assert forall i :: 0 <= i < |ss| - 1 ==> front[i] == ss[i];
      } else {
        var i :| 0 <= i < |front| && x !in front[i];
        assert x !in ss[i];
      }
    }
  }

  /** `set.union(*ss)`. */
  function Union(ss: seq<set<string>>): set<string>
  {
    if ss == [] then {} else Union(ss[..|ss| - 1]) + ss[|ss| - 1]
  }

  /** An element is in the union exactly when it is in some set. */
  lemma {:induction false} UnionMem(ss: seq<set<string>>, x: string)
    ensures x in Union(ss) <==> exists i :: 0 <= i < |ss| && x in ss[i]
  {
    if ss != [] {
      var front := ss[..|ss| - 1];
      UnionMem(front, x);
      if exists i :: 0 <= i < |front| && x in front[i] {
        var i :| 0 <= i < |front| && x in front[i];
        assert x in ss[i];
      }
      if exists i :: 0 <= i < |ss| && x in ss[i] {
        var i :| 0 <= i < |ss| && x in ss[i];
        if i < |front| {
          assert x in front[i];
        }
      }
    }
  }

  /** The query ids of each file's table, files in order. */
  function QidSets(t: FileTables): (r: seq<set<string>>)
    requires Valid(t)
    ensures |r| == |t.keys|
  {
    seq(|t.keys|, i requires 0 <= i < |t.keys| => KeyAt(t, i).1.Keys)
  }

  /** A file's query ids lie between the intersection and the union of all
      files' query ids. */
  lemma {:induction false} QidBounds(t: FileTables, f: string)
    requires Valid(t) && |t.keys| > 0 && f in t.values
    ensures Intersection(QidSets(t)) <= t.values[f].Keys <= Union(QidSets(t))
  {
    Present(t, f);
    var i :| 0 <= i < |t.keys| && t.keys[i] == f;
    assert QidSets(t)[i] == t.values[f].Keys;
    forall q ensures q in Intersection(QidSets(t)) ==> q in t.values[f] {
      IntersectionMem(QidSets(t), q);
    }
    forall q | q in t.values[f] ensures q in Union(QidSets(t)) {
      UnionMem(QidSets(t), q);
    }
  }

  /** Each file's query ids are among the sets intersected. */
  lemma {:induction false} QidSetsOf(t: FileTables, f: string) returns (i: nat)
    requires Valid(t) && f in t.values
    ensures i < |t.keys| && t.keys[i] == f && QidSets(t)[i] == t.values[f].Keys
  {
    Present(t, f);
    i :| 0 <= i < |t.keys| && t.keys[i] == f;
  }

  /** The shared query ids are those every file has. */
  lemma {:induction false} SharedQids(t: FileTables, q: string)
    requires Valid(t) && |t.keys| > 0
    ensures q in Intersection(QidSets(t)) <==> forall f :: f in t.values ==> q in t.values[f]
  {
    IntersectionMem(QidSets(t), q);
    forall f | f in t.values ensures exists i :: 0 <= i < |t.keys| && QidSets(t)[i] == t.values[f].Keys {
      var i := QidSetsOf(t, f);
    }
  }

  /** The query ids of some file are those any file has. */
  lemma {:induction false} AnyQids(t: FileTables, q: string)
    requires Valid(t)
    ensures q in Union(QidSets(t)) <==> exists f :: f in t.values && q in t.values[f]
  {
    UnionMem(QidSets(t), q);
    if exists f :: f in t.values && q in t.values[f] {
      var f :| f in t.values && q in t.values[f];
      var i := QidSetsOf(t, f);
    }
  }

  /** One common metric, aligned: every file's table cut down to the query
      ids all files share, those ids sorted, and the ids that were
      dropped. */
  datatype Row = Row(metric: string, files: FileTables, qids: seq<string>, removed: set<string>)

  /** `cut` is `table` restricted to the query ids `keep`. */
  ghost predicate Cut(cut: QidTable, table: QidTable, keep: set<string>)
  {
    && (forall q :: q in cut <==> q in keep)
    && (forall q :: q in cut ==> q in table && cut[q] == table[q])
  }

  /** `row` is table `t` aligned: the same files in the same order; each
      file keeps exactly the shared query ids, with its own values; the
      dropped ids are the union minus the intersection. */
  ghost predicate AlignedRow(row: Row, t: FileTables)
    requires Valid(t) && |t.keys| > 0
  {
    var inter := Intersection(QidSets(t));
    && Valid(row.files) && row.files.keys == t.keys
    && (forall f :: f in row.files.values ==> f in t.values && Cut(row.files.values[f], t.values[f], inter))
    && (forall q :: q in row.qids <==> q in inter)
    && StrictlyIncreasing(row.qids)
    && row.removed == Union(QidSets(t)) - inter
  }

  /** `file_results[filename].pop(id_, None)` for each dropped id. */
  method PopAll(table: QidTable, ids: seq<string>) returns (r: QidTable)
    ensures forall q :: q in r <==> q in table && q !in ids
    ensures forall q :: q in r ==> r[q] == table[q]
  {
    r := table;
    for j := 0 to |ids|
      invariant forall q :: q in r <==> q in table && q !in ids[..j]
      invariant forall q :: q in r ==> r[q] == table[q]
    {
      r := r - {ids[j]};
      assert forall q :: q in ids[..j + 1] <==> q in ids[..j] || q == ids[j];
    }
    assert ids[..|ids|] == ids;
  }

  /** Files `0..i` of `files` are cut to `inter`, the others are still as in
      `t`. */
  ghost predicate CutUpTo(files: FileTables, t: FileTables, inter: set<string>, i: nat)
    requires Valid(t) && i <= |t.keys|
  {
    && Valid(files) && files.keys == t.keys
    && (forall x :: 0 <= x < |t.keys| ==> t.keys[x] in files.values && t.keys[x] in t.values)
    && (forall x :: 0 <= x < i ==> Cut(files.values[t.keys[x]], t.values[t.keys[x]], inter))
    && (forall x :: i <= x < |t.keys| ==> files.values[t.keys[x]] == t.values[t.keys[x]])
  }

  lemma {:induction false} CutStart(t: FileTables, inter: set<string>)
    requires Valid(t)
    ensures CutUpTo(t, t, inter, 0)
  {
    forall x | 0 <= x < |t.keys| ensures t.keys[x] in t.values {
      Present(t, t.keys[x]);
    }
  }

  /** Cutting file `i` moves the boundary by one. */
  lemma {:induction false} CutNext(files: FileTables, t: FileTables, inter: set<string>, i: nat, cut: QidTable)
    requires Valid(t) && i < |t.keys| && CutUpTo(files, t, inter, i)
    requires Cut(cut, t.values[t.keys[i]], inter)
    ensures CutUpTo(Put(files, t.keys[i], cut), t, inter, i + 1)
  {
    PutValid(files, t.keys[i], cut);
    var files' := Put(files, t.keys[i], cut);
    forall x | 0 <= x < |t.keys| && x != i ensures files'.values[t.keys[x]] == files.values[t.keys[x]] {
      assert t.keys[x] != t.keys[i];
    }
  }

  /** With every file cut, the files form an aligned row. */
  lemma {:induction false} CutDone(files: FileTables, t: FileTables, inter: set<string>)
    requires Valid(t) && CutUpTo(files, t, inter, |t.keys|)
    ensures forall f :: f in files.values ==> f in t.values && Cut(files.values[f], t.values[f], inter)
  {
    forall f | f in files.values ensures f in t.values && Cut(files.values[f], t.values[f], inter) {
      Present(files, f);
      var x :| 0 <= x < |t.keys| && t.keys[x] == f;
    }
  }

  /** Popping the ids outside the intersection cuts a file's table to the
      intersection. */
  lemma {:induction false} PopCuts(t: FileTables, f: string, ids: seq<string>, popped: QidTable)
    requires Valid(t) && |t.keys| > 0 && f in t.values
    requires forall q :: q in ids <==> q in Union(QidSets(t)) - Intersection(QidSets(t))
    requires forall q :: q in popped <==> q in t.values[f] && q !in ids
    requires forall q :: q in popped ==> popped[q] == t.values[f][q]
    ensures Cut(popped, t.values[f], Intersection(QidSets(t)))
  {
    QidBounds(t, f);
  }

  /** The pops of the metric loop of `main`: each file in turn loses the
      ids `ids`, which are exactly the ids outside the intersection. */
  method CutFiles(t: FileTables, ids: seq<string>) returns (files: FileTables)
    requires Valid(t) && |t.keys| > 0
    requires forall q :: q in ids <==> q in Union(QidSets(t)) - Intersection(QidSets(t))
    ensures Valid(files) && files.keys == t.keys
    ensures forall f :: f in files.values ==> f in t.values && Cut(files.values[f], t.values[f], Intersection(QidSets(t)))
  {
    ghost var inter := Intersection(QidSets(t));
    files := t;
    CutStart(t, inter);
    for i := 0 to |t.keys|
      invariant CutUpTo(files, t, inter, i)
    {
      var f := t.keys[i];
      var popped := PopAll(files.values[f], ids);
      PopCuts(t, f, ids, popped);
      CutNext(files, t, inter, i, popped);
      files := Put(files, f, popped);
    }
    CutDone(files, t, inter);
  }

  /** The body of the metric loop of `main`: drop from each file the query
      ids not every file has, then sort the shared ids. */
  method AlignMetric(metric: string, t: FileTables) returns (row: Row)
    requires Valid(t) && |t.keys| > 0
    ensures row.metric == metric && AlignedRow(row, t)
  {
    var union := Union(QidSets(t));
    var inter := Intersection(QidSets(t));
    var ids := SetElements(union - inter);
    var files := CutFiles(t, ids);
    var qids := SortedStrings(inter);
    row := Row(metric, files, qids, union - inter);
  }

  /** `list(file_metrics.values())`. */
  function MetricSets(fm: Dict<string, set<string>>): (r: seq<set<string>>)
    requires Valid(fm)
    ensures |r| == |fm.keys|
  {
    ValuesOf(fm)
  }

  datatype EvalError =
    | Parse(error: ParseError)
    | NoRecords   // `set.intersection()` with no file to intersect

  /** What the script holds before the statistics: the common metrics, each
      file's disregarded metrics, and one aligned row per common metric in
      metric order. */
  datatype Alignment = Alignment(common: set<string>, disregarded: map<string, set<string>>, rows: seq<Row>)

  /** The common metrics are those every file that produced a record
      lists. */
  lemma {:induction false} CommonMetrics(fm: Dict<string, set<string>>, m: string)
    requires Valid(fm) && |fm.keys| > 0
    ensures m in Intersection(MetricSets(fm)) <==> forall f :: f in fm.values ==> m in fm.values[f]
  {
    IntersectionMem(MetricSets(fm), m);
    forall f | f in fm.values ensures exists i :: 0 <= i < |fm.keys| && MetricSets(fm)[i] == fm.values[f] {
      Present(fm, f);
      var i :| 0 <= i < |fm.keys| && fm.keys[i] == f;
    }
  }

  /** A common metric has a table for every file that produced any
      record. */
  lemma {:induction false} CommonHasTables(st: Loaded, m: string)
    requires Consistent(st) && |st.fileMetrics.keys| > 0
    requires m in Intersection(MetricSets(st.fileMetrics))
    ensures m in st.results && Valid(st.results[m]) && |st.results[m].keys| > 0
    ensures forall f :: f in st.fileMetrics.values ==> f in st.results[m].values
  {
    var fm := st.fileMetrics;
    IntersectionMem(MetricSets(fm), m);
    forall f | f in fm.values ensures m in fm.values[f] {
      Present(fm, f);
      var i :| 0 <= i < |fm.keys| && fm.keys[i] == f;
      assert MetricSets(fm)[i] == fm.values[f];
    }
    var f0 := fm.keys[0];
    Present(fm, f0);
    Present(st.results[m], f0);
  }

  /** Each row is its metric's table aligned. */
  ghost predicate RowsAligned(results: map<string, FileTables>, rows: seq<Row>)
  {
    forall i :: 0 <= i < |rows| ==>
      var m := rows[i].metric;
      m in results && Valid(results[m]) && |results[m].keys| > 0 && AlignedRow(rows[i], results[m])
  }

  function Metrics(rows: seq<Row>): (r: seq<string>)
    ensures |r| == |rows| && forall i :: 0 <= i < |rows| ==> r[i] == rows[i].metric
  {
    seq(|rows|, i requires 0 <= i < |rows| => rows[i].metric)
  }

  /** The metric loop of `main`, over common metrics. */
  method AlignRows(st: Loaded, metrics: seq<string>) returns (rows: seq<Row>)
    requires Consistent(st) && |st.fileMetrics.keys| > 0
    requires forall m :: m in metrics ==> m in Intersection(MetricSets(st.fileMetrics))
    ensures Metrics(rows) == metrics
    ensures RowsAligned(st.results, rows)
  {
    rows := [];
    for i := 0 to |metrics|
      invariant Metrics(rows) == metrics[..i]
      invariant RowsAligned(st.results, rows)
    {
      CommonHasTables(st, metrics[i]);
      var row := AlignMetric(metrics[i], st.results[metrics[i]]);
      RowsAlignedSnoc(st.results, rows, row);
      MetricsSnoc(rows, row, metrics, i);
      rows := rows + [row];
    }
    assert metrics[..|metrics|] == metrics;
  }

  lemma {:induction false} MetricsSnoc(rows: seq<Row>, row: Row, metrics: seq<string>, i: nat)
    requires i < |metrics| && Metrics(rows) == metrics[..i] && row.metric == metrics[i]
    ensures Metrics(rows + [row]) == metrics[..i + 1]
  {
    assert Metrics(rows + [row]) == Metrics(rows) + [row.metric];
  }

  lemma {:induction false} RowsAlignedSnoc(results: map<string, FileTables>, rows: seq<Row>, row: Row)
    requires RowsAligned(results, rows)
    requires row.metric in results && Valid(results[row.metric]) && |results[row.metric].keys| > 0
    requires AlignedRow(row, results[row.metric])
    ensures RowsAligned(results, rows + [row])
  {
    assert forall i :: 0 <= i < |rows| ==> (rows + [row])[i] == rows[i];
  }

  /** `main` up to the statistics: parse every file, intersect the metric
      sets, and align each common metric, in sorted metric order. */
  method Align(files: seq<(string, seq<string>)>, ps: Parsers) returns (r: Result<Alignment, EvalError>)
    ensures LoadFiles(files, ps).Err? ==> r == Err(Parse(LoadFiles(files, ps).error))
    ensures LoadFiles(files, ps).Ok? && LoadFiles(files, ps).value.fileMetrics.keys == [] ==> r == Err(NoRecords)
    ensures r.Ok? <==> LoadFiles(files, ps).Ok? && |LoadFiles(files, ps).value.fileMetrics.keys| > 0
    ensures r.Ok? ==>
      var st := LoadFiles(files, ps).value;
      var a := r.value;
      && Consistent(st) && |st.fileMetrics.keys| > 0
      && a.common == Intersection(MetricSets(st.fileMetrics))
      && (forall f :: f in a.disregarded <==> f in st.fileMetrics.values)
      && (forall f :: f in a.disregarded ==> a.disregarded[f] == st.fileMetrics.values[f] - a.common)
      && (forall m :: m in Metrics(a.rows) <==> m in a.common)
      && StrictlyIncreasing(Metrics(a.rows))
      && RowsAligned(st.results, a.rows)
  {
    var loaded := Load(files, ps);
    if loaded.Err? {
      return Err(Parse(loaded.error));
    }
    var st := loaded.value;
    LoadFilesKeeps(files, ps);
    if st.fileMetrics.keys == [] {
      return Err(NoRecords);
    }
    var common := Intersection(MetricSets(st.fileMetrics));
    var disregarded := map f | f in st.fileMetrics.values :: st.fileMetrics.values[f] - common;
    var metrics := SortedStrings(common);
    var rows := AlignRows(st, metrics);
    r := Ok(Alignment(common, disregarded, rows));
  }
}
