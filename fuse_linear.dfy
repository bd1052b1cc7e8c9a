/** Linear fusion of ranking runs (fuse_linear.py): the weight-vector
    enumeration of sweep mode, the argument parsers, and the fusion that sums
    `weight * score` per query and document and ranks the documents. */
module FuseLinear {
  import opened Wrappers
  import opened Seqs
  import opened Text
  import opened Sorting
  import opened Assoc

  datatype ParseError = MalformedFileWeight(s: string) | NotANumber(s: string)

  /** `parse_file_weight`: "file:weight" gives the file and its weight; a
      string without ':' is a file of weight 1. */
  function ParseFileWeight(s: string, toFloat: string -> Option<real>): (r: Result<(string, real), ParseError>)
    ensures ':' !in s ==> r == Ok((s, 1.0))
    ensures ':' in s ==> (r.Ok? <==> |Split(s, ':')| == 2 && toFloat(Split(s, ':')[1]).Some?)
    ensures r.Ok? ==> ':' !in r.value.0
  {
    if ':' in s then
      var parts := Split(s, ':');
      if |parts| != 2 then Err(MalformedFileWeight(s))
      else
        match toFloat(parts[1])
        case None => Err(NotANumber(parts[1]))
        case Some(w) => Ok((parts[0], w))
    else Ok((s, 1.0))
  }

  /** "file:weight" parses back to the file and the weight's value. */
  lemma {:induction false} ParseFileWeightJoin(f: string, w: string, toFloat: string -> Option<real>)
    requires ':' !in f && ':' !in w && toFloat(w).Some?
    ensures ParseFileWeight(f + [':'] + w, toFloat) == Ok((f, toFloat(w).value))
  {
    assert Join([f, w], ':') == f + [':'] + w;
    SplitJoin([f, w], ':');
    assert (f + [':'] + w)[|f|] == ':';
  }

  /** A string with two or more ':' is refused (Python cannot unpack it into two names). */
  lemma {:induction false} ParseFileWeightTwoColons(f: string, w: string, x: string, toFloat: string -> Option<real>)
    requires ':' !in f && ':' !in w && ':' !in x
    ensures ParseFileWeight(f + [':'] + w + [':'] + x, toFloat).Err?
  {
    assert Join([f, w, x], ':') == f + [':'] + w + [':'] + x by {
      assert Join([f, w, x][1..], ':') == w + [':'] + x by {
        assert [f, w, x][1..] == [w, x];
        assert [w, x][1..] == [x];
      }
    }
    SplitJoin([f, w, x], ':');
    assert (f + [':'] + w + [':'] + x)[|f|] == ':';
  }

  /** Each string of `parts` converted by `float`, or the first that fails. */
  function ParseReals(parts: seq<string>, toFloat: string -> Option<real>): (r: Result<seq<real>, ParseError>)
    ensures r.Ok? <==> forall i :: 0 <= i < |parts| ==> toFloat(parts[i]).Some?
    ensures r.Ok? ==> |r.value| == |parts| && forall i :: 0 <= i < |parts| ==> r.value[i] == toFloat(parts[i]).value
  {
    if parts == [] then Ok([])
    else
      match toFloat(parts[0])
      case None => Err(NotANumber(parts[0]))
      case Some(x) =>
        var rest := ParseReals(parts[1..], toFloat);
        if rest.Err? then rest else Ok([x] + rest.value)
  }

  /** `float_comma_list`: the comma-separated list of weights. */
  function FloatCommaList(s: string, toFloat: string -> Option<real>): (r: Result<seq<real>, ParseError>)
  {
    ParseReals(Split(s, ','), toFloat)
  }

  /** A comma-joined list of numbers parses to one weight per item, in order. */
  lemma {:induction false} FloatCommaListJoin(items: seq<string>, toFloat: string -> Option<real>)
    requires |items| >= 1 && forall i :: 0 <= i < |items| ==> ',' !in items[i]
    ensures var r := FloatCommaList(Join(items, ','), toFloat);
      && (r.Ok? <==> forall i :: 0 <= i < |items| ==> toFloat(items[i]).Some?)
      && (r.Ok? ==> |r.value| == |items| && forall i :: 0 <= i < |items| ==> r.value[i] == toFloat(items[i]).value)
  {
    SplitJoin(items, ',');
  }

  datatype ArgError = WeightCountMismatch(weights: nat, runs: nat)

  /** `zip(args.run, args.weight)` after the check in `parse_args`: each run is
      paired with the weight at its position; a weight list of another length
      is an error instead of a silently truncated zip. */
  function PairRuns<R>(runs: seq<R>, weights: seq<real>): (r: Result<seq<(R, real)>, ArgError>)
    ensures r.Ok? <==> |weights| == |runs|
    ensures r.Ok? ==> |r.value| == |runs| && forall i :: 0 <= i < |runs| ==> r.value[i] == (runs[i], weights[i])
  {
    if |weights| != |runs| then Err(WeightCountMismatch(|weights|, |runs|))
    else Ok(seq(|runs|, i requires 0 <= i < |runs| => (runs[i], weights[i])))
  }

  // ---------------------------------------------------------------------
  // sum_to_number: every length-n sequence over `cands` that sums to `target`

  function Total(s: seq<int>): int
  {
    if s == [] then 0 else s[0] + Total(s[1..])
  }

  /** `sum_to_number(candidates, n, target)`. */
  function SumToNumber(cands: seq<int>, n: nat, target: int): seq<seq<int>>
    requires n >= 1
    decreases n, |cands| + 1
  {
    if n == 1 then (if target in cands then [[target]] else [])
    else ExtendEach(cands, cands, n, target)
  }

  /** The loop of `sum_to_number` over the candidates `cs` still to try. */
  function ExtendEach(cands: seq<int>, cs: seq<int>, n: nat, target: int): seq<seq<int>>
    requires n >= 2
    decreases n, |cs|
  {
    if cs == [] then []
    else Prepend(cs[0], SumToNumber(cands, n - 1, target - cs[0])) + ExtendEach(cands, cs[1..], n, target)
  }

  /** A sequence of length `n` over `cands` that sums to `target`. */
  predicate IsComposition(cands: seq<int>, n: nat, target: int, s: seq<int>)
  {
    |s| == n && Total(s) == target && forall i :: 0 <= i < |s| ==> s[i] in cands
  }

  lemma {:induction false} ExtendEachMember(cands: seq<int>, cs: seq<int>, n: nat, target: int, s: seq<int>)
    requires n >= 2
    ensures s in ExtendEach(cands, cs, n, target) <==>
      s != [] && s[0] in cs && s[1..] in SumToNumber(cands, n - 1, target - s[0])
    decreases |cs|
  {
    if cs != [] {
      ExtendEachMember(cands, cs[1..], n, target, s);
      var p := Prepend(cs[0], SumToNumber(cands, n - 1, target - cs[0]));
      if s in p {
        var i :| 0 <= i < |p| && p[i] == s;
        assert s[1..] == SumToNumber(cands, n - 1, target - cs[0])[i];
      }
      if s != [] && s[0] == cs[0] && s[1..] in SumToNumber(cands, n - 1, target - s[0]) {
        var i :| 0 <= i < |SumToNumber(cands, n - 1, target - s[0])| && SumToNumber(cands, n - 1, target - s[0])[i] == s[1..];
        assert p[i] == s;
      }
    }
  }

  /** `sum_to_number` returns exactly the compositions: every list it returns
      has length `n`, sums to `target` and uses only candidates, and every
      such list is returned. */
  lemma {:induction false} SumToNumberExact(cands: seq<int>, n: nat, target: int, s: seq<int>)
    requires n >= 1
    ensures s in SumToNumber(cands, n, target) <==> IsComposition(cands, n, target, s)
    decreases n
  {
    if n >= 2 {
      ExtendEachMember(cands, cands, n, target, s);
      if s != [] {
        SumToNumberExact(cands, n - 1, target - s[0], s[1..]);
        assert forall i :: 1 <= i < |s| ==> s[i] == s[1..][i - 1];
      }
    } else if |s| == 1 {
      assert s[1..] == [];
      assert Total(s) == s[0] + Total(s[1..]) == s[0];
      assert s == [s[0]];
    }
  }

  /** `a` comes before `b` in the enumeration order: at the first position
      where they differ, the element of `a` stands earlier in `cands`. */
  predicate LexBefore(cands: seq<int>, a: seq<int>, b: seq<int>)
    decreases |a|
  {
    && a != [] && b != [] && a[0] in cands && b[0] in cands
    && (IndexOf(cands, a[0]) < IndexOf(cands, b[0]) || (a[0] == b[0] && LexBefore(cands, a[1..], b[1..])))
  }

  lemma {:induction false} LexBeforeIrreflexive(cands: seq<int>, a: seq<int>)
    ensures !LexBefore(cands, a, a)
    decreases |a|
  {
    if a != [] {
      LexBeforeIrreflexive(cands, a[1..]);
    }
  }

  predicate LexIncreasing(cands: seq<int>, ss: seq<seq<int>>)
  {
    forall i, j :: 0 <= i < j < |ss| ==> LexBefore(cands, ss[i], ss[j])
  }

  lemma {:induction false} PrependIncreasing(cands: seq<int>, x: int, ss: seq<seq<int>>)
    requires x in cands && LexIncreasing(cands, ss)
    ensures LexIncreasing(cands, Prepend(x, ss))
  {
    var p := Prepend(x, ss);
    forall i, j | 0 <= i < j < |p| ensures LexBefore(cands, p[i], p[j]) {
      assert p[i][1..] == ss[i] && p[j][1..] == ss[j];
    }
  }

  lemma {:induction false} ConcatIncreasing(cands: seq<int>, p: seq<seq<int>>, q: seq<seq<int>>)
    requires LexIncreasing(cands, p) && LexIncreasing(cands, q)
    requires forall i, j :: 0 <= i < |p| && 0 <= j < |q| ==> LexBefore(cands, p[i], q[j])
    ensures LexIncreasing(cands, p + q)
  {
    var all := p + q;
    forall i, j | 0 <= i < j < |all| ensures LexBefore(cands, all[i], all[j]) {
      if j < |p| {
        assert all[i] == p[i] && all[j] == p[j];
      } else if i >= |p| {
        assert all[i] == q[i - |p|] && all[j] == q[j - |p|];
      } else {
        assert all[i] == p[i] && all[j] == q[j - |p|];
      }
    }
  }

  /** The lists built from the candidates after position `m` all start with
      such a candidate. */
  lemma {:induction false} ExtendEachHeads(cands: seq<int>, m: nat, n: nat, target: int, b: seq<int>)
    requires n >= 2 && m <= |cands| && NoDup(cands)
    requires b in ExtendEach(cands, cands[m..], n, target)
    ensures b != [] && b[0] in cands && IndexOf(cands, b[0]) >= m
  {
    ExtendEachMember(cands, cands[m..], n, target, b);
    var k :| m <= k < |cands| && cands[k] == b[0];
    assert IndexOf(cands, b[0]) == k;
  }

  lemma {:induction false} ExtendEachIncreasing(cands: seq<int>, m: nat, n: nat, target: int)
    requires n >= 2 && m <= |cands| && NoDup(cands)
    ensures LexIncreasing(cands, ExtendEach(cands, cands[m..], n, target))
    decreases n, |cands| - m
  {
    var cs := cands[m..];
    if cs != [] {
      var x := cs[0];
      assert cs[1..] == cands[m + 1..];
      ExtendEachIncreasing(cands, m + 1, n, target);
      var sub := SumToNumber(cands, n - 1, target - x);
      SumToNumberOrdered(cands, n - 1, target - x);
      PrependIncreasing(cands, x, sub);
      var p := Prepend(x, sub);
      var rest := ExtendEach(cands, cs[1..], n, target);
      assert IndexOf(cands, x) == m by {
        assert cands[m] == x;
      }
      forall i, j | 0 <= i < |p| && 0 <= j < |rest| ensures LexBefore(cands, p[i], rest[j]) {
        ExtendEachHeads(cands, m + 1, n, target, rest[j]);
        assert p[i][0] == x;
      }
      ConcatIncreasing(cands, p, rest);
    }
  }

  /** With distinct candidates the output is in strictly increasing
      lexicographic order (by position in `cands`), hence duplicate-free. */
  lemma {:induction false} SumToNumberOrdered(cands: seq<int>, n: nat, target: int)
    requires n >= 1 && NoDup(cands)
    ensures LexIncreasing(cands, SumToNumber(cands, n, target))
    ensures NoDup(SumToNumber(cands, n, target))
    decreases n, |cands| + 1
  {
    var r := SumToNumber(cands, n, target);
    if n >= 2 {
      assert cands[0..] == cands;
      ExtendEachIncreasing(cands, 0, n, target);
    }
    forall i, j | 0 <= i < j < |r| ensures r[i] != r[j] {
      LexBeforeIrreflexive(cands, r[i]);
    }
  }

  /** `range(0, 11)`. */
  function Range(lo: int, hi: int): (r: seq<int>)
    requires lo <= hi
    ensures |r| == hi - lo && forall i :: 0 <= i < |r| ==> r[i] == lo + i
  {
    seq(hi - lo, i requires 0 <= i < hi - lo => lo + i)
  }

  function SumReals(s: seq<real>): real
  {
    if s == [] then 0.0 else s[0] + SumReals(s[1..])
  }

  function Scale(ws: seq<int>): (r: seq<real>)
    ensures |r| == |ws| && forall i :: 0 <= i < |ws| ==> r[i] == (ws[i] as real) / 10.0
  {
    seq(|ws|, i requires 0 <= i < |ws| => (ws[i] as real) / 10.0)
  }

  /** The weight vectors of sweep mode for `n` runs: the compositions of 10
      into `n` parts from 0..10, each divided by 10. */
  function SweepWeights(n: nat): seq<seq<real>>
    requires n >= 1
  {
    var ws := SumToNumber(Range(0, 11), n, 10);
    seq(|ws|, i requires 0 <= i < |ws| => Scale(ws[i]))
  }

  lemma {:induction false} ScaleSum(ws: seq<int>)
    ensures SumReals(Scale(ws)) == (Total(ws) as real) / 10.0
  {
    if ws != [] {
      ScaleSum(ws[1..]);
      assert Scale(ws)[1..] == Scale(ws[1..]);
    }
  }

  /** Every sweep weight vector has one weight per run, each a multiple of
      0.1 in [0, 1], and the weights sum to 1. */
  lemma {:induction false} SweepWeightsSumToOne(n: nat, i: nat)
    requires n >= 1 && i < |SweepWeights(n)|
    ensures |SweepWeights(n)[i]| == n
    ensures forall j :: 0 <= j < n ==> 0.0 <= SweepWeights(n)[i][j] <= 1.0
    ensures forall j :: 0 <= j < n ==> (SweepWeights(n)[i][j] * 10.0).Floor as real == SweepWeights(n)[i][j] * 10.0
    ensures SumReals(SweepWeights(n)[i]) == 1.0
  {
    var ws := SumToNumber(Range(0, 11), n, 10);
    SumToNumberExact(Range(0, 11), n, 10, ws[i]);
    ScaleSum(ws[i]);
    forall j | 0 <= j < n
      ensures 0.0 <= SweepWeights(n)[i][j] <= 1.0
      ensures (SweepWeights(n)[i][j] * 10.0).Floor as real == SweepWeights(n)[i][j] * 10.0
    {
      assert ws[i][j] in Range(0, 11);
      var k := ws[i][j];
      assert 0 <= k <= 10;
      assert SweepWeights(n)[i][j] * 10.0 == k as real;
    }
  }

  // ---------------------------------------------------------------------
  // fuse: sum the weighted scores per query and document, then rank

  /** One line of a run file, as `fuse` uses it: the query id, the document
      id and the score (fields 0, 2 and 4 of `line.split()`). */
  datatype Entry = Entry(qid: string, docid: string, score: real)

  type Run = seq<Entry>

  /** One output line `{qno} Q0 {docno} {rank} {score:.5f} linear`. */
  datatype RankedLine = RankedLine(qid: string, docid: string, rank: nat, score: real)

  datatype FuseError =
    | MalformedRunLine(line: string)   // `line.split()` does not give six fields
    | ScoreNotNumeric(score: string)   // `float(score)` fails
    | QueryIdNotNumeric(qid: string)   // `float(qno)` fails in the sort key

  /** `qno, _, docno, _, score, _ = line.split()` followed by `float(score)`. */
  function ParseRunLine(line: string, toFloat: string -> Option<real>): (r: Result<Entry, FuseError>)
    ensures |Words(line)| != 6 ==> r == Err(MalformedRunLine(line))
    ensures r.Ok? <==> |Words(line)| == 6 && toFloat(Words(line)[4]).Some?
    ensures r.Ok? ==> r.value == Entry(Words(line)[0], Words(line)[2], toFloat(Words(line)[4]).value)
  {
    var ws := Words(line);
    if |ws| != 6 then Err(MalformedRunLine(line))
    else
      match toFloat(ws[4])
      case None => Err(ScoreNotNumeric(ws[4]))
      case Some(x) => Ok(Entry(ws[0], ws[2], x))
  }

  /** The entries of a run file's lines, or the error of its first bad line. */
  function ParseRun(lines: seq<string>, toFloat: string -> Option<real>): Result<Run, FuseError>
  {
    if lines == [] then Ok([])
    else
      var front := ParseRun(lines[..|lines| - 1], toFloat);
      if front.Err? then front
      else
        match ParseRunLine(lines[|lines| - 1], toFloat)
        case Err(e) => Err(e)
        case Ok(x) => Ok(front.value + [x])
  }

  /** Every run file parsed, each with its weight, or the first error met
      reading them in order. */
  function ParseRuns(runs: seq<(seq<string>, real)>, toFloat: string -> Option<real>): Result<seq<(Run, real)>, FuseError>
  {
    if runs == [] then Ok([])
    else
      var front := ParseRuns(runs[..|runs| - 1], toFloat);
      if front.Err? then front
      else
        var (lines, w) := runs[|runs| - 1];
        match ParseRun(lines, toFloat)
        case Err(e) => Err(e)
        case Ok(run) => Ok(front.value + [(run, w)])
  }

  /** A run file parses exactly when each of its lines does, and then its
      entries are those of its lines, in order. */
  lemma {:induction false} ParseRunOk(lines: seq<string>, toFloat: string -> Option<real>)
    ensures ParseRun(lines, toFloat).Ok? <==> forall j :: 0 <= j < |lines| ==> ParseRunLine(lines[j], toFloat).Ok?
    ensures ParseRun(lines, toFloat).Ok? ==>
      && |ParseRun(lines, toFloat).value| == |lines|
      && forall j :: 0 <= j < |lines| ==> ParseRunLine(lines[j], toFloat) == Ok(ParseRun(lines, toFloat).value[j])
  {
    if lines != [] {
      var front := lines[..|lines| - 1];
      ParseRunOk(front, toFloat);
      assert forall j :: 0 <= j < |front| ==> front[j] == lines[j];
    }
  }

  /** A run file that does not parse fails with the error of its first bad
      line. */
  lemma {:induction false} ParseRunFirstError(lines: seq<string>, toFloat: string -> Option<real>)
    ensures ParseRun(lines, toFloat).Err? ==>
      exists j :: 0 <= j < |lines| && ParseRunLine(lines[j], toFloat) == Err(ParseRun(lines, toFloat).error)
        && forall k :: 0 <= k < j ==> ParseRunLine(lines[k], toFloat).Ok?
  {
    if lines != [] {
      var front := lines[..|lines| - 1];
      ParseRunFirstError(front, toFloat);
      if ParseRun(front, toFloat).Err? {
        var j :| 0 <= j < |front| && ParseRunLine(front[j], toFloat) == Err(ParseRun(front, toFloat).error)
          && forall k :: 0 <= k < j ==> ParseRunLine(front[k], toFloat).Ok?;
        assert lines[j] == front[j];
        assert forall k :: 0 <= k < j ==> lines[k] == front[k];
      } else {
        ParseRunOk(front, toFloat);
        assert forall k :: 0 <= k < |front| ==> lines[k] == front[k];
      }
    }
  }

  /** The runs parse exactly when each run file does, and then the parsed
      runs keep their weights and their order. */
  lemma {:induction false} ParseRunsOk(runs: seq<(seq<string>, real)>, toFloat: string -> Option<real>)
    ensures ParseRuns(runs, toFloat).Ok? <==> forall i :: 0 <= i < |runs| ==> ParseRun(runs[i].0, toFloat).Ok?
    ensures ParseRuns(runs, toFloat).Ok? ==>
      && |ParseRuns(runs, toFloat).value| == |runs|
      && forall i :: 0 <= i < |runs| ==> ParseRuns(runs, toFloat).value[i] == (ParseRun(runs[i].0, toFloat).value, runs[i].1)
  {
    if runs != [] {
      var front := runs[..|runs| - 1];
      ParseRunsOk(front, toFloat);
      assert forall i :: 0 <= i < |front| ==> front[i] == runs[i];
    }
  }

  /** Runs that do not parse fail with the error of the first run file that
      does not parse. */
  lemma {:induction false} ParseRunsFirstError(runs: seq<(seq<string>, real)>, toFloat: string -> Option<real>)
    ensures ParseRuns(runs, toFloat).Err? ==>
      exists i :: 0 <= i < |runs| && ParseRun(runs[i].0, toFloat) == Err(ParseRuns(runs, toFloat).error)
        && forall k :: 0 <= k < i ==> ParseRun(runs[k].0, toFloat).Ok?
  {
    if runs != [] {
      var front := runs[..|runs| - 1];
      ParseRunsFirstError(front, toFloat);
      if ParseRuns(front, toFloat).Err? {
        var i :| 0 <= i < |front| && ParseRun(front[i].0, toFloat) == Err(ParseRuns(front, toFloat).error)
          && forall k :: 0 <= k < i ==> ParseRun(front[k].0, toFloat).Ok?;
        assert runs[i] == front[i];
        assert forall k :: 0 <= k < i ==> runs[k] == front[k];
      } else {
        ParseRunsOk(front, toFloat);
        assert forall k :: 0 <= k < |front| ==> runs[k] == front[k];
      }
    }
  }

  lemma {:induction false} ParseRunErr(lines: seq<string>, toFloat: string -> Option<real>, j: nat)
    requires j <= |lines| && ParseRun(lines[..j], toFloat).Err?
    ensures ParseRun(lines, toFloat) == ParseRun(lines[..j], toFloat)
    decreases |lines| - j
  {
    if j < |lines| {
      assert lines[..j + 1][..j] == lines[..j];
      ParseRunErr(lines, toFloat, j + 1);
    } else {
      assert lines[..j] == lines;
    }
  }

  lemma {:induction false} ParseRunsErr(runs: seq<(seq<string>, real)>, toFloat: string -> Option<real>, i: nat)
    requires i <= |runs| && ParseRuns(runs[..i], toFloat).Err?
    ensures ParseRuns(runs, toFloat) == ParseRuns(runs[..i], toFloat)
    decreases |runs| - i
  {
    if i < |runs| {
      assert runs[..i + 1][..i] == runs[..i];
      ParseRunsErr(runs, toFloat, i + 1);
    } else {
      assert runs[..i] == runs;
    }
  }

  /** `weight * float(score)` for one line. */
  function Scaled(e: Entry, w: real): Entry
  {
    Entry(e.qid, e.docid, w * e.score)
  }

  /** The lines of `run` with their scores multiplied by `w`. */
  function Weigh(run: Run, w: real): (r: seq<Entry>)
    ensures |r| == |run|
    ensures forall i :: 0 <= i < |run| ==> r[i] == Scaled(run[i], w)
  {
    if run == [] then []
    else Weigh(run[..|run| - 1], w) + [Scaled(run[|run| - 1], w)]
  }

  /** What the loops of `fuse` add to the table, in the order they add it. */
  function Contributions(runs: seq<(Run, real)>): seq<Entry>
  {
    if runs == [] then []
    else Contributions(runs[..|runs| - 1]) + Weigh(runs[|runs| - 1].0, runs[|runs| - 1].1)
  }

  function Qids(cs: seq<Entry>): (r: seq<string>)
    ensures |r| == |cs| && forall i :: 0 <= i < |cs| ==> r[i] == cs[i].qid
  {
    seq(|cs|, i requires 0 <= i < |cs| => cs[i].qid)
  }

  /** The document ids of the entries of query `q`, in order. */
  function DocsOf(cs: seq<Entry>, q: string): seq<string>
  {
    if cs == [] then []
    else DocsOf(cs[..|cs| - 1], q) + (if cs[|cs| - 1].qid == q then [cs[|cs| - 1].docid] else [])
  }

  /** The sum of the scores of the entries for query `q` and document `d`. */
  function ScoreSum(cs: seq<Entry>, q: string, d: string): real
  {
    if cs == [] then 0.0
    else ScoreSum(cs[..|cs| - 1], q, d) + (if cs[|cs| - 1].qid == q && cs[|cs| - 1].docid == d then cs[|cs| - 1].score else 0.0)
  }

  lemma {:induction false} QidsSnoc(cs: seq<Entry>, e: Entry)
    ensures Qids(cs + [e]) == Qids(cs) + [e.qid]
  {
  }

  lemma {:induction false} SnocFacts(cs: seq<Entry>, e: Entry, q: string, d: string)
    ensures DocsOf(cs + [e], q) == DocsOf(cs, q) + (if e.qid == q then [e.docid] else [])
    ensures ScoreSum(cs + [e], q, d) == ScoreSum(cs, q, d) + (if e.qid == q && e.docid == d then e.score else 0.0)
  {
    assert (cs + [e])[..|cs|] == cs;
  }

  lemma {:induction false} DocsOfAbsent(cs: seq<Entry>, q: string, d: string)
    ensures q !in Qids(cs) ==> DocsOf(cs, q) == []
    ensures d !in DocsOf(cs, q) ==> ScoreSum(cs, q, d) == 0.0
  {
    if cs != [] {
      var front := cs[..|cs| - 1];
      assert cs == front + [cs[|cs| - 1]];
      QidsSnoc(front, cs[|cs| - 1]);
      SnocFacts(front, cs[|cs| - 1], q, d);
      DocsOfAbsent(front, q, d);
    }
  }

  type DocScores = Dict<string, real>

  /** `qno_scores`: query id to document id to fused score, both levels in
      first-insertion order. */
  type ScoreTable = Dict<string, DocScores>

  /** The table and each of its score dictionaries are well formed. */
  predicate NestedValid(t: ScoreTable)
  {
    Valid(t) && forall q :: q in t.values ==> Valid(t.values[q])
  }

  /** `qno_scores.setdefault(qno, {}).setdefault(docno, 0)` followed by
      `qno_scores[qno][docno] += score`. */
  function AddScore(t: ScoreTable, e: Entry): (r: ScoreTable)
  {
    var docs := GetOr(t, e.qid, Empty());
    Put(t, e.qid, Put(docs, e.docid, GetOr(docs, e.docid, 0.0) + e.score))
  }

  function Accumulate(cs: seq<Entry>): (r: ScoreTable)
    ensures NestedValid(r)
  {
    if cs == [] then Empty()
    else
      var t := Accumulate(cs[..|cs| - 1]);
      AddScoreValid(t, cs[|cs| - 1]);
      AddScore(t, cs[|cs| - 1])
  }

  lemma {:induction false} AddScoreValid(t: ScoreTable, e: Entry)
    requires NestedValid(t)
    ensures NestedValid(AddScore(t, e))
  {
    var docs := GetOr(t, e.qid, Empty());
    var docs' := Put(docs, e.docid, GetOr(docs, e.docid, 0.0) + e.score);
    AddScoreShape(t, e, docs, docs');
    assert Valid(docs);
    PutValid(docs, e.docid, GetOr(docs, e.docid, 0.0) + e.score);
    PutValid(t, e.qid, docs');
    var t' := Put(t, e.qid, docs');
    forall q | q in t'.values ensures Valid(t'.values[q]) {
      if q != e.qid {
        assert t'.values[q] == t.values[q];
      }
    }
  }

  lemma {:induction false} AddScoreShape(t: ScoreTable, e: Entry, docs: DocScores, docs': DocScores)
    requires docs == GetOr(t, e.qid, Empty())
    requires docs' == Put(docs, e.docid, GetOr(docs, e.docid, 0.0) + e.score)
    ensures AddScore(t, e) == Put(t, e.qid, docs')
  {
  }

  lemma {:induction false} AccumulateSnoc(cs: seq<Entry>, e: Entry, cs': seq<Entry>)
    requires cs' == cs + [e]
    ensures Accumulate(cs') == AddScore(Accumulate(cs), e)
  {
    assert cs'[..|cs|] == cs;
  }

  /** The table `fuse` builds from parsed, weighted runs. */
  function Table(runs: seq<(Run, real)>): (r: ScoreTable)
    ensures NestedValid(r)
  {
    Accumulate(Contributions(runs))
  }

  /** `docs` holds the fused scores of query `q` in `cs`: the documents seen
      with `q`, in first-appearance order, each with the sum of its scores. */
  ghost predicate QueryTabulated(docs: DocScores, cs: seq<Entry>, q: string)
  {
    && Valid(docs)
    && docs.keys == Distinct(DocsOf(cs, q))
    && forall d :: d in docs.values ==> docs.values[d] == ScoreSum(cs, q, d)
  }

  /** `t` is the fused-score table of `cs`: its queries are those of `cs` in
      first-appearance order, each tabulated as above. */
  ghost predicate Tabulates(t: ScoreTable, cs: seq<Entry>)
  {
    && Valid(t)
    && t.keys == Distinct(Qids(cs))
    && forall q :: q in t.values ==> QueryTabulated(t.values[q], cs, q)
  }

  lemma {:induction false} QueryTabulatedOther(docs: DocScores, cs: seq<Entry>, e: Entry, q: string)
    requires q != e.qid && QueryTabulated(docs, cs, q)
    ensures QueryTabulated(docs, cs + [e], q)
  {
    SnocFacts(cs, e, q, e.docid);
    assert DocsOf(cs + [e], q) == DocsOf(cs, q);
    forall d | d in docs.values ensures docs.values[d] == ScoreSum(cs + [e], q, d) {
      SnocFacts(cs, e, q, d);
    }
  }

  lemma {:induction false} QueryTabulatedAdd(docs: DocScores, cs: seq<Entry>, e: Entry, current: real, docs': DocScores)
    requires QueryTabulated(docs, cs, e.qid)
    requires current == GetOr(docs, e.docid, 0.0)
    requires docs' == Put(docs, e.docid, current + e.score)
    ensures QueryTabulated(docs', cs + [e], e.qid)
  {
    QueryKeysPut(docs, cs, e, current + e.score);
    QueryScoresAdd(docs, cs, e, current, docs'.values);
    QueryTabulatedIntro(docs', cs + [e], e.qid);
  }

  lemma {:induction false} QueryKeysPut(docs: DocScores, cs: seq<Entry>, e: Entry, v: real)
    requires Valid(docs) && docs.keys == Distinct(DocsOf(cs, e.qid))
    ensures Valid(Put(docs, e.docid, v)) && Put(docs, e.docid, v).keys == Distinct(DocsOf(cs + [e], e.qid))
  {
    PutValid(docs, e.docid, v);
    QueryKeysAdd(docs, cs, e, Put(docs, e.docid, v).keys);
  }

  lemma {:induction false} QueryTabulatedIntro(docs: DocScores, cs: seq<Entry>, q: string)
    requires Valid(docs) && docs.keys == Distinct(DocsOf(cs, q))
    requires forall d :: d in docs.values ==> docs.values[d] == ScoreSum(cs, q, d)
    ensures QueryTabulated(docs, cs, q)
  {
  }

  lemma {:induction false} QueryKeysAdd(docs: DocScores, cs: seq<Entry>, e: Entry, keys: seq<string>)
    requires Valid(docs) && docs.keys == Distinct(DocsOf(cs, e.qid))
    requires keys == if e.docid in docs.keys then docs.keys else docs.keys + [e.docid]
    ensures keys == Distinct(DocsOf(cs + [e], e.qid))
  {
    SnocFacts(cs, e, e.qid, e.docid);
    DistinctSnoc(DocsOf(cs, e.qid), e.docid);
    DistinctMem(DocsOf(cs, e.qid), e.docid);
  }

  lemma {:induction false} QueryScoresAdd(docs: DocScores, cs: seq<Entry>, e: Entry, current: real, values: map<string, real>)
    requires QueryTabulated(docs, cs, e.qid)
    requires current == GetOr(docs, e.docid, 0.0)
    requires values == docs.values[e.docid := current + e.score]
    ensures forall d :: d in values ==> values[d] == ScoreSum(cs + [e], e.qid, d)
  {
    var q := e.qid;
    forall d | d in values ensures values[d] == ScoreSum(cs + [e], q, d) {
      SnocFacts(cs, e, q, d);
      if d == e.docid && d !in docs.values {
        Present(docs, d);
        DistinctMem(DocsOf(cs, q), d);
        DocsOfAbsent(cs, q, d);
      }
    }
  }

  lemma {:induction false} AddScoreTabulates(t: ScoreTable, cs: seq<Entry>, e: Entry)
    requires Tabulates(t, cs)
    ensures Tabulates(AddScore(t, e), cs + [e])
  {
    var docs := GetOr(t, e.qid, Empty());
    var current := GetOr(docs, e.docid, 0.0);
    var docs' := Put(docs, e.docid, current + e.score);
    AddScoreIs(t, e, docs, current);
    var t' := Put(t, e.qid, docs');
    TableKeysPut(t, cs, e, docs');
    assert e.qid in t.values ==> QueryTabulated(t.values[e.qid], cs, e.qid);
    AddScoreSameQuery(t, cs, e, docs, current, docs');
    AddScoreOtherQueries(t, cs, e, t', docs');
    TabulatesIntro(t', cs + [e], e.qid);
  }

  lemma {:induction false} AddScoreOtherQueries(t: ScoreTable, cs: seq<Entry>, e: Entry, t': ScoreTable, docs': DocScores)
    requires forall q :: q in t.values ==> QueryTabulated(t.values[q], cs, q)
    requires t'.values == t.values[e.qid := docs']
    ensures forall q :: q in t'.values && q != e.qid ==> QueryTabulated(t'.values[q], cs + [e], q)
  {
    forall q | q in t'.values && q != e.qid ensures QueryTabulated(t'.values[q], cs + [e], q) {
      assert t'.values[q] == t.values[q];
      QueryTabulatedOther(t.values[q], cs, e, q);
    }
  }

  lemma {:induction false} TabulatesIntro(t: ScoreTable, cs: seq<Entry>, q0: string)
    requires Valid(t) && t.keys == Distinct(Qids(cs))
    requires q0 in t.values ==> QueryTabulated(t.values[q0], cs, q0)
    requires forall q :: q in t.values && q != q0 ==> QueryTabulated(t.values[q], cs, q)
    ensures Tabulates(t, cs)
  {
  }

  lemma {:induction false} TableKeysPut(t: ScoreTable, cs: seq<Entry>, e: Entry, docs': DocScores)
    requires Valid(t) && t.keys == Distinct(Qids(cs))
    ensures Valid(Put(t, e.qid, docs')) && Put(t, e.qid, docs').keys == Distinct(Qids(cs + [e]))
  {
    PutValid(t, e.qid, docs');
    AddScoreKeys(t, cs, e, Put(t, e.qid, docs'));
  }

  lemma {:induction false} AddScoreKeys(t: ScoreTable, cs: seq<Entry>, e: Entry, t': ScoreTable)
    requires Valid(t) && t.keys == Distinct(Qids(cs))
    requires t'.keys == if e.qid in t.keys then t.keys else t.keys + [e.qid]
    ensures t'.keys == Distinct(Qids(cs + [e]))
  {
    QidsSnoc(cs, e);
    DistinctSnoc(Qids(cs), e.qid);
    DistinctMem(Qids(cs), e.qid);
  }

  lemma {:induction false} AddScoreSameQuery(t: ScoreTable, cs: seq<Entry>, e: Entry, docs: DocScores, current: real, docs': DocScores)
    requires Valid(t) && t.keys == Distinct(Qids(cs))
    requires e.qid in t.values ==> QueryTabulated(t.values[e.qid], cs, e.qid)
    requires docs == GetOr(t, e.qid, Empty())
    requires current == GetOr(docs, e.docid, 0.0)
    requires docs' == Put(docs, e.docid, current + e.score)
    ensures QueryTabulated(docs', cs + [e], e.qid)
  {
    if e.qid !in t.values {
      Present(t, e.qid);
      DistinctMem(Qids(cs), e.qid);
      EmptyTabulated(cs, e.qid);
    }
    QueryTabulatedAdd(docs, cs, e, current, docs');
  }

  lemma {:induction false} EmptyTabulated(cs: seq<Entry>, q: string)
    requires q !in Qids(cs)
    ensures QueryTabulated(Empty(), cs, q)
  {
    DocsOfAbsent(cs, q, "");
  }

  /** The table `fuse` builds is the fused-score table of its input. */
  lemma {:induction false} AccumulateTabulates(cs: seq<Entry>)
    ensures Tabulates(Accumulate(cs), cs)
  {
    if cs != [] {
      var front := cs[..|cs| - 1];
      assert cs == front + [cs[|cs| - 1]];
      AccumulateTabulates(front);
      AddScoreTabulates(Accumulate(front), front, cs[|cs| - 1]);
    }
  }

  /** The score one run gives (q, d), before weighting: the sum over its
      lines for q and d. */
  function RunScore(run: Run, q: string, d: string): real
  {
    if run == [] then 0.0
    else RunScore(run[..|run| - 1], q, d) + (if run[|run| - 1].qid == q && run[|run| - 1].docid == d then run[|run| - 1].score else 0.0)
  }

  /** The sum over the runs of the run's weight times its score for (q, d). */
  function WeightedSum(runs: seq<(Run, real)>, q: string, d: string): real
  {
    if runs == [] then 0.0
    else WeightedSum(runs[..|runs| - 1], q, d) + runs[|runs| - 1].1 * RunScore(runs[|runs| - 1].0, q, d)
  }

  lemma {:induction false} ScoreSumAppend(a: seq<Entry>, b: seq<Entry>, q: string, d: string)
    ensures ScoreSum(a + b, q, d) == ScoreSum(a, q, d) + ScoreSum(b, q, d)
  {
    if b == [] {
      assert a + b == a;
    } else {
      var front := b[..|b| - 1];
      assert a + b == (a + front) + [b[|b| - 1]];
      SnocFacts(a + front, b[|b| - 1], q, d);
      SnocFacts(front, b[|b| - 1], q, d);
      assert b == front + [b[|b| - 1]];
      ScoreSumAppend(a, front, q, d);
    }
  }

  lemma {:induction false} WeighScore(run: Run, w: real, q: string, d: string)
    ensures ScoreSum(Weigh(run, w), q, d) == w * RunScore(run, q, d)
  {
    MatchesSum(Weigh(run, w), q, d);
    MatchesSum(run, q, d);
    RunScoreIsScoreSum(run, q, d);
    WeighMatches(run, w, q, d);
    SumScale(Matches(run, q, d), Matches(Weigh(run, w), q, d), w);
  }

  /** Weighting a run scales each line's contribution by the weight. */
  lemma {:induction false} WeighMatches(run: Run, w: real, q: string, d: string)
    ensures |Matches(Weigh(run, w), q, d)| == |Matches(run, q, d)|
    ensures forall i :: 0 <= i < |run| ==> Matches(Weigh(run, w), q, d)[i] == w * Matches(run, q, d)[i]
  {
    var xs, ys := Matches(run, q, d), Matches(Weigh(run, w), q, d);
    forall i | 0 <= i < |run| ensures ys[i] == w * xs[i] {
      MatchScaled(run[i], w, q, d);
    }
  }

  lemma {:induction false} MatchScaled(e: Entry, w: real, q: string, d: string)
    ensures Match(Scaled(e, w), q, d) == w * Match(e, q, d)
  {
    if !(e.qid == q && e.docid == d) {
      assert w * 0.0 == 0.0;
    }
  }

  /** What each line contributes to the score of (q, d). */
  function Match(e: Entry, q: string, d: string): real
  {
    if e.qid == q && e.docid == d then e.score else 0.0
  }

  function Matches(cs: seq<Entry>, q: string, d: string): (r: seq<real>)
    ensures |r| == |cs| && forall i :: 0 <= i < |cs| ==> r[i] == Match(cs[i], q, d)
  {
    seq(|cs|, i requires 0 <= i < |cs| => Match(cs[i], q, d))
  }

  /** The score of (q, d) is the sum of the lines' contributions. */
  lemma {:induction false} MatchesSum(cs: seq<Entry>, q: string, d: string)
    ensures ScoreSum(cs, q, d) == Sum(Matches(cs, q, d))
  {
    if cs != [] {
      var front := cs[..|cs| - 1];
      MatchesSum(front, q, d);
      assert Matches(cs, q, d)[..|cs| - 1] == Matches(front, q, d);
    }
  }

  /** A run's own score is the score its lines give. */
  lemma {:induction false} RunScoreIsScoreSum(run: Run, q: string, d: string)
    ensures RunScore(run, q, d) == ScoreSum(run, q, d)
  {
    if run != [] {
      RunScoreIsScoreSum(run[..|run| - 1], q, d);
    }
  }

  lemma {:induction false} ScoreSumSnoc(cs: seq<Entry>, e: Entry, q: string, d: string)
    ensures ScoreSum(cs + [e], q, d) == ScoreSum(cs, q, d) + (if e.qid == q && e.docid == d then e.score else 0.0)
  {
    assert (cs + [e])[..|cs|] == cs;
  }

  /** Linearity: the fused score of (q, d) is the sum over the runs of the
      run's weight times its score for (q, d). */
  lemma {:induction false} ScoreSumIsWeightedSum(runs: seq<(Run, real)>, q: string, d: string)
    ensures ScoreSum(Contributions(runs), q, d) == WeightedSum(runs, q, d)
  {
    if runs != [] {
      var front := runs[..|runs| - 1];
      var run := runs[|runs| - 1].0;
      var w := runs[|runs| - 1].1;
      var cs := Contributions(front);
      var ws := Weigh(run, w);
      assert Contributions(runs) == cs + ws;
      ScoreSumIsWeightedSum(front, q, d);
      ScoreSumAppend(cs, ws, q, d);
      WeighScore(run, w, q, d);
    }
  }

  /** A run with no line for (q, d) contributes nothing to it. */
  lemma {:induction false} RunScoreAbsent(run: Run, q: string, d: string)
    requires forall i :: 0 <= i < |run| ==> run[i].qid != q || run[i].docid != d
    ensures RunScore(run, q, d) == 0.0
  {
    if run != [] {
      RunScoreAbsent(run[..|run| - 1], q, d);
    }
  }

  // ---------------------------------------------------------------------
  // ranking and output

  /** `itemgetter(1)`: documents compare by fused score. */
  function ByScore(a: (string, real), b: (string, real)): bool
  {
    a.1 <= b.1
  }

  /** A query ready for output: `float(qno)`, the query id and its
      `(docno, score)` pairs sorted ascending by score. */
  datatype Block = Block(key: real, qid: string, docs: seq<(string, real)>)

  /** `key=lambda qs: float(qs[0])`. */
  function ByKey(a: Block, b: Block): bool
  {
    a.key <= b.key
  }

  function BlockQid(b: Block): string
  {
    b.qid
  }

  /** The list comprehension of `fuse` over the first `n` queries of the
      table, together with the `float(qno)` the sort computes for each: each
      query with its documents sorted by score, or the first query id that is
      not a number. */
  function KeyBlocks(t: ScoreTable, n: nat, toFloat: string -> Option<real>): (r: Result<seq<Block>, FuseError>)
    requires NestedValid(t) && n <= |t.keys|
    ensures r.Ok? <==> forall i :: 0 <= i < n ==> toFloat(t.keys[i]).Some?
    ensures r.Ok? ==> |r.value| == n && forall i :: 0 <= i < n ==> BlockAt(t, i, toFloat, r.value[i])
  {
    if n == 0 then Ok([])
    else
      var front := KeyBlocks(t, n - 1, toFloat);
      var q := t.keys[n - 1];
      Present(t, q);
      if front.Err? then front
      else
        match toFloat(q)
        case None => Err(QueryIdNotNumeric(q))
        case Some(x) => Ok(front.value + [QueryBlock(t, q, x)])
  }

  /** The entry of the list comprehension for query `q`, with its sort key
      `x`: its documents sorted by score. */
  function QueryBlock(t: ScoreTable, q: string, x: real): Block
    requires NestedValid(t) && q in t.values
  {
    Block(x, q, Sort(Items(t.values[q]), ByScore))
  }

  /** When the comprehension fails, it fails on the first query id, in
      table order, that is not a number. */
  lemma {:induction false} KeyBlocksFails(t: ScoreTable, n: nat, toFloat: string -> Option<real>)
    requires NestedValid(t) && n <= |t.keys| && KeyBlocks(t, n, toFloat).Err?
    ensures exists i :: (0 <= i < n && toFloat(t.keys[i]).None?
      && KeyBlocks(t, n, toFloat).error == QueryIdNotNumeric(t.keys[i])
      && forall j :: 0 <= j < i ==> toFloat(t.keys[j]).Some?)
  {
    var e := KeyBlocks(t, n, toFloat).error;
    if KeyBlocks(t, n - 1, toFloat).Err? {
      KeyBlocksFails(t, n - 1, toFloat);
      KeyBlocksStep(t, toFloat, n);
      var i :| 0 <= i < n - 1 && toFloat(t.keys[i]).None?
        && KeyBlocks(t, n - 1, toFloat).error == QueryIdNotNumeric(t.keys[i])
        && forall j :: 0 <= j < i ==> toFloat(t.keys[j]).Some?;
      assert e == QueryIdNotNumeric(t.keys[i]);
    } else {
      assert toFloat(t.keys[n - 1]).None? && e == QueryIdNotNumeric(t.keys[n - 1]);
      assert forall j :: 0 <= j < n - 1 ==> toFloat(t.keys[j]).Some?;
    }
  }

  /** `b` is the block of the `i`-th query of `t`. */
  predicate BlockAt(t: ScoreTable, i: nat, toFloat: string -> Option<real>, b: Block)
    requires NestedValid(t) && i < |t.keys|
  {
    Present(t, t.keys[i]);
    && toFloat(t.keys[i]).Some?
    && b == QueryBlock(t, t.keys[i], toFloat(t.keys[i]).value)
  }

  /** How many lines for query `q` precede the blocks after `bs`. */
  function Seen(bs: seq<Block>, q: string): nat
  {
    if bs == [] then 0
    else Seen(bs[..|bs| - 1], q) + (if bs[|bs| - 1].qid == q then |bs[|bs| - 1].docs| else 0)
  }

  /** One query's output lines, ranks counted on from `start`. */
  function RankedLines(q: string, docs: seq<(string, real)>, start: nat): (r: seq<RankedLine>)
    ensures |r| == |docs|
    ensures forall j :: 0 <= j < |docs| ==> r[j] == RankedLine(q, docs[j].0, start + j + 1, docs[j].1)
  {
    seq(|docs|, j requires 0 <= j < |docs| => RankedLine(q, docs[j].0, start + j + 1, docs[j].1))
  }

  /** The lines the last loop of `fuse` appends: `current_rank` counts on per
      query id across the whole output. */
  function Emit(bs: seq<Block>): seq<RankedLine>
  {
    if bs == [] then []
    else
      var b := bs[|bs| - 1];
      Emit(bs[..|bs| - 1]) + RankedLines(b.qid, b.docs, Seen(bs[..|bs| - 1], b.qid))
  }

  /** The queries of the parsed runs in output order: the list comprehension
      of `fuse` sorted by `float(qno)`, or the first query id that is not a
      number. */
  function Ranking(ps: seq<(Run, real)>, toFloat: string -> Option<real>): Result<seq<Block>, FuseError>
  {
    var t := Table(ps);
    var blocks := KeyBlocks(t, |t.keys|, toFloat);
    if blocks.Err? then Err(blocks.error) else Ok(Sort(blocks.value, ByKey))
  }

  /** What `fuse` writes for `run_weight_list`: the lines it formats, or the
      exception it raises. */
  function Fused(runs: seq<(seq<string>, real)>, toFloat: string -> Option<real>): Result<seq<RankedLine>, FuseError>
  {
    match ParseRuns(runs, toFloat)
    case Err(e) => Err(e)
    case Ok(ps) =>
      var ranking := Ranking(ps, toFloat);
      if ranking.Err? then Err(ranking.error) else Ok(Emit(ranking.value))
  }

  /** `current_rank[qno]` before a line of `qno` is written, given how many
      lines of `qno` came before. */
  function NextRank(seen: nat): Option<nat>
  {
    if seen == 0 then None else Some(seen + 1)
  }

  lemma {:induction false} WeighSnoc(run: Run, e: Entry, w: real)
    ensures Weigh(run + [e], w) == Weigh(run, w) + [Scaled(e, w)]
  {
    assert (run + [e])[..|run|] == run;
  }

  lemma {:induction false} ContributionsSnoc(ps: seq<(Run, real)>, p: (Run, real))
    ensures Contributions(ps + [p]) == Contributions(ps) + Weigh(p.0, p.1)
  {
    assert (ps + [p])[..|ps|] == ps;
  }

  /** The first loops of `fuse`, which fill `qno_scores`. */
  method ScoreRuns(runs: seq<(seq<string>, real)>, toFloat: string -> Option<real>) returns (r: Result<ScoreTable, FuseError>)
    ensures ParseRuns(runs, toFloat).Err? ==> r == Err(ParseRuns(runs, toFloat).error)
    ensures ParseRuns(runs, toFloat).Ok? ==> r == Ok(Table(ParseRuns(runs, toFloat).value))
  {
    var qnoScores: ScoreTable := Empty();
    for i := 0 to |runs|
      invariant ParseRuns(runs[..i], toFloat).Ok?
      invariant qnoScores == Table(ParseRuns(runs[..i], toFloat).value)
    {
      assert runs[..i + 1][..i] == runs[..i];
      ghost var done := ParseRuns(runs[..i], toFloat).value;
      var next := ScoreRun(qnoScores, runs[i].0, runs[i].1, toFloat, Contributions(done));
      if next.Err? {
        ParseRunsErr(runs, toFloat, i + 1);
        return Err(next.error);
      }
      ContributionsSnoc(done, (ParseRun(runs[i].0, toFloat).value, runs[i].1));
      qnoScores := next.value;
    }
    assert runs[..|runs|] == runs;
    r := Ok(qnoScores);
  }

  /** The inner loop of `fuse`: add the weighted lines of one run file to
      `qno_scores`, whose scores so far come from the entries `done`. */
  method ScoreRun(qnoScores: ScoreTable, lines: seq<string>, weight: real, toFloat: string -> Option<real>, ghost done: seq<Entry>)
    returns (r: Result<ScoreTable, FuseError>)
    requires qnoScores == Accumulate(done)
    ensures ParseRun(lines, toFloat).Err? ==> r == Err(ParseRun(lines, toFloat).error)
    ensures ParseRun(lines, toFloat).Ok? ==> r == Ok(Accumulate(done + Weigh(ParseRun(lines, toFloat).value, weight)))
  {
    var table := qnoScores;
    assert lines[..0] == [];
    assert done + Weigh([], weight) == done;
    for j := 0 to |lines|
      invariant ParseRun(lines[..j], toFloat).Ok?
      invariant table == Accumulate(done + Weigh(ParseRun(lines[..j], toFloat).value, weight))
    {
      var parsed := ParseRunLine(lines[j], toFloat);
      if parsed.Err? {
        ParseRunStepErr(lines, j, toFloat);
        ParseRunErr(lines, toFloat, j + 1);
        return Err(parsed.error);
      }
      ghost var prefix := ParseRun(lines[..j], toFloat).value;
      var e := Scaled(parsed.value, weight);
      var docScores := GetOr(table, e.qid, Empty());
      var current := GetOr(docScores, e.docid, 0.0);
      ghost var before := table;
      table := Put(table, e.qid, Put(docScores, e.docid, current + e.score));
      AddScoreIs(before, e, docScores, current);
      ScoreRunStep(done, prefix, parsed.value, weight, before);
      ParseRunStep(lines, j, toFloat);
    }
    assert lines[..|lines|] == lines;
    r := Ok(table);
  }

  lemma {:induction false} ParseRunStep(lines: seq<string>, j: nat, toFloat: string -> Option<real>)
    requires j < |lines| && ParseRun(lines[..j], toFloat).Ok? && ParseRunLine(lines[j], toFloat).Ok?
    ensures ParseRun(lines[..j + 1], toFloat) == Ok(ParseRun(lines[..j], toFloat).value + [ParseRunLine(lines[j], toFloat).value])
  {
    assert lines[..j + 1][..j] == lines[..j];
  }

  lemma {:induction false} ParseRunStepErr(lines: seq<string>, j: nat, toFloat: string -> Option<real>)
    requires j < |lines| && ParseRun(lines[..j], toFloat).Ok? && ParseRunLine(lines[j], toFloat).Err?
    ensures ParseRun(lines[..j + 1], toFloat) == Err(ParseRunLine(lines[j], toFloat).error)
  {
    assert lines[..j + 1][..j] == lines[..j];
  }

  lemma {:induction false} ScoreRunStep(done: seq<Entry>, prefix: Run, x: Entry, w: real, t: ScoreTable)
    requires t == Accumulate(done + Weigh(prefix, w))
    ensures AddScore(t, Scaled(x, w)) == Accumulate(done + Weigh(prefix + [x], w))
  {
    WeighStep(done, prefix, x, w);
    AccumulateSnoc(done + Weigh(prefix, w), Scaled(x, w), done + Weigh(prefix + [x], w));
  }

  lemma {:induction false} WeighStep(done: seq<Entry>, prefix: Run, x: Entry, w: real)
    ensures done + Weigh(prefix + [x], w) == (done + Weigh(prefix, w)) + [Scaled(x, w)]
  {
    WeighSnoc(prefix, x, w);
  }

  lemma {:induction false} AddScoreIs(t: ScoreTable, e: Entry, docs: DocScores, current: real)
    requires docs == GetOr(t, e.qid, Empty()) && current == GetOr(docs, e.docid, 0.0)
    ensures AddScore(t, e) == Put(t, e.qid, Put(docs, e.docid, current + e.score))
  {
  }

  /** The last loop of `fuse`: number each query's lines with `current_rank`. */
  method WriteRanked(ranked: seq<Block>) returns (lines: seq<RankedLine>)
    ensures lines == Emit(ranked)
  {
    var currentRank: Dict<string, nat> := Empty();
    lines := [];
    for i := 0 to |ranked|
      invariant lines == Emit(ranked[..i])
      invariant forall q :: Get(currentRank, q) == NextRank(Seen(ranked[..i], q))
    {
      var b := ranked[i];
      EmitSnoc(ranked, i);
      currentRank, lines := WriteBlock(currentRank, lines, b, Seen(ranked[..i], b.qid));
    }
    assert ranked[..|ranked|] == ranked;
  }

  lemma {:induction false} EmitSnoc(bs: seq<Block>, i: nat)
    requires i < |bs|
    ensures Emit(bs[..i + 1]) == Emit(bs[..i]) + RankedLines(bs[i].qid, bs[i].docs, Seen(bs[..i], bs[i].qid))
    ensures forall q :: Seen(bs[..i + 1], q) == Seen(bs[..i], q) + (if q == bs[i].qid then |bs[i].docs| else 0)
  {
    assert bs[..i + 1][..i] == bs[..i];
  }

  /** The inner loop of the last loop of `fuse`: the lines of one query,
      numbered on from the rank `current_rank` holds for it. */
  method WriteBlock(currentRank: Dict<string, nat>, lines: seq<RankedLine>, b: Block, ghost seen: nat)
    returns (rank': Dict<string, nat>, lines': seq<RankedLine>)
    requires Get(currentRank, b.qid) == NextRank(seen)
    ensures lines' == lines + RankedLines(b.qid, b.docs, seen)
    ensures Get(rank', b.qid) == NextRank(seen + |b.docs|)
    ensures forall q :: q != b.qid ==> Get(rank', q) == Get(currentRank, q)
  {
    rank', lines' := currentRank, lines;
    for j := 0 to |b.docs|
      invariant lines' == lines + RankedLines(b.qid, b.docs[..j], seen)
      invariant Get(rank', b.qid) == NextRank(seen + j)
      invariant forall q :: q != b.qid ==> Get(rank', q) == Get(currentRank, q)
    {
      if b.qid !in rank'.values {
        rank' := Put(rank', b.qid, 1);
      }
      var rank := GetOr(rank', b.qid, 1);
      lines' := lines' + [RankedLine(b.qid, b.docs[j].0, rank, b.docs[j].1)];
      rank' := Put(rank', b.qid, rank + 1);
      assert RankedLines(b.qid, b.docs[..j + 1], seen) == RankedLines(b.qid, b.docs[..j], seen) + [RankedLine(b.qid, b.docs[j].0, seen + j + 1, b.docs[j].1)];
    }
    assert b.docs[..|b.docs|] == b.docs;
  }

  /** `fuse(run_weight_list, output_fd)`: the lines it writes, or the
      exception it raises before writing anything. */
  method Fuse(runs: seq<(seq<string>, real)>, toFloat: string -> Option<real>) returns (r: Result<seq<RankedLine>, FuseError>)
    ensures r == Fused(runs, toFloat)
  {
    var scored := ScoreRuns(runs, toFloat);
    if scored.Err? {
      return Err(scored.error);
    }
    var qnoScores := scored.value;
    var blocks: seq<Block> := [];
    for i := 0 to |qnoScores.keys|
      invariant KeyBlocks(qnoScores, i, toFloat) == Ok(blocks)
    {
      var qno := qnoScores.keys[i];
      Present(qnoScores, qno);
      var docScores := qnoScores.values[qno];
      match toFloat(qno)
      case None =>
        KeyBlocksErr(qnoScores, toFloat, i + 1, |qnoScores.keys|);
        return Err(QueryIdNotNumeric(qno));
      case Some(x) =>
        blocks := blocks + [Block(x, qno, Sort(Items(docScores), ByScore))];
    }
    var ranked := Sort(blocks, ByKey);
    var lines := WriteRanked(ranked);
    r := Ok(lines);
  }

  lemma {:induction false} KeyBlocksErr(t: ScoreTable, toFloat: string -> Option<real>, n: nat, m: nat)
    requires NestedValid(t) && n <= m <= |t.keys| && KeyBlocks(t, n, toFloat).Err?
    ensures KeyBlocks(t, m, toFloat) == KeyBlocks(t, n, toFloat)
  {
    if n < m {
      KeyBlocksErr(t, toFloat, n, m - 1);
      KeyBlocksStep(t, toFloat, m);
    } else {
      assert m == n;
    }
  }

  lemma {:induction false} KeyBlocksStep(t: ScoreTable, toFloat: string -> Option<real>, m: nat)
    requires NestedValid(t) && 0 < m <= |t.keys| && KeyBlocks(t, m - 1, toFloat).Err?
    ensures KeyBlocks(t, m, toFloat) == KeyBlocks(t, m - 1, toFloat)
  {
  }

  // ---------------------------------------------------------------------
  // what the fused output is

  /** The documents of query `q` with their fused scores, in the order the
      table first saw them: `qno_scores[q].items()`. */
  function Inserted(cs: seq<Entry>, q: string): seq<(string, real)>
  {
    var ds := Distinct(DocsOf(cs, q));
    seq(|ds|, k requires 0 <= k < |ds| => (ds[k], ScoreSum(cs, q, ds[k])))
  }

  function DocId(p: (string, real)): string
  {
    p.0
  }

  /** The score dictionary the table holds for a query lists the query's
      documents in first-insertion order with their fused scores. */
  lemma {:induction false} ItemsInserted(t: ScoreTable, cs: seq<Entry>, q: string)
    requires Tabulates(t, cs) && q in t.values
    ensures Items(t.values[q]) == Inserted(cs, q)
  {
    var docs := t.values[q];
    assert QueryTabulated(docs, cs, q);
    forall k | 0 <= k < |docs.keys| ensures Items(docs)[k] == Inserted(cs, q)[k] {
      Present(docs, docs.keys[k]);
    }
  }

  lemma {:induction false} DocsOfMem(cs: seq<Entry>, q: string, d: string)
    ensures d in DocsOf(cs, q) <==> exists k :: 0 <= k < |cs| && cs[k].qid == q && cs[k].docid == d
  {
    if cs != [] {
      var front := cs[..|cs| - 1];
      DocsOfMem(front, q, d);
      assert forall k :: 0 <= k < |front| ==> front[k] == cs[k];
    }
  }

  /** Some line of some run is for query `q` and document `d`. */
  ghost predicate Appears(ps: seq<(Run, real)>, q: string, d: string)
  {
    exists i, j :: 0 <= i < |ps| && 0 <= j < |ps[i].0| && ps[i].0[j].qid == q && ps[i].0[j].docid == d
  }

  /** Some line of some run is for query `q`. */
  ghost predicate QueryAppears(ps: seq<(Run, real)>, q: string)
  {
    exists i, j :: 0 <= i < |ps| && 0 <= j < |ps[i].0| && ps[i].0[j].qid == q
  }

  /** Each line of each run makes an entry of the contributions. */
  lemma {:induction false} ContributionsOf(ps: seq<(Run, real)>, i: nat, j: nat)
    requires i < |ps| && j < |ps[i].0|
    ensures exists k :: (0 <= k < |Contributions(ps)| && Contributions(ps)[k].qid == ps[i].0[j].qid
      && Contributions(ps)[k].docid == ps[i].0[j].docid)
  {
    var front := ps[..|ps| - 1];
    var cs := Contributions(front);
    var ws := Weigh(ps[|ps| - 1].0, ps[|ps| - 1].1);
    assert Contributions(ps) == cs + ws;
    if i == |ps| - 1 {
      assert (cs + ws)[|cs| + j] == ws[j];
    } else {
      assert front[i] == ps[i];
      ContributionsOf(front, i, j);
      var k :| 0 <= k < |cs| && cs[k].qid == ps[i].0[j].qid && cs[k].docid == ps[i].0[j].docid;
      assert (cs + ws)[k] == cs[k];
    }
  }

  /** Each entry of the contributions comes from a line of a run. */
  lemma {:induction false} ContributionsTo(ps: seq<(Run, real)>, k: nat)
    requires k < |Contributions(ps)|
    ensures exists i, j :: (0 <= i < |ps| && 0 <= j < |ps[i].0| && ps[i].0[j].qid == Contributions(ps)[k].qid
      && ps[i].0[j].docid == Contributions(ps)[k].docid)
  {
    var front := ps[..|ps| - 1];
    var cs := Contributions(front);
    var ws := Weigh(ps[|ps| - 1].0, ps[|ps| - 1].1);
    assert Contributions(ps) == cs + ws;
    if k >= |cs| {
      assert (cs + ws)[k] == ws[k - |cs|];
      assert ps[|ps| - 1].0[k - |cs|].qid == (cs + ws)[k].qid;
    } else {
      assert (cs + ws)[k] == cs[k];
      ContributionsTo(front, k);
      var i, j :| 0 <= i < |front| && 0 <= j < |front[i].0| && front[i].0[j].qid == cs[k].qid && front[i].0[j].docid == cs[k].docid;
      assert front[i] == ps[i];
    }
  }

  lemma {:induction false} ContributionsFrom(ps: seq<(Run, real)>, q: string, d: string)
    ensures (exists k :: 0 <= k < |Contributions(ps)| && Contributions(ps)[k].qid == q && Contributions(ps)[k].docid == d)
      <==> Appears(ps, q, d)
  {
    if Appears(ps, q, d) {
      var i, j :| 0 <= i < |ps| && 0 <= j < |ps[i].0| && ps[i].0[j].qid == q && ps[i].0[j].docid == d;
      ContributionsOf(ps, i, j);
    }
    if exists k :: 0 <= k < |Contributions(ps)| && Contributions(ps)[k].qid == q && Contributions(ps)[k].docid == d {
      var k :| 0 <= k < |Contributions(ps)| && Contributions(ps)[k].qid == q && Contributions(ps)[k].docid == d;
      ContributionsTo(ps, k);
    }
  }

  lemma {:induction false} QueryFrom(ps: seq<(Run, real)>, q: string)
    ensures q in Qids(Contributions(ps)) <==> QueryAppears(ps, q)
  {
    var cs := Contributions(ps);
    if QueryAppears(ps, q) {
      var i, j :| 0 <= i < |ps| && 0 <= j < |ps[i].0| && ps[i].0[j].qid == q;
      ContributionsOf(ps, i, j);
    }
    if q in Qids(cs) {
      var k :| 0 <= k < |cs| && Qids(cs)[k] == q;
      ContributionsTo(ps, k);
    }
  }

  /** The documents fused for a query are exactly those some run lists for
      it, each once, and each carries the sum over the runs of weight times
      score; a document a run does not list gets nothing from that run. */
  lemma {:induction false} InsertedSpec(ps: seq<(Run, real)>, q: string)
    ensures DistinctBy(Inserted(Contributions(ps), q), DocId)
    ensures forall k :: 0 <= k < |Inserted(Contributions(ps), q)| ==>
      Inserted(Contributions(ps), q)[k].1 == WeightedSum(ps, q, Inserted(Contributions(ps), q)[k].0)
    ensures forall d :: Lists(Inserted(Contributions(ps), q), d) <==> Appears(ps, q, d)
  {
    var cs := Contributions(ps);
    var ins := Inserted(cs, q);
    InsertedDistinct(cs, q);
    forall k | 0 <= k < |ins| ensures ins[k].1 == WeightedSum(ps, q, ins[k].0) {
      ScoreSumIsWeightedSum(ps, q, ins[k].0);
    }
    forall d ensures Lists(ins, d) <==> Appears(ps, q, d) {
      InsertedHas(ps, q, d);
    }
  }

  lemma {:induction false} InsertedDistinct(cs: seq<Entry>, q: string)
    ensures DistinctBy(Inserted(cs, q), DocId)
  {
    var ds := Distinct(DocsOf(cs, q));
    var ins := Inserted(cs, q);
    forall i, j | 0 <= i < j < |ins| ensures DocId(ins[i]) != DocId(ins[j]) {
      assert DocId(ins[i]) == ds[i] && DocId(ins[j]) == ds[j];
    }
  }

  /** Some pair of `ins` is for document `d`. */
  predicate Lists(ins: seq<(string, real)>, d: string)
  {
    exists k :: 0 <= k < |ins| && ins[k].0 == d
  }

  lemma {:induction false} InsertedHas(ps: seq<(Run, real)>, q: string, d: string)
    ensures Lists(Inserted(Contributions(ps), q), d) <==> Appears(ps, q, d)
  {
    var cs := Contributions(ps);
    var ins := Inserted(cs, q);
    var ds := Distinct(DocsOf(cs, q));
    DistinctMem(DocsOf(cs, q), d);
    DocsOfMem(cs, q, d);
    ContributionsFrom(ps, q, d);
    assert d in ds <==> Appears(ps, q, d);
    if d in ds {
      var k :| 0 <= k < |ds| && ds[k] == d;
      assert ins[k].0 == d;
    }
    if exists k :: 0 <= k < |ins| && ins[k].0 == d {
      var k :| 0 <= k < |ins| && ins[k].0 == d;
      assert ds[k] == d;
    }
  }

  lemma {:induction false} ByScoreTotal()
    ensures TotalPreorder(ByScore)
  {
  }

  lemma {:induction false} ByKeyTotal()
    ensures TotalPreorder(ByKey)
  {
  }

  /** Each query's documents are the stable sort of its first-insertion list
      by fused score: a permutation of it, in non-decreasing score order,
      with documents of equal score in the order the table first saw them. */
  lemma {:induction false} RankedDocs(cs: seq<Entry>, q: string)
    ensures multiset(Sort(Inserted(cs, q), ByScore)) == multiset(Inserted(cs, q))
    ensures forall i, j :: 0 <= i < j < |Sort(Inserted(cs, q), ByScore)| ==>
      Sort(Inserted(cs, q), ByScore)[i].1 <= Sort(Inserted(cs, q), ByScore)[j].1
    ensures forall x :: Ties(Sort(Inserted(cs, q), ByScore), ByScore, x) == Ties(Inserted(cs, q), ByScore, x)
  {
    ByScoreTotal();
    SortSorted(Inserted(cs, q), ByScore);
    forall x ensures Ties(Sort(Inserted(cs, q), ByScore), ByScore, x) == Ties(Inserted(cs, q), ByScore, x) {
      SortStable(Inserted(cs, q), ByScore, x);
    }
  }

  function BlockKeyQid(b: Block): (real, string)
  {
    (b.key, b.qid)
  }

  /** The blocks before sorting: the table's queries in first-insertion
      order, each once. */
  lemma {:induction false} KeyBlocksFacts(ps: seq<(Run, real)>, toFloat: string -> Option<real>)
    requires KeyBlocks(Table(ps), |Table(ps).keys|, toFloat).Ok?
    ensures DistinctBy(KeyBlocks(Table(ps), |Table(ps).keys|, toFloat).value, BlockQid)
    ensures forall j :: 0 <= j < |Table(ps).keys| ==> KeyBlocks(Table(ps), |Table(ps).keys|, toFloat).value[j].qid == Table(ps).keys[j]
  {
    var t := Table(ps);
    var kb := KeyBlocks(t, |t.keys|, toFloat).value;
    forall j | 0 <= j < |kb| ensures kb[j].qid == t.keys[j] {
      assert BlockAt(t, j, toFloat, kb[j]);
    }
  }

  /** A block of the ranking is the block of one of the table's queries. */
  lemma {:induction false} RankedBlock(ps: seq<(Run, real)>, toFloat: string -> Option<real>, b: Block)
    requires KeyBlocks(Table(ps), |Table(ps).keys|, toFloat).Ok?
    requires b in multiset(KeyBlocks(Table(ps), |Table(ps).keys|, toFloat).value)
    ensures toFloat(b.qid) == Some(b.key) && b.docs == Sort(Inserted(Contributions(ps), b.qid), ByScore)
  {
    var t := Table(ps);
    var kb := KeyBlocks(t, |t.keys|, toFloat).value;
    var j :| 0 <= j < |kb| && kb[j] == b;
    assert BlockAt(t, j, toFloat, kb[j]);
    Present(t, t.keys[j]);
    AccumulateTabulates(Contributions(ps));
    ItemsInserted(t, Contributions(ps), t.keys[j]);
  }

  /** Queries are emitted in non-decreasing order of `float(qno)`. */
  lemma {:induction false} RankingOrdered(ps: seq<(Run, real)>, toFloat: string -> Option<real>)
    requires Ranking(ps, toFloat).Ok?
    ensures forall i, j :: 0 <= i < j < |Ranking(ps, toFloat).value| ==>
      Ranking(ps, toFloat).value[i].key <= Ranking(ps, toFloat).value[j].key
  {
    ByKeyTotal();
    SortSorted(KeyBlocks(Table(ps), |Table(ps).keys|, toFloat).value, ByKey);
  }

  /** The table's queries are those some run lists. */
  lemma {:induction false} TableQueries(ps: seq<(Run, real)>, q: string)
    ensures q in Table(ps).keys <==> QueryAppears(ps, q)
  {
    AccumulateTabulates(Contributions(ps));
    DistinctMem(Qids(Contributions(ps)), q);
    QueryFrom(ps, q);
  }

  /** Exactly the queries some run lists are emitted, each once. */
  lemma {:induction false} RankingQueries(ps: seq<(Run, real)>, toFloat: string -> Option<real>)
    requires Ranking(ps, toFloat).Ok?
    ensures DistinctBy(Ranking(ps, toFloat).value, BlockQid)
    ensures forall q :: HasBlock(Ranking(ps, toFloat).value, q) <==> QueryAppears(ps, q)
  {
    var t := Table(ps);
    var kb := KeyBlocks(t, |t.keys|, toFloat).value;
    var bs := Ranking(ps, toFloat).value;
    KeyBlocksFacts(ps, toFloat);
    PermutationDistinctBy(kb, bs, BlockQid);
    PermutedQids(kb, bs, t.keys);
    forall q ensures HasBlock(bs, q) <==> QueryAppears(ps, q) {
      TableQueries(ps, q);
    }
  }

  /** Some block of `bs` is for query `q`. */
  predicate HasBlock(bs: seq<Block>, q: string)
  {
    exists i :: 0 <= i < |bs| && bs[i].qid == q
  }

  lemma {:induction false} PermutedQids(kb: seq<Block>, bs: seq<Block>, keys: seq<string>)
    requires multiset(kb) == multiset(bs) && |kb| == |keys|
    requires forall j :: 0 <= j < |keys| ==> kb[j].qid == keys[j]
    ensures forall q :: HasBlock(bs, q) <==> q in keys
  {
    forall q ensures HasBlock(bs, q) <==> q in keys {
      if q in keys {
        var j :| 0 <= j < |keys| && keys[j] == q;
        assert kb[j] in multiset(bs);
        var i :| 0 <= i < |bs| && bs[i] == kb[j];
        assert bs[i].qid == q;
      }
      if HasBlock(bs, q) {
        var i :| 0 <= i < |bs| && bs[i].qid == q;
        assert bs[i] in multiset(kb);
        var j :| 0 <= j < |kb| && kb[j] == bs[i];
        assert keys[j] == q;
      }
    }
  }

  /** Each emitted query carries its `float(qno)` and its documents sorted by
      fused score. */
  lemma {:induction false} RankingDocs(ps: seq<(Run, real)>, toFloat: string -> Option<real>)
    requires Ranking(ps, toFloat).Ok?
    ensures forall i :: 0 <= i < |Ranking(ps, toFloat).value| ==>
      toFloat(Ranking(ps, toFloat).value[i].qid) == Some(Ranking(ps, toFloat).value[i].key)
      && Ranking(ps, toFloat).value[i].docs == Sort(Inserted(Contributions(ps), Ranking(ps, toFloat).value[i].qid), ByScore)
  {
    var bs := Ranking(ps, toFloat).value;
    forall i | 0 <= i < |bs|
      ensures toFloat(bs[i].qid) == Some(bs[i].key) && bs[i].docs == Sort(Inserted(Contributions(ps), bs[i].qid), ByScore)
    {
      assert bs[i] in multiset(bs);
      RankedBlock(ps, toFloat, bs[i]);
    }
  }

  /** With every query in its own block, the ranks restart at 1 for each
      query: the output is each block's lines ranked 1, 2, ... in block
      order. */
  lemma {:induction false} EmitDistinct(bs: seq<Block>)
    requires DistinctBy(bs, BlockQid)
    ensures Emit(bs) == Flatten(seq(|bs|, i requires 0 <= i < |bs| => RankedLines(bs[i].qid, bs[i].docs, 0)))
  {
    if bs != [] {
      var front := bs[..|bs| - 1];
      var b := bs[|bs| - 1];
      assert DistinctBy(front, BlockQid);
      EmitDistinct(front);
      SeenAbsent(front, b.qid);
      var all := seq(|bs|, i requires 0 <= i < |bs| => RankedLines(bs[i].qid, bs[i].docs, 0));
      assert all[..|all| - 1] == seq(|front|, i requires 0 <= i < |front| => RankedLines(front[i].qid, front[i].docs, 0));
    }
  }

  lemma {:induction false} SeenAbsent(bs: seq<Block>, q: string)
    requires forall i :: 0 <= i < |bs| ==> bs[i].qid != q
    ensures Seen(bs, q) == 0
  {
    if bs != [] {
      SeenAbsent(bs[..|bs| - 1], q);
    }
  }

  /** What `fuse` writes when it succeeds: the ranked queries one after the
      other, each query's documents ranked 1..m in the order of its block. */
  lemma {:induction false} FusedLines(runs: seq<(seq<string>, real)>, toFloat: string -> Option<real>)
    requires Fused(runs, toFloat).Ok?
    ensures ParseRuns(runs, toFloat).Ok? && Ranking(ParseRuns(runs, toFloat).value, toFloat).Ok?
    ensures var bs := Ranking(ParseRuns(runs, toFloat).value, toFloat).value;
      Fused(runs, toFloat).value == Flatten(seq(|bs|, i requires 0 <= i < |bs| => RankedLines(bs[i].qid, bs[i].docs, 0)))
  {
    var ps := ParseRuns(runs, toFloat).value;
    RankingQueries(ps, toFloat);
    EmitDistinct(Ranking(ps, toFloat).value);
  }
}
