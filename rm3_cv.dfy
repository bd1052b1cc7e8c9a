/** Cross-validated parameter selection (rm3_cv.py): the parsers of the
    `--cv-params` option, the enumeration of the parameter grid, the query
    ordering, the contiguous k-fold split and the per-fold selection of the
    setting with the best training mean. */
module Rm3Cv {
  import opened Wrappers
  import opened Seqs
  import opened Text
  import opened Sorting
  import opened Assoc

  // ---------------------------------------------------------------------
  // option parsers

  datatype ParamError = FieldWithoutValues(part: string)

  /** `split_and_convert(l, convert)`: each comma-separated item converted. */
  function SplitAndConvert<T>(l: string, convert: string -> T): (r: seq<T>)
  {
    var parts := Split(l, ',');
    seq(|parts|, i requires 0 <= i < |parts| => convert(parts[i]))
  }

  /** The items of a comma-joined list come back converted, one per item, in
      order. */
  lemma {:induction false} SplitAndConvertJoin<T>(items: seq<string>, convert: string -> T)
    requires |items| >= 1 && forall i :: 0 <= i < |items| ==> ',' !in items[i]
    ensures |SplitAndConvert(Join(items, ','), convert)| == |items|
    ensures forall i :: 0 <= i < |items| ==> SplitAndConvert(Join(items, ','), convert)[i] == convert(items[i])
  {
    SplitJoin(items, ',');
  }

  /** One `field:v1|v2|...` item of `--cv-params`; Python's unpacking into
      `field, values` fails unless the item holds exactly one ':'. */
  function ParseField(part: string): (r: Result<(string, seq<string>), ParamError>)
    ensures r.Ok? <==> |Split(part, ':')| == 2
    ensures r.Ok? ==> r.value == (Split(part, ':')[0], Split(Split(part, ':')[1], '|'))
  {
    var fv := Split(part, ':');
    if |fv| != 2 then Err(FieldWithoutValues(part)) else Ok((fv[0], Split(fv[1], '|')))
  }

  function ParseFields(parts: seq<string>): (r: Result<seq<(string, seq<string>)>, ParamError>)
    ensures r.Ok? <==> forall i :: 0 <= i < |parts| ==> ParseField(parts[i]).Ok?
    ensures r.Ok? ==> |r.value| == |parts| && forall i :: 0 <= i < |parts| ==> r.value[i] == ParseField(parts[i]).value
  {
    if parts == [] then Ok([])
    else
      match ParseField(parts[0])
      case Err(e) => Err(e)
      case Ok(f) =>
        var rest := ParseFields(parts[1..]);
        if rest.Err? then rest else Ok([f] + rest.value)
  }

  /** `parse_cv_params(s)`: `"f:a|b,g:c"` gives `[(f, [a, b]), (g, [c])]`. */
  function ParseCvParams(s: string): Result<seq<(string, seq<string>)>, ParamError>
  {
    ParseFields(Split(s, ','))
  }

  /** The text `parse_cv_params` reads for a list of fields and values. */
  function RenderField(f: (string, seq<string>)): string
    requires |f.1| >= 1
  {
    f.0 + [':'] + Join(f.1, '|')
  }

  function RenderCvParams(params: seq<(string, seq<string>)>): string
    requires |params| >= 1 && forall i :: 0 <= i < |params| ==> |params[i].1| >= 1
  {
    Join(seq(|params|, i requires 0 <= i < |params| => RenderField(params[i])), ',')
  }

  /** No field name or value holds a separator of the option's syntax. */
  predicate PlainParams(params: seq<(string, seq<string>)>)
  {
    forall i :: 0 <= i < |params| ==>
      && |params[i].1| >= 1
      && ',' !in params[i].0 && ':' !in params[i].0 && '|' !in params[i].0
      && forall j :: 0 <= j < |params[i].1| ==> ',' !in params[i].1[j] && ':' !in params[i].1[j] && '|' !in params[i].1[j]
  }

  lemma {:induction false} JoinAvoids(parts: seq<string>, sep: char, c: char)
    requires |parts| >= 1 && c != sep && forall i :: 0 <= i < |parts| ==> c !in parts[i]
    ensures c !in Join(parts, sep)
    decreases |parts|
  {
    if |parts| > 1 {
      JoinAvoids(parts[1..], sep, c);
    }
  }

  lemma {:induction false} RenderFieldParses(f: (string, seq<string>))
    requires |f.1| >= 1 && PlainParams([f])
    ensures ',' !in RenderField(f)
    ensures ParseField(RenderField(f)) == Ok(f)
  {
    assert [f][0] == f;
    JoinAvoids(f.1, '|', ',');
    JoinAvoids(f.1, '|', ':');
    var rest := Join(f.1, '|');
    assert Join([f.0, rest], ':') == RenderField(f) by {
      assert [f.0, rest][1..] == [rest];
    }
    SplitJoin([f.0, rest], ':');
    SplitJoin(f.1, '|');
  }

  /** Round trip: the rendered option parses back to the same fields and
      values, in the same order. */
  lemma {:induction false} ParseCvParamsRender(params: seq<(string, seq<string>)>)
    requires |params| >= 1 && PlainParams(params)
    ensures ParseCvParams(RenderCvParams(params)) == Ok(params)
  {
    var parts := seq(|params|, i requires 0 <= i < |params| => RenderField(params[i]));
    forall i | 0 <= i < |params| ensures ',' !in parts[i] && ParseField(parts[i]) == Ok(params[i]) {
      assert PlainParams([params[i]]);
      RenderFieldParses(params[i]);
    }
    SplitJoin(parts, ',');
    assert Split(RenderCvParams(params), ',') == parts;
    assert ParseFields(parts).value == params;
  }

  /** `'{:>4}'.format(v)`: `v` right-aligned in a field of width 4. */
  function PadLeft(v: string): (r: string)
    ensures |r| == if |v| < 4 then 4 else |v|
    ensures r[|r| - |v|..] == v
    ensures forall i :: 0 <= i < |r| - |v| ==> r[i] == ' '
  {
    if |v| < 4 then seq(4 - |v|, _ => ' ') + v else v
  }

  /** `', '.join(parts)`. */
  function JoinComma(parts: seq<string>): string
    decreases |parts|
  {
    if parts == [] then [] else if |parts| == 1 then parts[0] else parts[0] + ", " + JoinComma(parts[1..])
  }

  /** `param_to_str(params)`: the values, each right-aligned to width 4,
      separated by ", ". */
  function ParamToStr(params: seq<(string, string)>): string
  {
    JoinComma(seq(|params|, i requires 0 <= i < |params| => PadLeft(params[i].1)))
  }

  /** The values of `param_to_str` stand one after the other, separated by
      ", ", each right-aligned; with no field names in the output. */
  lemma {:induction false} ParamToStrCons(k: string, v: string, rest: seq<(string, string)>)
    ensures ParamToStr([(k, v)] + rest) == PadLeft(v) + (if rest == [] then "" else ", " + ParamToStr(rest))
  {
    var ps := [(k, v)] + rest;
    var parts := seq(|ps|, i requires 0 <= i < |ps| => PadLeft(ps[i].1));
    assert parts[1..] == seq(|rest|, i requires 0 <= i < |rest| => PadLeft(rest[i].1));
  }

  // ---------------------------------------------------------------------
  // load_all_evals: the grid of settings

  /** A setting: one value per field, in field order (the tuples of
      `itertools.product`). */
  type Setting = seq<string>

  /** The per-query measure of one setting, in the order of its file. */
  type QueryEvals = Dict<string, real>

  /** `all_evals`: setting to per-query measures, in insertion order. */
  type Grid = Dict<Setting, QueryEvals>

  function ConsEach<T>(xs: seq<T>, ss: seq<seq<T>>): seq<seq<T>>
  {
    if xs == [] then [] else Prepend(xs[0], ss) + ConsEach(xs[1..], ss)
  }

  /** `itertools.product(*vss)`: every choice of one value per list, the
      last list varying fastest. */
  function Product<T>(vss: seq<seq<T>>): seq<seq<T>>
    decreases |vss|
  {
    if vss == [] then [[]] else ConsEach(vss[0], Product(vss[1..]))
  }

  lemma {:induction false} ConsEachMem<T>(xs: seq<T>, ss: seq<seq<T>>, s: seq<T>)
    ensures s in ConsEach(xs, ss) <==> s != [] && s[0] in xs && s[1..] in ss
  {
    if xs != [] {
      ConsEachMem(xs[1..], ss, s);
      var c := Prepend(xs[0], ss);
      if s in c {
        var i :| 0 <= i < |c| && c[i] == s;
        assert s[1..] == ss[i];
      }
      if s != [] && s[0] == xs[0] && s[1..] in ss {
        var i :| 0 <= i < |ss| && ss[i] == s[1..];
        assert c[i] == s;
      }
    }
  }

  lemma {:induction false} ConsEachSize<T>(xs: seq<T>, ss: seq<seq<T>>)
    ensures |ConsEach(xs, ss)| == |xs| * |ss|
  {
    if xs != [] {
      ConsEachSize(xs[1..], ss);
    }
  }

  /** A setting is produced exactly when it picks one value from each list. */
  lemma {:induction false} ProductMem<T>(vss: seq<seq<T>>, s: seq<T>)
    ensures s in Product(vss) <==> |s| == |vss| && forall i :: 0 <= i < |s| ==> s[i] in vss[i]
    decreases |vss|
  {
    if vss != [] {
      ConsEachMem(vss[0], Product(vss[1..]), s);
      if s != [] {
        ProductMem(vss[1..], s[1..]);
        assert forall i :: 1 <= i < |s| ==> s[i] == s[1..][i - 1];
        assert forall i :: 1 <= i < |vss| ==> vss[i] == vss[1..][i - 1];
      }
    }
  }

  function SizeProduct<T>(vss: seq<seq<T>>): nat
  {
    if vss == [] then 1 else |vss[0]| * SizeProduct(vss[1..])
  }

  /** The grid has one setting per combination: the product of the list
      lengths. */
  lemma {:induction false} ProductSize<T>(vss: seq<seq<T>>)
    ensures |Product(vss)| == SizeProduct(vss)
    decreases |vss|
  {
    if vss != [] {
      ProductSize(vss[1..]);
      ConsEachSize(vss[0], Product(vss[1..]));
    }
  }

  /** `list(zip(param_names, setting))`. */
  function Zip(names: seq<string>, setting: Setting): (r: seq<(string, string)>)
    ensures |r| == if |names| < |setting| then |names| else |setting|
    ensures forall i :: 0 <= i < |r| ==> r[i] == (names[i], setting[i])
  {
    var n := if |names| < |setting| then |names| else |setting|;
    seq(n, i requires 0 <= i < n => (names[i], setting[i]))
  }

  /** The loop of `load_all_evals` over the settings: a setting whose file
      exists is loaded and stored under the setting; a missing one is
      skipped. `load(comb)` is the per-query table of the file that
      `eval_template` names for `comb`, or None when it does not exist. */
  function Loaded(names: seq<string>, settings: seq<Setting>, load: seq<(string, string)> -> Option<QueryEvals>): Grid
  {
    if settings == [] then Empty()
    else
      var g := Loaded(names, settings[..|settings| - 1], load);
      var s := settings[|settings| - 1];
      match load(Zip(names, s))
      case None => g
      case Some(pq) => Put(g, s, pq)
  }

  /** The settings whose file exists, in order. */
  function Available(names: seq<string>, settings: seq<Setting>, load: seq<(string, string)> -> Option<QueryEvals>): seq<Setting>
  {
    if settings == [] then []
    else
      Available(names, settings[..|settings| - 1], load)
      + (if load(Zip(names, settings[|settings| - 1])).Some? then [settings[|settings| - 1]] else [])
  }

  /** The grid holds exactly the settings whose file exists, in enumeration
      order, each with the table of its file; a missing file leaves no entry
      (not an empty or default one). */
  lemma {:induction false} LoadedSpec(names: seq<string>, settings: seq<Setting>, load: seq<(string, string)> -> Option<QueryEvals>)
    ensures Valid(Loaded(names, settings, load))
    ensures Loaded(names, settings, load).keys == Distinct(Available(names, settings, load))
    ensures forall s :: s in Loaded(names, settings, load).values <==> s in settings && load(Zip(names, s)).Some?
    ensures forall s :: s in Loaded(names, settings, load).values ==> Loaded(names, settings, load).values[s] == load(Zip(names, s)).value
  {
    if settings != [] {
      var front := settings[..|settings| - 1];
      var s := settings[|settings| - 1];
      var g := Loaded(names, front, load);
      LoadedSpec(names, front, load);
      assert settings == front + [s];
      if load(Zip(names, s)).Some? {
        PutValid(g, s, load(Zip(names, s)).value);
        Present(g, s);
        DistinctSnoc(Available(names, front, load), s);
        DistinctMem(Available(names, front, load), s);
        AvailableMem(names, front, load, s);
      } else {
        assert Available(names, settings, load) == Available(names, front, load);
      }
    }
  }

  lemma {:induction false} AvailableMem(names: seq<string>, settings: seq<Setting>, load: seq<(string, string)> -> Option<QueryEvals>, s: Setting)
    ensures s in Available(names, settings, load) <==> s in settings && load(Zip(names, s)).Some?
  {
    if settings != [] {
      var front := settings[..|settings| - 1];
      AvailableMem(names, front, load, s);
      assert settings == front + [settings[|settings| - 1]];
    }
  }

  /** The query ids of the grid's tables: `all_queries` before sorting. */
  ghost predicate InSomeTable(g: Grid, q: string)
  {
    exists s :: s in g.values && q in g.values[s].values
  }

  datatype CvError =
    | NoParams                               // `zip(*params)` of an empty list
    | TooFewFolds(n: int)                // KFold(n_splits < 2)
    | MoreFoldsThanQueries(folds: nat, queries: nat)
    | EmptyGrid                              // `max` of an empty sequence

  /** A query id sorts by `int(q)` when it parses; otherwise as 0 (only used
      when every id parses). */
  function IntKey(toInt: string -> Option<int>, q: string): int
  {
    if toInt(q).Some? then toInt(q).value else 0
  }

  /** `try: sorted(qs, key=int) except: sorted(qs)`: numeric order when every
      id is an integer, code-point order otherwise. */
  method SortQueryIds(qs: set<string>, toInt: string -> Option<int>) returns (r: seq<string>)
    ensures forall q :: q in r <==> q in qs
    ensures |r| == |qs| && NoDup(r)
    ensures (forall q :: q in qs ==> toInt(q).Some?) ==>
      forall i, j :: 0 <= i < j < |r| ==> toInt(r[i]).value <= toInt(r[j]).value
    ensures (exists q :: q in qs && toInt(q).None?) ==> StrictlyIncreasing(r)
  {
    var items := SetElements(qs);
    var numeric := true;
    for i := 0 to |items|
      invariant numeric <==> forall j :: 0 <= j < i ==> toInt(items[j]).Some?
    {
      if toInt(items[i]).None? {
        numeric := false;
      }
    }
    if numeric {
      r := SortByInt(items, toInt);
    } else {
      r := SortedStrings(qs);
    }
  }

  /** `sorted(qs, key=int)` when every id is an integer. */
  method SortByInt(items: seq<string>, toInt: string -> Option<int>) returns (r: seq<string>)
    requires NoDup(items)
    requires forall j :: 0 <= j < |items| ==> toInt(items[j]).Some?
    ensures forall q :: q in r <==> q in items
    ensures |r| == |items| && NoDup(r)
    ensures forall i, j :: 0 <= i < j < |r| ==> toInt(r[i]).Some? && toInt(r[j]).Some? && toInt(r[i]).value <= toInt(r[j]).value
  {
    var le := (a: string, b: string) => IntKey(toInt, a) <= IntKey(toInt, b);
    assert TotalPreorder(le);
    r := Sort(items, le);
    SortSorted(items, le);
    PermutationNoDup(items, r);
    forall q ensures q in r <==> q in items {
      assert q in r <==> q in multiset(r);
      assert q in items <==> q in multiset(items);
    }
    forall i, j | 0 <= i < j < |r| ensures toInt(r[i]).Some? && toInt(r[j]).Some? && toInt(r[i]).value <= toInt(r[j]).value {
      assert r[i] in items && r[j] in items;
      assert le(r[i], r[j]);
    }
  }

  /** Storing a table in the grid adds its query ids to the union; a
      setting stored again gets the same table. */
  lemma {:induction false} UnionAfterPut(g: Grid, s: Setting, pq: QueryEvals, qs: set<string>)
    requires forall q :: q in qs <==> InSomeTable(g, q)
    requires s in g.values ==> g.values[s] == pq
    ensures forall q :: q in qs + pq.values.Keys <==> InSomeTable(Put(g, s, pq), q)
  {
    var g' := Put(g, s, pq);
    forall q ensures q in qs + pq.values.Keys <==> InSomeTable(g', q) {
      if q in pq.values {
        assert s in g'.values && q in g'.values[s].values;
      }
      if InSomeTable(g', q) {
        var s' :| s' in g'.values && q in g'.values[s'].values;
        if s' != s {
          assert s' in g.values && q in g.values[s'].values;
        }
      }
      if q in qs {
        var s' :| s' in g.values && q in g.values[s'].values;
        assert s' in g'.values && q in g'.values[s'].values;
      }
    }
  }

  /** The loop of `load_all_evals` over the settings, collecting the grid
      and the union of the query ids of its tables. */
  method LoadGrid(names: seq<string>, settings: seq<Setting>, load: seq<(string, string)> -> Option<QueryEvals>)
    returns (result: Grid, allQueries: set<string>)
    ensures result == Loaded(names, settings, load)
    ensures forall q :: q in allQueries <==> InSomeTable(result, q)
  {
    result := Empty();
    allQueries := {};
    for i := 0 to |settings|
      invariant result == Loaded(names, settings[..i], load)
      invariant forall q :: q in allQueries <==> InSomeTable(result, q)
    {
      assert settings[..i + 1][..i] == settings[..i];
      LoadedSpec(names, settings[..i], load);
      match load(Zip(names, settings[i])) {
        case None =>
        case Some(perQuery) =>
          UnionAfterPut(result, settings[i], perQuery, allQueries);
          allQueries := allQueries + perQuery.values.Keys;
          result := Put(result, settings[i], perQuery);
      }
    }
    assert settings[..|settings|] == settings;
  }

  /** `load_all_evals(params, eval_template)`: the settings of the grid in
      product order with the table of each setting whose file exists, and
      the union of their query ids, sorted. The worker pool is replaced by
      loading in enumeration order. */
  method LoadAllEvals(params: seq<(string, seq<string>)>, load: seq<(string, string)> -> Option<QueryEvals>, toInt: string -> Option<int>)
    returns (r: Result<(Grid, seq<string>), CvError>)
    requires forall c :: load(c).Some? ==> Valid(load(c).value)
    ensures r.Err? <==> params == []
    ensures r.Ok? ==> GridValid(r.value.0)
    ensures r.Ok? ==>
      var names := seq(|params|, i requires 0 <= i < |params| => params[i].0);
      var settings := Product(seq(|params|, i requires 0 <= i < |params| => params[i].1));
      && r.value.0 == Loaded(names, settings, load)
      && (forall q :: q in r.value.1 <==> InSomeTable(r.value.0, q))
      && NoDup(r.value.1)
      && ((forall q :: q in r.value.1 ==> toInt(q).Some?) ==>
          forall i, j :: 0 <= i < j < |r.value.1| ==> toInt(r.value.1[i]).value <= toInt(r.value.1[j]).value)
      && ((exists q :: q in r.value.1 && toInt(q).None?) ==> StrictlyIncreasing(r.value.1))
  {
    if params == [] {
      return Err(NoParams);
    }
    var names := seq(|params|, i requires 0 <= i < |params| => params[i].0);
    var settings := Product(seq(|params|, i requires 0 <= i < |params| => params[i].1));
    var result, allQueries := LoadGrid(names, settings, load);
    LoadedSpec(names, settings, load);
    var queries := SortQueryIds(allQueries, toInt);
    r := Ok((result, queries));
  }

  // ---------------------------------------------------------------------
  // KFold(n_splits=k, shuffle=False)

  /** Size of test fold `i`: `n // k`, one more for the first `n % k` folds. */
  function FoldSize(n: nat, k: nat, i: nat): nat
    requires k >= 1
  {
    n / k + (if i < n % k then 1 else 0)
  }

  /** Where test fold `i` starts: the sizes of the folds before it. */
  function FoldStart(n: nat, k: nat, i: nat): nat
    requires k >= 1
  {
    if i == 0 then 0 else FoldStart(n, k, i - 1) + FoldSize(n, k, i - 1)
  }

  lemma {:induction false} FoldStartClosed(n: nat, k: nat, i: nat)
    requires k >= 1
    ensures FoldStart(n, k, i) == i * (n / k) + (if i < n % k then i else n % k)
  {
    if i > 0 {
      FoldStartClosed(n, k, i - 1);
      var q, r := n / k, n % k;
      assert FoldStart(n, k, i) == FoldStart(n, k, i - 1) + q + (if i - 1 < r then 1 else 0);
      assert (i - 1) * q + q == i * q;
    }
  }

  /** The folds tile `0..n`: fold 0 starts at 0, fold `k` (one past the last)
      at `n`, and each fold starts where the one before ends. */
  lemma {:induction false} FoldBounds(n: nat, k: nat, i: nat)
    requires k >= 1 && i <= k
    ensures FoldStart(n, k, 0) == 0 && FoldStart(n, k, k) == n
    ensures FoldStart(n, k, i) <= n
  {
    var q, r := n / k, n % k;
    assert k * q + r == n && r < k;
    FoldStartClosed(n, k, k);
    FoldStartClosed(n, k, i);
    MulMono(i, k, q);
  }

  lemma {:induction false} MulMono(a: nat, b: nat, c: nat)
    requires a <= b
    ensures a * c <= b * c
  {
  }

  lemma {:induction false} FoldStartMono(n: nat, k: nat, i: nat, j: nat)
    requires k >= 1 && i <= j
    ensures FoldStart(n, k, i) <= FoldStart(n, k, j)
    ensures i < j ==> FoldStart(n, k, i) + FoldSize(n, k, i) <= FoldStart(n, k, j)
    decreases j - i
  {
    if i < j {
      FoldStartMono(n, k, i + 1, j);
    }
  }

  /** `test_queries` of fold `i`. */
  function TestPart(qs: seq<string>, k: nat, i: nat): seq<string>
    requires 1 <= k && i < k
  {
    FoldBounds(|qs|, k, i + 1);
    qs[FoldStart(|qs|, k, i)..FoldStart(|qs|, k, i + 1)]
  }

  /** `train_queries` of fold `i`: every other query, in order. */
  function TrainPart(qs: seq<string>, k: nat, i: nat): seq<string>
    requires 1 <= k && i < k
  {
    FoldBounds(|qs|, k, i + 1);
    qs[..FoldStart(|qs|, k, i)] + qs[FoldStart(|qs|, k, i + 1)..]
  }

  /** The test folds tile `0..n` in order: fold 0 starts at 0, each fold
      starts where the one before ends, the last ends at `n`, and no fold is
      empty; fold sizes differ by at most one. */
  lemma {:induction false} KFoldTiles(n: nat, k: nat, i: nat, i': nat)
    requires 2 <= k <= n && i < k && i' < k
    ensures FoldStart(n, k, 0) == 0 && FoldStart(n, k, k) == n
    ensures FoldStart(n, k, i + 1) == FoldStart(n, k, i) + FoldSize(n, k, i)
    ensures 1 <= FoldSize(n, k, i) <= FoldSize(n, k, i') + 1
  {
    FoldBounds(n, k, k);
    DivAtLeastOne(n, k);
  }

  lemma {:induction false} DivAtLeastOne(n: nat, k: nat)
    requires 1 <= k <= n
    ensures n / k >= 1
  {
  }

  /** A fold's training queries and test queries together are all the
      queries: the training part is the complement of the test block. */
  lemma {:induction false} TrainTestSplit(qs: seq<string>, k: nat, i: nat)
    requires 2 <= k <= |qs| && i < k
    ensures multiset(TrainPart(qs, k, i)) + multiset(TestPart(qs, k, i)) == multiset(qs)
  {
    FoldBounds(|qs|, k, i + 1);
    FoldStartMono(|qs|, k, i, i + 1);
    SliceOutMultiset(qs, FoldStart(|qs|, k, i), FoldStart(|qs|, k, i + 1));
  }

  /** The fold whose test block holds position `j`. */
  lemma {:induction false} FoldOf(n: nat, k: nat, j: nat) returns (i: nat)
    requires 2 <= k <= n && j < n
    ensures i < k && FoldStart(n, k, i) <= j < FoldStart(n, k, i + 1)
  {
    FoldBounds(n, k, k);
    i := FindFold(n, k, j, 0);
  }

  /** The fold whose test queries hold the query at position `j`. */
  lemma {:induction false} FoldHolding(qs: seq<string>, k: nat, j: nat) returns (f: nat)
    requires 2 <= k <= |qs| && j < |qs|
    ensures f < k && qs[j] in TestPart(qs, k, f)
  {
    f := FoldOf(|qs|, k, j);
    FoldBounds(|qs|, k, f + 1);
    assert qs[j] == TestPart(qs, k, f)[j - FoldStart(|qs|, k, f)];
  }

  /** No position is in two test blocks: the test folds are pairwise
      disjoint. */
  lemma {:induction false} FoldUnique(n: nat, k: nat, j: nat, i: nat, i': nat)
    requires 1 <= k && FoldStart(n, k, i) <= j < FoldStart(n, k, i + 1)
    requires FoldStart(n, k, i') <= j < FoldStart(n, k, i' + 1)
    ensures i == i'
  {
    if i < i' {
      FoldStartMono(n, k, i + 1, i');
    } else if i' < i {
      FoldStartMono(n, k, i' + 1, i);
    }
  }

  lemma {:induction false} FindFold(n: nat, k: nat, j: nat, from: nat) returns (i: nat)
    requires 1 <= k && from < k && FoldStart(n, k, from) <= j < FoldStart(n, k, k)
    ensures from <= i < k && FoldStart(n, k, i) <= j < FoldStart(n, k, i + 1)
    decreases k - from
  {
    if j < FoldStart(n, k, from + 1) {
      i := from;
    } else {
      i := FindFold(n, k, j, from + 1);
    }
  }

  // ---------------------------------------------------------------------
  // cv: the per-fold selection

  /** `[value for query, value in query_evals.items() if query in qs]`,
      keeping the query with each value. */
  function Select(items: seq<(string, real)>, qs: seq<string>): (r: seq<(string, real)>)
    ensures |r| <= |items|
  {
    if items == [] then []
    else Select(items[..|items| - 1], qs) + (if items[|items| - 1].0 in qs then [items[|items| - 1]] else [])
  }

  function Values(items: seq<(string, real)>): (r: seq<real>)
    ensures |r| == |items| && forall i :: 0 <= i < |items| ==> r[i] == items[i].1
  {
    seq(|items|, i requires 0 <= i < |items| => items[i].1)
  }

  /** A query's value is averaged exactly when the query is in the table and
      in the query list; a query missing from the table counts for nothing
      (it is not a 0). */
  lemma {:induction false} SelectMem(items: seq<(string, real)>, qs: seq<string>, p: (string, real))
    ensures p in Select(items, qs) <==> p in items && p.0 in qs
  {
    if items != [] {
      SelectMem(items[..|items| - 1], qs, p);
      assert items == items[..|items| - 1] + [items[|items| - 1]];
    }
  }

  /** Selection keeps the table's order and its distinct query ids. */
  lemma {:induction false} SelectNoDup(items: seq<(string, real)>, qs: seq<string>)
    requires NoDup(KeysOf(items))
    ensures NoDup(KeysOf(Select(items, qs)))
  {
    if items != [] {
      var front := items[..|items| - 1];
      var last := items[|items| - 1];
      assert KeysOf(front) == KeysOf(items)[..|items| - 1];
      SelectNoDup(front, qs);
      if last.0 in qs {
        forall p | p in Select(front, qs) ensures p.0 != last.0 {
          SelectMem(front, qs, p);
          var j :| 0 <= j < |front| && front[j] == p;
          assert KeysOf(items)[j] != KeysOf(items)[|items| - 1];
        }
        var sel := Select(front, qs) + [last];
        forall a, b | 0 <= a < b < |sel| ensures KeysOf(sel)[a] != KeysOf(sel)[b] {
          if b == |sel| - 1 {
            assert sel[a] in Select(front, qs);
          } else {
            assert KeysOf(Select(front, qs))[a] != KeysOf(Select(front, qs))[b];
          }
        }
      }
    }
  }

  /** The items of a valid table have distinct query ids. */
  lemma {:induction false} ItemsNoDup<V>(d: Dict<string, V>)
    requires Valid(d)
    ensures NoDup(KeysOf(Items(d)))
  {
    assert KeysOf(Items(d)) == d.keys;
  }

  /** `np.mean` of a list: NaN (`None`) for an empty list. */
  function NpMean(s: seq<real>): (m: Option<real>)
    ensures m.Some? <==> |s| > 0
  {
    if |s| == 0 then None else Some(Mean(s))
  }

  /** `x > y` on measures: a comparison with NaN is false. */
  predicate Greater(x: Option<real>, y: Option<real>)
  {
    x.Some? && y.Some? && x.value > y.value
  }

  /** `max(param_result, key=itemgetter(1))`: the running best is replaced
      only by a strictly greater measure. */
  function MaxIndex(ms: seq<Option<real>>): (b: nat)
    requires |ms| > 0
    ensures b < |ms|
  {
    if |ms| == 1 then 0
    else
      var m := MaxIndex(ms[..|ms| - 1]);
      if Greater(ms[|ms| - 1], ms[m]) then |ms| - 1 else m
  }

  /** A NaN first measure wins; otherwise `max` picks the first position of
      the largest measure, never a NaN. */
  lemma {:induction false} MaxIndexSpec(ms: seq<Option<real>>)
    requires |ms| > 0
    ensures ms[0].None? ==> MaxIndex(ms) == 0
    ensures ms[0].Some? ==> ms[MaxIndex(ms)].Some?
    ensures ms[0].Some? ==> forall j :: 0 <= j < |ms| && ms[j].Some? ==> ms[j].value <= ms[MaxIndex(ms)].value
    ensures ms[0].Some? ==> forall j :: 0 <= j < MaxIndex(ms) && ms[j].Some? ==> ms[j].value < ms[MaxIndex(ms)].value
  {
    if |ms| > 1 {
      var front := ms[..|ms| - 1];
      MaxIndexSpec(front);
      var m := MaxIndex(front);
      assert ms[0] == front[0];
      if ms[0].Some? {
        if Greater(ms[|ms| - 1], ms[m]) {
          assert MaxIndex(ms) == |ms| - 1;
          forall j | 0 <= j < |ms| - 1 && ms[j].Some? ensures ms[j].value < ms[|ms| - 1].value {
            assert ms[j] == front[j];
          }
        } else {
          assert MaxIndex(ms) == m && ms[m] == front[m];
          forall j | 0 <= j < |ms| && ms[j].Some? ensures ms[j].value <= ms[m].value {
            if j < |ms| - 1 { assert ms[j] == front[j]; }
          }
          forall j | 0 <= j < m && ms[j].Some? ensures ms[j].value < ms[m].value {
            assert ms[j] == front[j];
          }
        }
      }
    }
  }

  /** Every table is well formed. */
  predicate GridValid(g: Grid)
  {
    Valid(g) && forall s :: s in g.values ==> Valid(g.values[s])
  }

  /** `train_measure` of one setting. */
  function TrainMeasure(qe: QueryEvals, train: seq<string>): Option<real>
    requires Valid(qe)
  {
    NpMean(Values(Select(Items(qe), train)))
  }

  /** The training measures of the first `n` settings, in the grid's
      order. */
  function Measures(g: Grid, train: seq<string>, n: nat): (ms: seq<Option<real>>)
    requires GridValid(g) && n <= |g.keys|
    ensures |ms| == n
  {
    if n == 0 then []
    else
      Present(g, g.keys[n - 1]);
      Measures(g, train, n - 1) + [TrainMeasure(g.values[g.keys[n - 1]], train)]
  }

  /** The measures of a `param_result` list. */
  function MeasuresOf(paramResult: seq<(Setting, Option<real>)>): (ms: seq<Option<real>>)
    ensures |ms| == |paramResult| && forall t :: 0 <= t < |paramResult| ==> ms[t] == paramResult[t].1
  {
    seq(|paramResult|, t requires 0 <= t < |paramResult| => paramResult[t].1)
  }

  lemma {:induction false} MeasuresOfSnoc(paramResult: seq<(Setting, Option<real>)>, x: (Setting, Option<real>))
    ensures MeasuresOf(paramResult + [x]) == MeasuresOf(paramResult) + [x.1]
  {
  }

  /** `(best_train, this_fold, best_param)`. */
  datatype FoldResult = FoldResult(bestTrain: Option<real>, testMean: Option<real>, best: Setting)

  /** What fold `i` computes: its result and the test queries of the best
      setting with their values. */
  datatype FoldOutcome = FoldOutcome(result: FoldResult, tested: seq<(string, real)>)

  function Fold(qs: seq<string>, k: nat, g: Grid, i: nat): (o: FoldOutcome)
    requires 2 <= k <= |qs| && i < k && GridValid(g) && |g.keys| > 0
    ensures o.result.best in g.values
  {
    var train := TrainPart(qs, k, i);
    var ms := Measures(g, train, |g.keys|);
    var b := MaxIndex(ms);
    var best := g.keys[b];
    Present(g, best);
    var tested := Select(Items(g.values[best]), TestPart(qs, k, i));
    FoldOutcome(FoldResult(ms[b], NpMean(Values(tested)), best), tested)
  }

  /** `per_query[q] = (value, *best_param)`. */
  type PerQuery = Dict<string, (real, Setting)>

  function Tag(tested: seq<(string, real)>, best: Setting): (r: seq<(string, (real, Setting))>)
    ensures |r| == |tested| && forall j :: 0 <= j < |tested| ==> r[j] == (tested[j].0, (tested[j].1, best))
  {
    seq(|tested|, j requires 0 <= j < |tested| => (tested[j].0, (tested[j].1, best)))
  }

  /** `per_fold` and `per_query` after the folds whose outcomes are `os`:
      each fold appends its result to `per_fold` and updates `per_query`
      with its test values tagged with its best setting. */
  function Collect(os: seq<FoldOutcome>): (r: (seq<FoldResult>, PerQuery))
    ensures |r.0| == |os|
  {
    if os == [] then ([], Empty())
    else
      var prev := Collect(os[..|os| - 1]);
      var o := os[|os| - 1];
      (prev.0 + [o.result], PutAll(prev.1, Tag(o.tested, o.result.best)))
  }

  /** The outcomes of folds `0..i`. */
  function Outcomes(qs: seq<string>, k: nat, g: Grid, i: nat): (os: seq<FoldOutcome>)
    requires 2 <= k <= |qs| && i <= k && GridValid(g) && |g.keys| > 0
    ensures |os| == i
  {
    seq(i, f requires 0 <= f < i => Fold(qs, k, g, f))
  }

  /** `(agg, per_fold, per_query)`. */
  datatype CvResult = CvResult(agg: Option<real>, perFold: seq<FoldResult>, perQuery: PerQuery)

  function Firsts(items: seq<(string, (real, Setting))>): (r: seq<real>)
    ensures |r| == |items| && forall j :: 0 <= j < |items| ==> r[j] == items[j].1.0
  {
    seq(|items|, j requires 0 <= j < |items| => items[j].1.0)
  }

  /** `per_query` is a well-formed dictionary, and not an empty one once a
      fold has written to it. */
  lemma {:induction false} CollectValid(os: seq<FoldOutcome>)
    ensures Valid(Collect(os).1)
    ensures |os| > 0 && os[|os| - 1].tested != [] ==> |Collect(os).1.keys| > 0
  {
    if os != [] {
      CollectValid(os[..|os| - 1]);
      var o := os[|os| - 1];
      var e := Tag(o.tested, o.result.best);
      var d := Collect(os[..|os| - 1]).1;
      PutAllValid(d, e);
      if e != [] {
        assert e[0].0 in KeysOf(e);
        Present(PutAll(d, e), e[0].0);
      }
    }
  }

  /** `cv(queries, False, fold, all_evals)`, or the exception it raises:
      `KFold` refuses fewer than two folds and more folds than there are
      queries, and `max` refuses an empty grid. */
  function CvSpec(qs: seq<string>, k: int, g: Grid): Result<CvResult, CvError>
    requires GridValid(g)
  {
    if k < 2 then Err(TooFewFolds(k))
    else if k > |qs| then Err(MoreFoldsThanQueries(k, |qs|))
    else if |g.keys| == 0 then Err(EmptyGrid)
    else
      var os := Outcomes(qs, k, g, k);
      var r := Collect(os);
      CollectValid(os);
      Ok(CvResult(NpMean(Firsts(Items(r.1))), r.0, r.1))
  }

  /** One fold of `cv`: the training measure of every setting in the grid's
      order, the first best one, and its values on the test queries. */
  method RunFold(qs: seq<string>, k: nat, g: Grid, i: nat) returns (o: FoldOutcome)
    requires 2 <= k <= |qs| && i < k && GridValid(g) && |g.keys| > 0
    ensures o == Fold(qs, k, g, i)
  {
    var train := TrainPart(qs, k, i);
    var test := TestPart(qs, k, i);
    var paramResult := ParamResult(g, train);
    var b := MaxIndex(MeasuresOf(paramResult));
    var best := paramResult[b].0;
    Present(g, best);
    var tested := Select(Items(g.values[best]), test);
    o := FoldOutcome(FoldResult(paramResult[b].1, NpMean(Values(tested)), best), tested);
  }

  /** `param_result`: each setting with its training measure, in the grid's
      order. */
  method ParamResult(g: Grid, train: seq<string>) returns (paramResult: seq<(Setting, Option<real>)>)
    requires GridValid(g)
    ensures |paramResult| == |g.keys|
    ensures forall t :: 0 <= t < |g.keys| ==> paramResult[t].0 == g.keys[t]
    ensures MeasuresOf(paramResult) == Measures(g, train, |g.keys|)
  {
    paramResult := [];
    var j := 0;
    while j < |g.keys|
      invariant j <= |g.keys| && |paramResult| == j
      invariant forall t :: 0 <= t < j ==> paramResult[t].0 == g.keys[t]
      invariant MeasuresOf(paramResult) == Measures(g, train, j)
    {
      var s := g.keys[j];
      Present(g, s);
      var m := TrainMeasure(g.values[s], train);
      MeasuresOfSnoc(paramResult, (s, m));
      paramResult := paramResult + [(s, m)];
      j := j + 1;
    }
  }

  /** `cv` with `shuffle` false: the folds in order, each adding its best
      setting's test values to `per_query`, then the mean over all queries. */
  method Cv(qs: seq<string>, k: int, g: Grid) returns (r: Result<CvResult, CvError>)
    requires GridValid(g)
    ensures r == CvSpec(qs, k, g)
  {
    if k < 2 {
      return Err(TooFewFolds(k));
    }
    if k > |qs| {
      return Err(MoreFoldsThanQueries(k, |qs|));
    }
    if |g.keys| == 0 {
      return Err(EmptyGrid);
    }
    var perFold, perQuery := RunFolds(qs, k, g);
    CollectValid(Outcomes(qs, k, g, k));
    r := Ok(CvResult(NpMean(Firsts(Items(perQuery))), perFold, perQuery));
  }

  /** The loop over the folds of `cv`. */
  method RunFolds(qs: seq<string>, k: nat, g: Grid) returns (perFold: seq<FoldResult>, perQuery: PerQuery)
    requires 2 <= k <= |qs| && GridValid(g) && |g.keys| > 0
    ensures (perFold, perQuery) == Collect(Outcomes(qs, k, g, k))
  {
    ghost var os := Outcomes(qs, k, g, k);
    perFold, perQuery := [], Empty();
    var i: nat := 0;
    while i < k
      invariant i <= k
      invariant (perFold, perQuery) == Collect(os[..i])
    {
      var o := RunFold(qs, k, g, i);
      assert os[..i + 1][..i] == os[..i] && os[..i + 1][i] == o;
      perFold, perQuery := perFold + [o.result], PutAll(perQuery, Tag(o.tested, o.result.best));
      i := i + 1;
    }
    assert os[..i] == os;
  }

  // ---------------------------------------------------------------------
  // cv: what the folds promise

  /** The best setting of a fold is the first one, in the grid's order,
      whose training measure is largest (or the first setting, when its
      measure is NaN); the fold's test measure is the mean of that setting's
      values on exactly the test queries it has. */
  lemma {:induction false} FoldBest(qs: seq<string>, k: nat, g: Grid, i: nat) returns (b: nat)
    requires 2 <= k <= |qs| && i < k && GridValid(g) && |g.keys| > 0
    ensures var o := Fold(qs, k, g, i);
      var ms := Measures(g, TrainPart(qs, k, i), |g.keys|);
      && b < |g.keys| && g.keys[b] == o.result.best
      && o.result.bestTrain == ms[b]
      && (ms[0].None? ==> b == 0)
      && (ms[0].Some? ==> ms[b].Some?)
      && (ms[0].Some? ==> forall j :: 0 <= j < |ms| && ms[j].Some? ==> ms[j].value <= ms[b].value)
      && (ms[0].Some? ==> forall j :: 0 <= j < b && ms[j].Some? ==> ms[j].value < ms[b].value)
      && o.result.testMean == NpMean(Values(o.tested))
    ensures var o := Fold(qs, k, g, i);
      forall p :: p in o.tested <==> p.0 in TestPart(qs, k, i) && p.0 in g.values[o.result.best].values && p.1 == g.values[o.result.best].values[p.0]
  {
    b := MaxIndex(Measures(g, TrainPart(qs, k, i), |g.keys|));
    MaxIndexSpec(Measures(g, TrainPart(qs, k, i), |g.keys|));
    var o := Fold(qs, k, g, i);
    forall p ensures p in o.tested <==> p.0 in TestPart(qs, k, i) && p.0 in g.values[o.result.best].values && p.1 == g.values[o.result.best].values[p.0] {
      SelectMem(Items(g.values[o.result.best]), TestPart(qs, k, i), p);
      ItemsExact(g.values[o.result.best], p.0, p.1);
    }
  }

  /** `per_fold` lists the folds' results in fold order. */
  lemma {:induction false} CollectResults(os: seq<FoldOutcome>, f: nat)
    requires f < |os|
    ensures Collect(os).0[f] == os[f].result
  {
    if f < |os| - 1 {
      CollectResults(os[..|os| - 1], f);
    }
  }

  /** The entries the folds hand to `per_query.update`, in order. */
  function Writes(os: seq<FoldOutcome>): (w: seq<(string, (real, Setting))>)
  {
    if os == [] then []
    else Writes(os[..|os| - 1]) + Tag(os[|os| - 1].tested, os[|os| - 1].result.best)
  }

  lemma {:induction false} TagMem(tested: seq<(string, real)>, best: Setting, x: (string, (real, Setting)))
    ensures x in Tag(tested, best) <==> (x.0, x.1.0) in tested && x.1.1 == best
  {
    if (x.0, x.1.0) in tested && x.1.1 == best {
      var j :| 0 <= j < |tested| && tested[j] == (x.0, x.1.0);
      assert Tag(tested, best)[j] == x;
    }
  }

  /** Every entry written comes from some fold. */
  lemma {:induction false} WritesBy(os: seq<FoldOutcome>, x: (string, (real, Setting))) returns (f: nat)
    requires x in Writes(os)
    ensures f < |os| && (x.0, x.1.0) in os[f].tested && x.1.1 == os[f].result.best
  {
    var o := os[|os| - 1];
    if x in Tag(o.tested, o.result.best) {
      TagMem(o.tested, o.result.best, x);
      f := |os| - 1;
    } else {
      f := WritesBy(os[..|os| - 1], x);
    }
  }

  /** Every fold's entries are written. */
  lemma {:induction false} WritesHas(os: seq<FoldOutcome>, f: nat, x: (string, (real, Setting)))
    requires f < |os| && (x.0, x.1.0) in os[f].tested && x.1.1 == os[f].result.best
    ensures x in Writes(os)
  {
    if f < |os| - 1 {
      WritesHas(os[..|os| - 1], f, x);
    } else {
      TagMem(os[f].tested, os[f].result.best, x);
    }
  }

  /** Each fold tests distinct queries, and no query is tested by two
      folds. */
  predicate KeysApart(os: seq<FoldOutcome>)
  {
    && (forall f :: 0 <= f < |os| ==> NoDup(KeysOf(os[f].tested)))
    && (forall f, f', x, y :: 0 <= f < f' < |os| && x in os[f].tested && y in os[f'].tested ==> x.0 != y.0)
  }

  /** A key of `per_query` is a test query of some fold. */
  lemma {:induction false} WrittenKey(os: seq<FoldOutcome>, q: string) returns (f: nat, v: real)
    requires Valid(Collect(os).1) && Items(Collect(os).1) == Writes(os)
    requires q in Collect(os).1.keys
    ensures f < |os| && (q, v) in os[f].tested
  {
    var d := Collect(os).1;
    var u :| 0 <= u < |d.keys| && d.keys[u] == q;
    var x := Writes(os)[u];
    f := WritesBy(os, x);
    v := x.1.0;
  }

  /** The last fold writes no key an earlier fold wrote. */
  lemma {:induction false} LastFresh(os: seq<FoldOutcome>)
    requires os != [] && KeysApart(os)
    requires Valid(Collect(os[..|os| - 1]).1) && Items(Collect(os[..|os| - 1]).1) == Writes(os[..|os| - 1])
    ensures var o := os[|os| - 1];
      forall t :: 0 <= t < |o.tested| ==> o.tested[t].0 !in Collect(os[..|os| - 1]).1.keys
  {
    var o := os[|os| - 1];
    forall t | 0 <= t < |o.tested| ensures o.tested[t].0 !in Collect(os[..|os| - 1]).1.keys {
      if o.tested[t].0 in Collect(os[..|os| - 1]).1.keys {
        var f, v := WrittenKey(os[..|os| - 1], o.tested[t].0);
      }
    }
  }

  /** When the folds' keys are apart no fold overwrites another's entry:
      the items of `per_query` are the folds' entries, each once, in fold
      order. */
  lemma {:induction false} CollectItems(os: seq<FoldOutcome>)
    requires KeysApart(os)
    ensures Valid(Collect(os).1) && Items(Collect(os).1) == Writes(os)
  {
    if os != [] {
      var front := os[..|os| - 1];
      var o := os[|os| - 1];
      assert KeysApart(front);
      CollectItems(front);
      var e := Tag(o.tested, o.result.best);
      assert KeysOf(e) == KeysOf(o.tested);
      LastFresh(os);
      PutAllFresh(Collect(front).1, e);
    }
  }

  /** A query of fold `f`'s outcome is a test query of that fold, with the
      best setting's value for it. */
  lemma {:induction false} TestedIn(qs: seq<string>, k: nat, g: Grid, f: nat, p: (string, real))
    requires 2 <= k <= |qs| && f < k && GridValid(g) && |g.keys| > 0
    ensures var o := Fold(qs, k, g, f);
      p in o.tested <==> p.0 in TestPart(qs, k, f) && p.0 in g.values[o.result.best].values && p.1 == g.values[o.result.best].values[p.0]
  {
    var o := Fold(qs, k, g, f);
    SelectMem(Items(g.values[o.result.best]), TestPart(qs, k, f), p);
    ItemsExact(g.values[o.result.best], p.0, p.1);
  }

  /** Where a query of a test block sits in the query list. */
  lemma {:induction false} PositionIn(qs: seq<string>, k: nat, i: nat, q: string) returns (x: nat)
    requires 2 <= k <= |qs| && i < k && q in TestPart(qs, k, i)
    ensures FoldStart(|qs|, k, i) <= x < FoldStart(|qs|, k, i + 1) && x < |qs| && qs[x] == q
  {
    FoldBounds(|qs|, k, i + 1);
    var t :| 0 <= t < |TestPart(qs, k, i)| && TestPart(qs, k, i)[t] == q;
    x := FoldStart(|qs|, k, i) + t;
  }

  /** With distinct query ids, no query is in two test blocks. */
  lemma {:induction false} TestDisjoint(qs: seq<string>, k: nat, i: nat, i': nat, q: string)
    requires NoDup(qs) && 2 <= k <= |qs| && i < k && i' < k
    requires q in TestPart(qs, k, i) && q in TestPart(qs, k, i')
    ensures i == i'
  {
    var x := PositionIn(qs, k, i, q);
    var y := PositionIn(qs, k, i', q);
    assert x == y;
    FoldUnique(|qs|, k, x, i, i');
  }

  /** Each fold tests distinct queries, all from its test block. */
  predicate InBlocks(qs: seq<string>, k: nat, os: seq<FoldOutcome>)
    requires 2 <= k <= |qs| && |os| == k
  {
    forall f :: 0 <= f < k ==>
      NoDup(KeysOf(os[f].tested)) && forall p :: p in os[f].tested ==> p.0 in TestPart(qs, k, f)
  }

  lemma {:induction false} FoldInBlock(qs: seq<string>, k: nat, g: Grid, f: nat)
    requires 2 <= k <= |qs| && f < k && GridValid(g) && |g.keys| > 0
    ensures var o := Fold(qs, k, g, f);
      NoDup(KeysOf(o.tested)) && forall p :: p in o.tested ==> p.0 in TestPart(qs, k, f)
  {
    var o := Fold(qs, k, g, f);
    ItemsNoDup(g.values[o.result.best]);
    SelectNoDup(Items(g.values[o.result.best]), TestPart(qs, k, f));
    forall p | p in o.tested ensures p.0 in TestPart(qs, k, f) {
      SelectMem(Items(g.values[o.result.best]), TestPart(qs, k, f), p);
    }
  }

  lemma {:induction false} OutcomesInBlocks(qs: seq<string>, k: nat, g: Grid)
    requires 2 <= k <= |qs| && GridValid(g) && |g.keys| > 0
    ensures InBlocks(qs, k, Outcomes(qs, k, g, k))
  {
    forall f | 0 <= f < k
      ensures NoDup(KeysOf(Fold(qs, k, g, f).tested)) && forall p :: p in Fold(qs, k, g, f).tested ==> p.0 in TestPart(qs, k, f)
    {
      FoldInBlock(qs, k, g, f);
    }
  }

  /** With distinct query ids, folds that keep to their test blocks are
      apart. */
  lemma {:induction false} BlocksApart(qs: seq<string>, k: nat, os: seq<FoldOutcome>)
    requires NoDup(qs) && 2 <= k <= |qs| && |os| == k && InBlocks(qs, k, os)
    ensures KeysApart(os)
  {
    forall f, f', x, y | 0 <= f < f' < |os| && x in os[f].tested && y in os[f'].tested ensures x.0 != y.0 {
      if x.0 == y.0 {
        TestDisjoint(qs, k, f, f', x.0);
      }
    }
  }

  /** A query fold `f` tested maps in `per_query` to the fold's value for
      it and the fold's best setting. */
  lemma {:induction false} PerQueryTested(os: seq<FoldOutcome>, f: nat, q: string, v: real)
    requires KeysApart(os) && f < |os| && (q, v) in os[f].tested
    ensures q in Collect(os).1.values && Collect(os).1.values[q] == (v, os[f].result.best)
  {
    CollectItems(os);
    WritesHas(os, f, (q, (v, os[f].result.best)));
    ItemsExact(Collect(os).1, q, (v, os[f].result.best));
  }

  /** With distinct query ids, a query of fold `f`'s test block is in
      `per_query` exactly when fold `f` tested it, and then it maps to the
      fold's value for it and the fold's best setting. */
  lemma {:induction false} PerQueryOf(qs: seq<string>, k: nat, os: seq<FoldOutcome>, f: nat, q: string)
    requires NoDup(qs) && 2 <= k <= |qs| && |os| == k && InBlocks(qs, k, os)
    requires f < k && q in TestPart(qs, k, f)
    ensures q in Collect(os).1.values <==> q in KeysOf(os[f].tested)
    ensures forall v :: (q, v) in os[f].tested ==> q in Collect(os).1.values && Collect(os).1.values[q] == (v, os[f].result.best)
  {
    BlocksApart(qs, k, os);
    forall v | (q, v) in os[f].tested ensures q in Collect(os).1.values && Collect(os).1.values[q] == (v, os[f].result.best) {
      PerQueryTested(os, f, q, v);
    }
    var tested := os[f].tested;
    if q in KeysOf(tested) {
      var t :| 0 <= t < |tested| && tested[t].0 == q;
      PerQueryTested(os, f, q, tested[t].1);
    } else if q in Collect(os).1.values {
      PerQueryFrom(qs, k, os, f, q);
    }
  }

  /** With distinct query ids, a key of `per_query` from fold `f`'s test
      block was tested by fold `f`. */
  lemma {:induction false} PerQueryFrom(qs: seq<string>, k: nat, os: seq<FoldOutcome>, f: nat, q: string)
    requires NoDup(qs) && 2 <= k <= |qs| && |os| == k && InBlocks(qs, k, os)
    requires f < k && q in TestPart(qs, k, f) && q in Collect(os).1.values
    ensures q in KeysOf(os[f].tested)
  {
    var f', v := WrittenBy(qs, k, os, q);
    TestDisjoint(qs, k, f, f', q);
    KeyOfPair(os[f].tested, q, v);
  }

  /** A key of `per_query` was tested, with its value, by some fold. */
  lemma {:induction false} WrittenBy(qs: seq<string>, k: nat, os: seq<FoldOutcome>, q: string) returns (f: nat, v: real)
    requires NoDup(qs) && 2 <= k <= |qs| && |os| == k && InBlocks(qs, k, os)
    requires q in Collect(os).1.values
    ensures f < k && (q, v) in os[f].tested && q in TestPart(qs, k, f)
  {
    BlocksApart(qs, k, os);
    CollectItems(os);
    var pq := Collect(os).1;
    var x := (q, pq.values[q]);
    ItemsExact(pq, x.0, x.1);
    f := WritesBy(os, x);
    v := x.1.0;
  }

  lemma {:induction false} KeyOfPair<K, V>(entries: seq<(K, V)>, k: K, v: V)
    requires (k, v) in entries
    ensures k in KeysOf(entries)
  {
    var t :| 0 <= t < |entries| && entries[t] == (k, v);
    assert KeysOf(entries)[t] == k;
  }

  /** With distinct query ids, each query is written by the fold whose test
      block holds it: it is in `per_query` exactly when that fold's best
      setting has a value for it, and then it maps to that value and that
      setting. */
  lemma {:induction false} PerQueryExact(qs: seq<string>, k: nat, g: Grid, j: nat) returns (f: nat)
    requires NoDup(qs) && 2 <= k <= |qs| && GridValid(g) && |g.keys| > 0
    requires j < |qs|
    ensures f < k && qs[j] in TestPart(qs, k, f)
    ensures CvSpec(qs, k, g).Ok?
    ensures var pq := CvSpec(qs, k, g).value.perQuery;
      var best := Fold(qs, k, g, f).result.best;
      && (qs[j] in pq.values <==> qs[j] in g.values[best].values)
      && (qs[j] in pq.values ==> pq.values[qs[j]] == (g.values[best].values[qs[j]], best))
  {
    f := FoldHolding(qs, k, j);
    var q := qs[j];
    var os := Outcomes(qs, k, g, k);
    OutcomesInBlocks(qs, k, g);
    PerQueryOf(qs, k, os, f, q);
    var o := Fold(qs, k, g, f);
    assert os[f] == o;
    var best := o.result.best;
    if q in g.values[best].values {
      TestedIn(qs, k, g, f, (q, g.values[best].values[q]));
    }
    if q in KeysOf(o.tested) {
      var t :| 0 <= t < |o.tested| && o.tested[t].0 == q;
      TestedIn(qs, k, g, f, o.tested[t]);
    }
  }

  /** Only queries of the query list get into `per_query`. */
  lemma {:induction false} PerQueryIn(qs: seq<string>, k: nat, os: seq<FoldOutcome>, q: string)
    requires NoDup(qs) && 2 <= k <= |qs| && |os| == k && InBlocks(qs, k, os)
    requires q in Collect(os).1.values
    ensures q in qs
  {
    BlocksApart(qs, k, os);
    CollectItems(os);
    var pq := Collect(os).1;
    var x := (q, pq.values[q]);
    ItemsExact(pq, x.0, x.1);
    var f := WritesBy(os, x);
    var y := PositionIn(qs, k, f, q);
  }

  /** With distinct query ids, `per_query` only holds queries of the query
      list. */
  lemma {:induction false} PerQueryQueries(qs: seq<string>, k: nat, g: Grid, q: string)
    requires NoDup(qs) && 2 <= k <= |qs| && GridValid(g) && |g.keys| > 0
    ensures CvSpec(qs, k, g).Ok?
    ensures q in CvSpec(qs, k, g).value.perQuery.values ==> q in qs
  {
    OutcomesInBlocks(qs, k, g);
    if q in Collect(Outcomes(qs, k, g, k)).1.values {
      PerQueryIn(qs, k, Outcomes(qs, k, g, k), q);
    }
  }

  /** `per_fold` holds fold `f`'s result at position `f`. */
  lemma {:induction false} CvPerFold(qs: seq<string>, k: nat, g: Grid, f: nat)
    requires 2 <= k <= |qs| && GridValid(g) && |g.keys| > 0 && f < k
    ensures CvSpec(qs, k, g).Ok? && |CvSpec(qs, k, g).value.perFold| == k
    ensures CvSpec(qs, k, g).value.perFold[f] == Fold(qs, k, g, f).result
  {
    CollectValid(Outcomes(qs, k, g, k));
    CollectResults(Outcomes(qs, k, g, k), f);
  }

  /** A fold's test measure times the number of test values it averaged;
      nothing for a fold without test values. */
  function Weight(o: FoldOutcome): real
  {
    if o.result.testMean.Some? then o.result.testMean.value * (|o.tested| as real) else 0.0
  }

  /** The folds' weights, summed. */
  function WeightedTotal(os: seq<FoldOutcome>): real
  {
    if os == [] then 0.0 else WeightedTotal(os[..|os| - 1]) + Weight(os[|os| - 1])
  }

  /** How many test values the folds average. */
  function TestedCount(os: seq<FoldOutcome>): nat
  {
    if os == [] then 0 else TestedCount(os[..|os| - 1]) + |os[|os| - 1].tested|
  }

  /** A fold's test values sum to its test measure times their number. */
  lemma {:induction false} FoldWeight(o: FoldOutcome)
    requires o.result.testMean == NpMean(Values(o.tested))
    ensures Sum(Values(o.tested)) == Weight(o)
  {
    if o.tested == [] {
      assert Values(o.tested) == [];
    }
  }

  /** Each fold's test measure is the mean of its test values. */
  predicate MeansTested(os: seq<FoldOutcome>)
  {
    forall f :: 0 <= f < |os| ==> os[f].result.testMean == NpMean(Values(os[f].tested))
  }

  lemma {:induction false} WritesSum(os: seq<FoldOutcome>)
    requires MeansTested(os)
    ensures Sum(Firsts(Writes(os))) == WeightedTotal(os)
    ensures |Writes(os)| == TestedCount(os)
  {
    if os != [] {
      var front := os[..|os| - 1];
      var o := os[|os| - 1];
      assert MeansTested(front);
      WritesSum(front);
      WritesFirsts(os);
      SumAppend(Firsts(Writes(front)), Values(o.tested));
      FoldWeight(o);
    }
  }

  /** The values written by the last fold follow those of the earlier ones. */
  lemma {:induction false} WritesFirsts(os: seq<FoldOutcome>)
    requires os != []
    ensures Firsts(Writes(os)) == Firsts(Writes(os[..|os| - 1])) + Values(os[|os| - 1].tested)
  {
    var a := Writes(os[..|os| - 1]);
    var o := os[|os| - 1];
    var b := Tag(o.tested, o.result.best);
    assert Writes(os) == a + b;
    var l := Firsts(a + b);
    var r := Firsts(a) + Values(o.tested);
    assert |l| == |r|;
    forall i | 0 <= i < |l| ensures l[i] == r[i] {
      if i < |a| {
        assert (a + b)[i] == a[i];
      } else {
        assert (a + b)[i] == b[i - |a|];
      }
    }
  }

  /** `agg` weights each fold by the number of its test queries: it is the
      mean of every per-query value, not the mean of the fold measures, and
      NaN exactly when no fold had a test value. */
  lemma {:induction false} AggQueryWeighted(qs: seq<string>, k: nat, g: Grid)
    requires NoDup(qs) && 2 <= k <= |qs| && GridValid(g) && |g.keys| > 0
    ensures CvSpec(qs, k, g).Ok?
    ensures var os := Outcomes(qs, k, g, k);
      CvSpec(qs, k, g).value.agg == if TestedCount(os) == 0 then None else Some(WeightedTotal(os) / (TestedCount(os) as real))
  {
    var os := Outcomes(qs, k, g, k);
    OutcomesInBlocks(qs, k, g);
    BlocksApart(qs, k, os);
    CollectItems(os);
    forall f | 0 <= f < k ensures os[f].result.testMean == NpMean(Values(os[f].tested)) {
      assert os[f] == Fold(qs, k, g, f);
    }
    WritesSum(os);
  }
}
