/** `scripts/sample.py`: group the lines of a file by one of their fields
    and keep the front or back keys, the front or back lines of each key,
    or both. */
module Sample {
  import opened Wrappers
  import opened Seqs
  import opened Text
  import opened Assoc

  // ---------------------------------------------------------------------
  // Arguments

  datatype ArgError =
    | NotAnInt(text: string)    // `int(input_)` raises ValueError
    | FieldBelowOne(x: int)     // "Field starts from 1."

  /** `to_zero_base`: fields are numbered from 1 on the command line and
      from 0 inside. */
  function ToZeroBase(input: string, toInt: string -> Option<int>): (r: Result<nat, ArgError>)
    ensures toInt(input).None? ==> r == Err(NotAnInt(input))
    ensures toInt(input).Some? && toInt(input).value < 1 ==> r == Err(FieldBelowOne(toInt(input).value))
    ensures r.Ok? <==> toInt(input).Some? && toInt(input).value >= 1
    ensures r.Ok? ==> r.value + 1 == toInt(input).value
  {
    match toInt(input)
    case None => Err(NotAnInt(input))
    case Some(x) => if x < 1 then Err(FieldBelowOne(x)) else Ok(x - 1)
  }

  /** `--mode`. */
  datatype Mode = KeyMode | ValueMode | Both

  /** `--selection`, without `random`. */
  datatype Selection = Front | Back

  predicate SelectsKeys(mode: Mode)
  {
    mode == KeyMode || mode == Both
  }

  predicate SelectsValues(mode: Mode)
  {
    mode == ValueMode || mode == Both
  }

  // ---------------------------------------------------------------------
  // Python slicing

  /** Where a slice bound `i` lands in a sequence of length `n`: a negative
      bound counts from the end, and both are clamped to `0..n`. */
  function SliceIndex(i: int, n: nat): (r: nat)
    ensures r <= n
  {
    if i < 0 then (if i + n < 0 then 0 else i + n) else (if i > n then n else i)
  }

  /** `s[:stop]`. */
  function Take<T>(s: seq<T>, stop: int): seq<T>
  {
    s[..SliceIndex(stop, |s|)]
  }

  /** `s[start:]`. */
  function Drop<T>(s: seq<T>, start: int): seq<T>
  {
    s[SliceIndex(start, |s|)..]
  }

  function Min(a: int, b: int): int
  {
    if a <= b then a else b
  }

  /** The deterministic selections of `main`: `num = min(len(s), n)`, then
      `s[:num]` for `front` and `s[-num:]` for `back`. */
  function Pick<T>(s: seq<T>, n: int, sel: Selection): seq<T>
  {
    var num := Min(|s|, n);
    match sel
    case Front => Take(s, num)
    case Back => Drop(s, -num)
  }

  /** What the selections keep. `front` keeps the first `n` elements (all of
      them if there are fewer); `back` keeps the last `n`, except that
      `n == 0` keeps everything, because `s[-0:]` is `s[0:]`. A negative `n`
      drops `-n` elements, from the end for `front` and from the start for
      `back`. Either way the result is a contiguous run of `s`. */
  lemma {:induction false} PickSpec<T>(s: seq<T>, n: int, sel: Selection)
    ensures sel == Front && n >= 0 ==> Pick(s, n, sel) == s[..Min(|s|, n)]
    ensures sel == Front && n < 0 ==> Pick(s, n, sel) == s[..if |s| + n < 0 then 0 else |s| + n]
    ensures sel == Back && n > 0 ==> Pick(s, n, sel) == s[|s| - Min(|s|, n)..]
    ensures sel == Back && n == 0 ==> Pick(s, n, sel) == s
    ensures sel == Back && n < 0 ==> Pick(s, n, sel) == s[Min(|s|, -n)..]
    ensures exists i, j :: 0 <= i <= j <= |s| && Pick(s, n, sel) == s[i..j]
  {
    var num := Min(|s|, n);
    match sel
    case Front =>
      assert Pick(s, n, sel) == s[0..SliceIndex(num, |s|)];
    case Back =>
      assert Pick(s, n, sel) == s[SliceIndex(-num, |s|)..|s|];
  }

  // ---------------------------------------------------------------------
  // Grouping

  datatype SampleError = NoSuchField(line: string)   // `splits[key_field]` raises IndexError

  /** `not line.strip()`. */
  predicate Blank(line: string)
  {
    Strip(line) == []
  }

  /** `line.strip().split(delimiter)[field]`, if there is such a field. */
  function KeyOf(line: string, delim: char, field: nat): Option<string>
  {
    var splits := Split(Strip(line), delim);
    if field < |splits| then Some(splits[field]) else None
  }

  /** What the grouping loop does with one line: skip it, fail on it, or
      file it under a key. */
  datatype LineKind = Skip | Missing | Keyed(key: string)

  function Classify(line: string, delim: char, field: nat): (r: LineKind)
    ensures r == Skip <==> Blank(line)
    ensures r == Missing <==> !Blank(line) && KeyOf(line, delim, field).None?
    ensures r.Keyed? ==> !Blank(line) && KeyOf(line, delim, field) == Some(r.key)
  {
    if Blank(line) then Skip
    else match KeyOf(line, delim, field)
      case None => Missing
      case Some(k) => Keyed(k)
  }

  /** The classification of the script, for a delimiter and a key field. */
  function Kind(delim: char, field: nat): string -> LineKind
  {
    line => Classify(line, delim, field)
  }

  /** The loop of `main` that fills `data`, for any classification of the
      lines: skipped lines are left out, every keyed line is appended, as it
      is, to the list of its key. */
  function Grouped(lines: seq<string>, kind: string -> LineKind): (r: Result<Dict<string, seq<string>>, SampleError>)
    ensures r.Ok? ==> Valid(r.value)
  {
    if lines == [] then Ok(Empty())
    else
      var data :- Grouped(lines[..|lines| - 1], kind);
      var line := lines[|lines| - 1];
      match kind(line)
      case Skip => Ok(data)
      case Missing => Err(NoSuchField(line))
      case Keyed(k) =>
        PutValid(data, k, GetOr(data, k, []) + [line]);
        Ok(Put(data, k, GetOr(data, k, []) + [line]))
  }

  /** `main`'s grouping loop. */
  method Group(lines: seq<string>, delim: char, field: nat) returns (r: Result<Dict<string, seq<string>>, SampleError>)
    ensures r == Grouped(lines, Kind(delim, field))
  {
    var data: Dict<string, seq<string>> := Empty();
    for i := 0 to |lines|
      invariant Grouped(lines[..i], Kind(delim, field)) == Ok(data)
    {
      var line := lines[i];
      assert lines[..i + 1][..i] == lines[..i];
      if Blank(line) {
        continue;
      }
      var splits := Split(Strip(line), delim);
      if field >= |splits| {
        r := Err(NoSuchField(line));
        GroupedFails(lines, i + 1, Kind(delim, field));
        return;
      }
      var key := splits[field];
      data := Put(data, key, GetOr(data, key, []) + [line]);
    }
    assert lines[..|lines|] == lines;
    r := Ok(data);
  }

  /** An error in a prefix of the lines is the error of all of them. */
  lemma {:induction false} GroupedFails(lines: seq<string>, n: nat, kind: string -> LineKind)
    requires n <= |lines| && Grouped(lines[..n], kind).Err?
    ensures Grouped(lines, kind) == Grouped(lines[..n], kind)
    decreases |lines| - n
  {
    if n < |lines| {
      assert lines[..n + 1][..n] == lines[..n];
      GroupedFails(lines, n + 1, kind);
    } else {
      assert lines[..n] == lines;
    }
  }

  /** The keys of the keyed lines, in line order, repeats kept. */
  function KeysIn(lines: seq<string>, kind: string -> LineKind): seq<string>
  {
    if lines == [] then []
    else
      var line := lines[|lines| - 1];
      KeysIn(lines[..|lines| - 1], kind) + if kind(line).Keyed? then [kind(line).key] else []
  }

  /** The lines filed under `k`, in line order. */
  function WithKey(lines: seq<string>, kind: string -> LineKind, k: string): seq<string>
  {
    if lines == [] then []
    else
      var line := lines[|lines| - 1];
      WithKey(lines[..|lines| - 1], kind, k) + if kind(line) == Keyed(k) then [line] else []
  }

  /** A key is listed exactly when some line is filed under it. */
  lemma {:induction false} KeysInMem(lines: seq<string>, kind: string -> LineKind, k: string)
    ensures k in KeysIn(lines, kind) <==> exists x :: x in lines && kind(x) == Keyed(k)
  {
    if lines != [] {
      var front, line := lines[..|lines| - 1], lines[|lines| - 1];
      KeysInMem(front, kind, k);
      assert lines == front + [line];
    }
  }

  /** The lines under `k` are exactly the input lines filed under `k`. */
  lemma {:induction false} WithKeyMem(lines: seq<string>, kind: string -> LineKind, k: string, x: string)
    ensures x in WithKey(lines, kind, k) <==> x in lines && kind(x) == Keyed(k)
  {
    if lines != [] {
      var front, line := lines[..|lines| - 1], lines[|lines| - 1];
      WithKeyMem(front, kind, k, x);
      assert lines == front + [line];
    }
  }

  /** Grouping fails exactly when some line cannot be classified; the error
      names the first such line. */
  lemma {:induction false} GroupedErr(lines: seq<string>, kind: string -> LineKind)
    ensures Grouped(lines, kind).Err? <==> exists i :: 0 <= i < |lines| && kind(lines[i]) == Missing
    ensures Grouped(lines, kind).Err? ==>
      exists i :: (0 <= i < |lines| && kind(lines[i]) == Missing
        && Grouped(lines, kind).error == NoSuchField(lines[i])
        && forall j :: 0 <= j < i ==> kind(lines[j]) != Missing)
  {
    if lines != [] {
      var front, line := lines[..|lines| - 1], lines[|lines| - 1];
      GroupedErr(front, kind);
      assert forall i :: 0 <= i < |front| ==> lines[i] == front[i];
      if Grouped(front, kind).Err? {
        var i :| 0 <= i < |front| && kind(front[i]) == Missing
          && Grouped(front, kind).error == NoSuchField(front[i])
          && (forall j :: 0 <= j < i ==> kind(front[j]) != Missing);
        assert kind(lines[i]) == Missing;
      } else if kind(line) == Missing {
        assert lines[|front|] == line;
      } else {
        forall i | 0 <= i < |lines| ensures kind(lines[i]) != Missing {
          if i < |front| {
            assert lines[i] == front[i];
          }
        }
      }
    }
  }

  /** Otherwise the keys are in order of first appearance and each key
      holds exactly its lines, unchanged and in input order; a key that
      never occurs has no list. */
  lemma {:induction false} GroupedSpec(lines: seq<string>, kind: string -> LineKind)
    requires Grouped(lines, kind).Ok?
    ensures var data := Grouped(lines, kind).value;
      && data.keys == Distinct(KeysIn(lines, kind))
      && (forall k :: k in data.values <==> k in KeysIn(lines, kind))
      && (forall k :: GetOr(data, k, []) == WithKey(lines, kind, k))
  {
    if lines != [] {
      var front, line := lines[..|lines| - 1], lines[|lines| - 1];
      GroupedSpec(front, kind);
      var data := Grouped(front, kind).value;
      if kind(line).Keyed? {
        var k := kind(line).key;
        Present(data, k);
        DistinctSnoc(KeysIn(front, kind), k);
        GroupedPut(lines, kind, data, k);
      } else {
        GroupedSkip(lines, kind);
      }
    }
  }

  /** The step of `GroupedSpec` for a last line that files nothing. */
  lemma {:induction false} GroupedSkip(lines: seq<string>, kind: string -> LineKind)
    requires lines != [] && !kind(lines[|lines| - 1]).Keyed?
    ensures Grouped(lines, kind).Ok? ==> Grouped(lines, kind) == Grouped(lines[..|lines| - 1], kind)
    ensures KeysIn(lines, kind) == KeysIn(lines[..|lines| - 1], kind)
    ensures forall k :: WithKey(lines, kind, k) == WithKey(lines[..|lines| - 1], kind, k)
  {
  }

  /** The step of `GroupedSpec` for a last line filed under `k`. */
  lemma {:induction false} GroupedPut(lines: seq<string>, kind: string -> LineKind, data: Dict<string, seq<string>>, k: string)
    requires lines != [] && kind(lines[|lines| - 1]) == Keyed(k)
    requires Grouped(lines[..|lines| - 1], kind) == Ok(data)
    requires forall k' :: k' in data.values <==> k' in KeysIn(lines[..|lines| - 1], kind)
    requires forall k' :: GetOr(data, k', []) == WithKey(lines[..|lines| - 1], kind, k')
    ensures var d := Grouped(lines, kind).value;
      && d == Put(data, k, GetOr(data, k, []) + [lines[|lines| - 1]])
      && (forall k' :: k' in d.values <==> k' in KeysIn(lines, kind))
      && (forall k' :: GetOr(d, k', []) == WithKey(lines, kind, k'))
  {
    var front, line := lines[..|lines| - 1], lines[|lines| - 1];
    var d := Put(data, k, GetOr(data, k, []) + [line]);
    assert Grouped(lines, kind) == Ok(d);
    assert KeysIn(lines, kind) == KeysIn(front, kind) + [k];
    forall k' ensures GetOr(d, k', []) == WithKey(lines, kind, k') {
      assert WithKey(lines, kind, k') == WithKey(front, kind, k') + if k' == k then [line] else [];
      if k' == k {
        assert GetOr(d, k', []) == GetOr(data, k, []) + [line];
      } else {
        assert GetOr(d, k', []) == GetOr(data, k', []);
      }
    }
  }

  // ---------------------------------------------------------------------
  // Selection

  /** The elements of `s` that are in `kept`, in the order of `s`. */
  function FilterIn(s: seq<string>, kept: seq<string>): seq<string>
  {
    if s == [] then []
    else FilterIn(s[..|s| - 1], kept) + if s[|s| - 1] in kept then [s[|s| - 1]] else []
  }

  /** The filter keeps exactly the elements of `s` that are in `kept`. */
  lemma {:induction false} FilterInMem(s: seq<string>, kept: seq<string>, x: string)
    ensures x in FilterIn(s, kept) <==> x in s && x in kept
  {
    if s != [] {
      var front := s[..|s| - 1];
      FilterInMem(front, kept, x);
      assert s == front + [s[|s| - 1]];
    }
  }

  lemma {:induction false} FilterInAppend(a: seq<string>, b: seq<string>, kept: seq<string>)
    ensures FilterIn(a + b, kept) == FilterIn(a, kept) + FilterIn(b, kept)
  {
    if b == [] {
      assert a + b == a;
    } else {
      assert (a + b)[..|a + b| - 1] == a + b[..|b| - 1];
      FilterInAppend(a, b[..|b| - 1], kept);
    }
  }

  lemma {:induction false} FilterInAll(s: seq<string>, kept: seq<string>)
    requires forall i :: 0 <= i < |s| ==> s[i] in kept
    ensures FilterIn(s, kept) == s
  {
    if s != [] {
      var front := s[..|s| - 1];
      assert forall i :: 0 <= i < |front| ==> front[i] == s[i];
      FilterInAll(front, kept);
      assert s == front + [s[|s| - 1]];
    }
  }

  lemma {:induction false} FilterInNone(s: seq<string>, kept: seq<string>)
    requires forall i :: 0 <= i < |s| ==> s[i] !in kept
    ensures FilterIn(s, kept) == []
  {
    if s != [] {
      var front := s[..|s| - 1];
      assert forall i :: 0 <= i < |front| ==> front[i] == s[i];
      FilterInNone(front, kept);
    }
  }

  /** In a sequence without repeats, nothing outside a run occurs in it. */
  lemma {:induction false} RunApart(s: seq<string>, i: nat, j: nat)
    requires NoDup(s) && i <= j <= |s|
    ensures forall a :: 0 <= a < |s[..i]| ==> s[..i][a] !in s[i..j]
    ensures forall a :: 0 <= a < |s[j..]| ==> s[j..][a] !in s[i..j]
  {
    assert forall a :: 0 <= a < |s[j..]| ==> s[j..][a] == s[j + a];
  }

  /** Filtering a sequence without repeats by one of its own runs gives the
      run back. */
  lemma {:induction false} FilterInRun(s: seq<string>, i: nat, j: nat)
    requires NoDup(s) && i <= j <= |s|
    ensures FilterIn(s, s[i..j]) == s[i..j]
  {
    RunApart(s, i, j);
    FilterInSplit(s[..i], s[i..j], s[j..]);
    assert s == s[..i] + s[i..j] + s[j..];
  }

  lemma {:induction false} FilterInSplit(a: seq<string>, t: seq<string>, b: seq<string>)
    requires forall k :: 0 <= k < |a| ==> a[k] !in t
    requires forall k :: 0 <= k < |b| ==> b[k] !in t
    ensures FilterIn(a + t + b, t) == t
  {
    FilterInNone(a, t);
    FilterInNone(b, t);
    FilterInAll(t, t);
    FilterInAppend(a, t, t);
    FilterInAppend(a + t, b, t);
  }

  /** `OrderedDict([(k, v) for k, v in data.items() if k in set(kept)])`. */
  function SelectKeys(data: Dict<string, seq<string>>, kept: seq<string>): (r: Dict<string, seq<string>>)
  {
    Dict(FilterIn(data.keys, kept), map k | k in data.values && k in kept :: data.values[k])
  }

  lemma {:induction false} NoDupRun<T>(s: seq<T>, i: nat, j: nat)
    requires NoDup(s) && i <= j <= |s|
    ensures NoDup(s[i..j])
  {
    forall a, b | 0 <= a < b < j - i ensures s[i..j][a] != s[i..j][b] {
      assert s[i..j][a] == s[i + a] && s[i..j][b] == s[i + b];
    }
  }

  /** Selecting by a run of a valid dictionary's keys keeps exactly the keys
      of the run, in order, and gives a valid dictionary. */
  lemma {:induction false} SelectRun(data: Dict<string, seq<string>>, i: nat, j: nat)
    requires Valid(data) && i <= j <= |data.keys|
    ensures SelectKeys(data, data.keys[i..j]).keys == data.keys[i..j]
    ensures Valid(SelectKeys(data, data.keys[i..j]))
  {
    var kept := data.keys[i..j];
    var r := SelectKeys(data, kept);
    FilterInRun(data.keys, i, j);
    NoDupRun(data.keys, i, j);
    forall k ensures k in r.values <==> k in KeySet(kept) {
      KeySetMem(kept, k);
      Present(data, k);
    }
  }

  /** Keeping the front or back keys keeps exactly those keys, in their
      original order, each with its list of lines. */
  lemma {:induction false} SelectKeysSpec(data: Dict<string, seq<string>>, n: int, sel: Selection)
    requires Valid(data)
    ensures var r := SelectKeys(data, Pick(data.keys, n, sel));
      && Valid(r) && r.keys == Pick(data.keys, n, sel)
      && (forall k :: k in r.values ==> k in data.values && r.values[k] == data.values[k])
  {
    var kept := Pick(data.keys, n, sel);
    PickSpec(data.keys, n, sel);
    var i, j :| 0 <= i <= j <= |data.keys| && kept == data.keys[i..j];
    SelectRun(data, i, j);
  }

  /** `data` with every list of lines cut by `Pick`. */
  function PickValues(data: Dict<string, seq<string>>, n: int, sel: Selection): (r: Dict<string, seq<string>>)
    ensures Valid(data) ==> Valid(r)
    ensures forall k :: k in r.values <==> k in data.values
  {
    Dict(data.keys, map k | k in data.values :: Pick(data.values[k], n, sel))
  }

  /** The value loop of `main`: each key in order gets its lines cut. */
  method SelectValues(data: Dict<string, seq<string>>, n: int, sel: Selection) returns (outputs: Dict<string, seq<string>>)
    requires Valid(data)
    ensures outputs == PickValues(data, n, sel)
  {
    outputs := Empty();
    for i := 0 to |data.keys|
      invariant PickedUpTo(data, outputs, i, n, sel)
    {
      var k := data.keys[i];
      Present(data, k);
      var v := data.values[k];
      v := Pick(v, n, sel);
      PickedNext(data, outputs, i, n, sel);
      outputs := Put(outputs, k, v);
    }
    PickedAll(data, outputs, n, sel);
  }

  /** The state of the value loop after the first `i` keys. */
  ghost predicate PickedUpTo(data: Dict<string, seq<string>>, outputs: Dict<string, seq<string>>, i: nat, n: int, sel: Selection)
  {
    && Valid(data) && i <= |data.keys|
    && Valid(outputs) && outputs.keys == data.keys[..i]
    && forall k :: k in outputs.values ==> k in data.values && outputs.values[k] == Pick(data.values[k], n, sel)
  }

  lemma {:induction false} PickedNext(data: Dict<string, seq<string>>, outputs: Dict<string, seq<string>>, i: nat, n: int, sel: Selection)
    requires PickedUpTo(data, outputs, i, n, sel) && i < |data.keys|
    ensures data.keys[i] in data.values
    ensures PickedUpTo(data, Put(outputs, data.keys[i], Pick(data.values[data.keys[i]], n, sel)), i + 1, n, sel)
  {
    var k := data.keys[i];
    Present(data, k);
    var v := Pick(data.values[k], n, sel);
    Present(outputs, k);
    assert k !in data.keys[..i] by {
      assert forall x :: 0 <= x < i ==> data.keys[..i][x] == data.keys[x];
    }
    PutValid(outputs, k, v);
    assert data.keys[..i + 1] == data.keys[..i] + [k];
  }

  lemma {:induction false} PickedAll(data: Dict<string, seq<string>>, outputs: Dict<string, seq<string>>, n: int, sel: Selection)
    requires PickedUpTo(data, outputs, |data.keys|, n, sel)
    ensures outputs == PickValues(data, n, sel)
  {
    assert data.keys[..|data.keys|] == data.keys;
    forall k ensures k in outputs.values <==> k in data.values {
      Present(outputs, k);
      Present(data, k);
    }
    assert outputs.values == PickValues(data, n, sel).values;
  }

  // ---------------------------------------------------------------------
  // The whole script

  /** What the script writes, or the error it stops with. */
  function SampleSpec(lines: seq<string>, delim: char, field: nat, mode: Mode, keyNum: int, valueNum: int, sel: Selection): Result<seq<string>, SampleError>
  {
    var data :- Grouped(lines, Kind(delim, field));
    var byKey := if SelectsKeys(mode) then SelectKeys(data, Pick(data.keys, keyNum, sel)) else data;
    SelectKeysSpec(data, keyNum, sel);
    var byValue := if SelectsValues(mode) then PickValues(byKey, valueNum, sel) else byKey;
    Ok(Flatten(ValuesOf(byValue)))
  }

  /** `for values in data.values(): output.writelines(values)`. */
  method Emit(data: Dict<string, seq<string>>) returns (out: seq<string>)
    requires Valid(data)
    ensures out == Flatten(ValuesOf(data))
  {
    out := [];
    ghost var vs := ValuesOf(data);
    for i := 0 to |data.keys|
      invariant out == Flatten(vs[..i])
    {
      out := out + data.values[data.keys[i]];
      assert vs[..i + 1][..i] == vs[..i];
    }
    assert vs[..|data.keys|] == vs;
  }

  /** `main` with `--selection front` or `back`. */
  method Sample(lines: seq<string>, delim: char, field: nat, mode: Mode, keyNum: int, valueNum: int, sel: Selection)
    returns (r: Result<seq<string>, SampleError>)
    ensures r == SampleSpec(lines, delim, field, mode, keyNum, valueNum, sel)
  {
    var grouped := Group(lines, delim, field);
    if grouped.Err? {
      return Err(grouped.error);
    }
    var data := grouped.value;
    SelectKeysSpec(data, keyNum, sel);
    if mode == KeyMode || mode == Both {
      var keys := data.keys;
      keys := Pick(keys, keyNum, sel);
      data := SelectKeys(data, keys);
    }
    if mode == ValueMode || mode == Both {
      data := SelectValues(data, valueNum, sel);
    }
    var out := Emit(data);
    r := Ok(out);
  }

  /** The groups the script writes, in order: one per kept key, each that
      key's lines, cut when values are selected. */
  function Groups(lines: seq<string>, kind: string -> LineKind, keys: seq<string>, mode: Mode, valueNum: int, sel: Selection): (r: seq<seq<string>>)
    ensures |r| == |keys|
  {
    seq(|keys|, i requires 0 <= i < |keys| =>
      var ls := WithKey(lines, kind, keys[i]);
      if SelectsValues(mode) then Pick(ls, valueNum, sel) else ls)
  }

  /** The whole output: the kept keys are the first-appearance order of the
      keys, cut by `Pick` when keys are selected; the output is, for each
      kept key in that order, the lines with that key (cut by `Pick` when
      values are selected). */
  lemma {:induction false} SampleOutput(lines: seq<string>, delim: char, field: nat, mode: Mode, keyNum: int, valueNum: int, sel: Selection)
    requires SampleSpec(lines, delim, field, mode, keyNum, valueNum, sel).Ok?
    ensures var all := Distinct(KeysIn(lines, Kind(delim, field)));
      var keys := if SelectsKeys(mode) then Pick(all, keyNum, sel) else all;
      SampleSpec(lines, delim, field, mode, keyNum, valueNum, sel).value == Flatten(Groups(lines, Kind(delim, field), keys, mode, valueNum, sel))
  {
    var kind := Kind(delim, field);
    GroupedSpec(lines, kind);
    var data := Grouped(lines, kind).value;
    SelectKeysSpec(data, keyNum, sel);
    var byKey := if SelectsKeys(mode) then SelectKeys(data, Pick(data.keys, keyNum, sel)) else data;
    forall k | k in byKey.values ensures byKey.values[k] == WithKey(lines, kind, k) {
      assert GetOr(data, k, []) == WithKey(lines, kind, k);
    }
    EmitGroups(byKey, lines, kind, mode, valueNum, sel);
  }

  /** The values of a dictionary holding each key's lines, cut when values
      are selected, are the groups of its keys. */
  lemma {:induction false} EmitGroups(d: Dict<string, seq<string>>, lines: seq<string>, kind: string -> LineKind, mode: Mode, valueNum: int, sel: Selection)
    requires Valid(d) && forall k :: k in d.values ==> d.values[k] == WithKey(lines, kind, k)
    ensures var e := if SelectsValues(mode) then PickValues(d, valueNum, sel) else d;
      ValuesOf(e) == Groups(lines, kind, d.keys, mode, valueNum, sel)
  {
  }
}
