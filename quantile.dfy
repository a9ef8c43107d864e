/** The per-output work of ecl_quantile: parsing the `KEY:QUANTILE`
    column tokens, collecting for each axis time the values of the cases
    that cover it, sharing that sample vector between the columns of one
    row through a cache that is emptied after every row, and filling the
    rows x columns result matrix.

    The foreign pieces are parameters: `valueAt` is the value of a
    variable in a case at a time, `quantile` is the empirical quantile of
    a sample vector, `parseQ` is the parse of a number. */
module Quantiles {
  import opened Fallible
  import opened Text
  import opened Ensembles
  import opened Outputs

  /** The separator between the parts of a column token. */
  const SummaryJoin: char := ':'

  // ---------------------------------------------------------------
  // Column tokens

  /** The summary key and quantile level of one column. */
  datatype ColumnRequest = ColumnRequest(sumKey: string, quantile: real)

  datatype ColumnError =
    | MalformedKey(key: string)   // the token has no ':' at all
    | BadQuantile(text: string)   // the part after the last ':' is not a number

  /** Parses `KEY:QUANTILE`: the part after the last ':' is the quantile
      and everything before it, colons included, is the key. */
  function ParseColumnKey(key: string, parseQ: string -> Option<real>): (r: Result<ColumnRequest, ColumnError>)
    ensures r == Failure(MalformedKey(key)) <==> SummaryJoin !in key
    ensures r.Success? ==>
      var n := |r.value.sumKey|;
      && n < |key| && key[..n] == r.value.sumKey && key[n] == SummaryJoin
      && SummaryJoin !in key[n + 1..] && parseQ(key[n + 1..]) == Some(r.value.quantile)
    ensures r.Failure? && r.error.BadQuantile? ==>
      var n := |key| - |r.error.text|;
      && 0 < n && key[n..] == r.error.text && key[n - 1] == SummaryJoin
      && SummaryJoin !in r.error.text && parseQ(r.error.text) == None
  {
    var parts := Split(key, SummaryJoin);
    SplitSingle(key, SummaryJoin);
    SplitSegmentsFree(key, SummaryJoin);
    if |parts| == 1 then Failure(MalformedKey(key))
    else
      var sumKey := Join(parts[..|parts| - 1], SummaryJoin);
      var text := parts[|parts| - 1];
      assert key == sumKey + [SummaryJoin] + text by {
        JoinSplit(key, SummaryJoin);
        assert parts == parts[..|parts| - 1] + [text];
        JoinSnoc(parts[..|parts| - 1], text, SummaryJoin);
      }
      match parseQ(text)
      case None => Failure(BadQuantile(text))
      case Some(q) => Success(ColumnRequest(sumKey, q))
  }

  /** Any split of a token at a ':' after which no ':' follows determines
      the result of parsing it. */
  lemma ParseColumnKeyAtLastColon(key: string, sumKey: string, text: string, parseQ: string -> Option<real>)
    requires key == sumKey + [SummaryJoin] + text
    requires SummaryJoin !in text
    ensures ParseColumnKey(key, parseQ) ==
      if parseQ(text).Some? then Success(ColumnRequest(sumKey, parseQ(text).value))
      else Failure(BadQuantile(text))
  {
    var n := |sumKey|;
    assert key[n] == SummaryJoin && key[n + 1..] == text && key[..n] == sumKey;
    var r := ParseColumnKey(key, parseQ);
    if r.Success? {
      LastSeparatorUnique(key, SummaryJoin, |r.value.sumKey|, n);
    } else if r.error.BadQuantile? {
      LastSeparatorUnique(key, SummaryJoin, |key| - |r.error.text| - 1, n);
    }
  }

  /** Empty segments are kept: a doubled ':' leaves a ':' at the end of
      the key, and a leading ':' leaves the key empty. */
  lemma EmptySegmentsExample(parseQ: string -> Option<real>)
    ensures ParseColumnKey("A::0.5", parseQ) ==
      if parseQ("0.5").Some? then Success(ColumnRequest("A:", parseQ("0.5").value)) else Failure(BadQuantile("0.5"))
    ensures ParseColumnKey(":0.5", parseQ) ==
      if parseQ("0.5").Some? then Success(ColumnRequest("", parseQ("0.5").value)) else Failure(BadQuantile("0.5"))
  {
    ParseColumnKeyAtLastColon("A::0.5", "A:", "0.5", parseQ);
    ParseColumnKeyAtLastColon(":0.5", "", "0.5", parseQ);
  }

  /** The parsed columns of one output, in the order of its keys. */
  datatype Columns = Columns(sumKeys: seq<string>, quantiles: seq<real>)

  /** Parses every column token of an output in order and stops at the
      first one that fails. */
  method ParseColumns(keys: seq<string>, parseQ: string -> Option<real>) returns (r: Result<Columns, ColumnError>)
    ensures r.Success? ==>
      && |r.value.sumKeys| == |keys| && |r.value.quantiles| == |keys|
      && forall c :: 0 <= c < |keys| ==>
           ParseColumnKey(keys[c], parseQ) == Success(ColumnRequest(r.value.sumKeys[c], r.value.quantiles[c]))
    ensures r.Failure? ==> exists c ::
      && 0 <= c < |keys|
      && ParseColumnKey(keys[c], parseQ) == Failure(r.error)
      && forall d :: 0 <= d < c ==> ParseColumnKey(keys[d], parseQ).Success?
  {
    var sumKeys: seq<string> := [];
    var quantiles: seq<real> := [];
    var c := 0;
    while c < |keys|
      invariant 0 <= c <= |keys|
      invariant |sumKeys| == c && |quantiles| == c
      invariant forall d :: 0 <= d < c ==>
        ParseColumnKey(keys[d], parseQ) == Success(ColumnRequest(sumKeys[d], quantiles[d]))
    {
      var request := ParseColumnKey(keys[c], parseQ);
      if request.Failure? {
        return Failure(request.error);
      }
      sumKeys := sumKeys + [request.value.sumKey];
      quantiles := quantiles + [request.value.quantile];
      c := c + 1;
    }
    return Success(Columns(sumKeys, quantiles));
  }

  // ---------------------------------------------------------------
  // Sample vectors

  /** A case covers a time when the time lies in its simulated span,
      both ends included. */
  predicate Covers(sumCase: SumCase, t: int)
  {
    sumCase.startTime <= t <= sumCase.endTime
  }

  /** The values at time `t` of the cases that cover `t`, in ensemble order. */
  function Samples(cases: seq<SumCase>, key: string, t: int, valueAt: (SumCase, string, int) -> real): seq<real>
  {
    if cases == [] then []
    else
      var n := |cases| - 1;
      Samples(cases[..n], key, t, valueAt) + (if Covers(cases[n], t) then [valueAt(cases[n], key, t)] else [])
  }

  /** The positions of the cases that cover `t`: each covering case once,
      in increasing order, and no other case. */
  function CoveringIndices(cases: seq<SumCase>, t: int): (ix: seq<int>)
    ensures forall j :: 0 <= j < |ix| ==> 0 <= ix[j] < |cases| && Covers(cases[ix[j]], t)
    ensures forall i :: 0 <= i < |cases| && Covers(cases[i], t) ==> i in ix
    ensures forall j, k :: 0 <= j < k < |ix| ==> ix[j] < ix[k]
  {
    if cases == [] then []
    else
      var n := |cases| - 1;
      var prefix := cases[..n];
      var prev := CoveringIndices(prefix, t);
      assert forall i :: 0 <= i < n ==> prefix[i] == cases[i];
      if Covers(cases[n], t) then
        var ix := prev + [n];
        assert forall j :: 0 <= j < |prev| ==> ix[j] == prev[j];
        ix
      else
        prev
  }

  /** The sample vector holds exactly one value per covering case, taken
      from that case, in ensemble order. */
  lemma {:induction false} SamplesOfCoveringCases(cases: seq<SumCase>, key: string, t: int, valueAt: (SumCase, string, int) -> real)
    ensures |Samples(cases, key, t, valueAt)| == |CoveringIndices(cases, t)|
    ensures forall j :: 0 <= j < |CoveringIndices(cases, t)| ==>
      Samples(cases, key, t, valueAt)[j] == valueAt(cases[CoveringIndices(cases, t)[j]], key, t)
  {
    if cases != [] {
      var n := |cases| - 1;
      var prefix := cases[..n];
      SamplesOfCoveringCases(prefix, key, t, valueAt);
      var sp := Samples(prefix, key, t, valueAt);
      var ip := CoveringIndices(prefix, t);
      assert Samples(cases, key, t, valueAt) == sp + (if Covers(cases[n], t) then [valueAt(cases[n], key, t)] else []);
      assert CoveringIndices(cases, t) == ip + (if Covers(cases[n], t) then [n] else []);
      forall j | 0 <= j < |ip| ensures sp[j] == valueAt(cases[ip[j]], key, t) {
        assert prefix[ip[j]] == cases[ip[j]];
      }
    }
  }

  /** Collects the sample vector of one key at one time by going through
      the cases in order. */
  method CollectSamples(cases: seq<SumCase>, key: string, t: int, valueAt: (SumCase, string, int) -> real)
    returns (v: seq<real>)
    ensures v == Samples(cases, key, t, valueAt)
  {
    v := [];
    var iens := 0;
    while iens < |cases|
      invariant 0 <= iens <= |cases|
      invariant v == Samples(cases[..iens], key, t, valueAt)
    {
      var sumCase := cases[iens];
      if t >= sumCase.startTime && t <= sumCase.endTime {
        v := v + [valueAt(sumCase, key, t)];
      }
      assert cases[..iens + 1][..iens] == cases[..iens];
      iens := iens + 1;
    }
    assert cases[..iens] == cases;
  }

  // ---------------------------------------------------------------
  // The row loop

  /** A cache of sample vectors for one row: each holds either nothing
      yet or the samples of its key at time `t`. */
  ghost predicate CacheFor(cache: map<string, seq<real>>, t: int, cases: seq<SumCase>, valueAt: (SumCase, string, int) -> real)
  {
    forall k :: k in cache ==> cache[k] == [] || cache[k] == Samples(cases, k, t, valueAt)
  }

  /** Looks a key up in the row's cache, creating its vector when missing
      and filling it when it is empty. */
  method CachedSamples(cache: map<string, seq<real>>, sumKey: string, t: int,
                       cases: seq<SumCase>, valueAt: (SumCase, string, int) -> real)
    returns (interpData: seq<real>, next: map<string, seq<real>>)
    requires CacheFor(cache, t, cases, valueAt)
    ensures interpData == Samples(cases, sumKey, t, valueAt)
    ensures next == cache[sumKey := interpData]
    ensures next.Keys == cache.Keys + {sumKey}
    ensures CacheFor(next, t, cases, valueAt)
  {
    next := cache;
    if sumKey !in next {
      next := next[sumKey := []];
    }
    interpData := next[sumKey];
    if |interpData| == 0 {
      interpData := CollectSamples(cases, sumKey, t, valueAt);
      next := next[sumKey := interpData];
    }
  }

  /** Every cached vector reset to empty; the keys stay in the cache. */
  function ResetAll(cache: map<string, seq<real>>): (r: map<string, seq<real>>)
    ensures r.Keys == cache.Keys
    ensures forall k :: k in r ==> r[k] == []
  {
    map k | k in cache :: []
  }

  /** Fills entry `[row, c]` from the cached samples of `sumKey`. */
  method FillCell(data: array2<real>, row: int, c: int, t: int, sumKey: string, level: real,
                  cases: seq<SumCase>, valueAt: (SumCase, string, int) -> real, quantile: (seq<real>, real) -> real,
                  cache: map<string, seq<real>>)
    returns (interpData: seq<real>, next: map<string, seq<real>>)
    requires 0 <= row < data.Length0 && 0 <= c < data.Length1
    requires CacheFor(cache, t, cases, valueAt)
    modifies data
    ensures interpData == Samples(cases, sumKey, t, valueAt)
    ensures next == cache[sumKey := interpData]
    ensures next.Keys == cache.Keys + {sumKey}
    ensures CacheFor(next, t, cases, valueAt)
    ensures data[row, c] == quantile(interpData, level)
    ensures forall r, d :: 0 <= r < data.Length0 && 0 <= d < data.Length1 && (r != row || d != c) ==>
      data[r, d] == old(data[r, d])
  {
    interpData, next := CachedSamples(cache, sumKey, t, cases, valueAt);
    data[row, c] := quantile(interpData, level);
  }

  /** Fills row `row` of the matrix for time `t`. A key's cached vector is
      created empty when missing and filled only while empty, so columns
      sharing a key read the same vector; after the row every cached
      vector is reset to empty. `used[c]` is the vector column `c` read. */
  method FillRow(data: array2<real>, row: int, t: int, sumKeys: seq<string>, quantiles: seq<real>,
                 cases: seq<SumCase>, valueAt: (SumCase, string, int) -> real, quantile: (seq<real>, real) -> real,
                 cache: map<string, seq<real>>)
    returns (next: map<string, seq<real>>, ghost used: seq<seq<real>>)
    requires 0 <= row < data.Length0 && data.Length1 == |sumKeys| == |quantiles|
    requires forall k :: k in cache ==> cache[k] == []
    modifies data
    ensures forall c :: 0 <= c < |sumKeys| ==> sumKeys[c] in next
    ensures forall k :: k in next ==> next[k] == []
    ensures |used| == |sumKeys|
    ensures forall c :: 0 <= c < |sumKeys| ==>
      used[c] == Samples(cases, sumKeys[c], t, valueAt) && data[row, c] == quantile(used[c], quantiles[c])
    ensures forall r, c :: 0 <= r < data.Length0 && r != row && 0 <= c < data.Length1 ==> data[r, c] == old(data[r, c])
  {
    var current := cache;
    used := [];
    var c := 0;
    while c < |sumKeys|
      invariant 0 <= c <= |sumKeys| && |used| == c
      invariant forall d :: 0 <= d < c ==> sumKeys[d] in current
      invariant CacheFor(current, t, cases, valueAt)
      invariant forall d :: 0 <= d < c ==> used[d] == Samples(cases, sumKeys[d], t, valueAt)
      invariant forall d :: 0 <= d < c ==> data[row, d] == quantile(used[d], quantiles[d])
      invariant forall r, d :: 0 <= r < data.Length0 && r != row && 0 <= d < data.Length1 ==> data[r, d] == old(data[r, d])
    {
      var interpData;
      interpData, current := FillCell(data, row, c, t, sumKeys[c], quantiles[c], cases, valueAt, quantile, current);
      used := used + [interpData];
      c := c + 1;
    }
    next := ResetAll(current);
  }

  /** The result matrix: one row per axis time, one column per parsed
      column. Entry `[r, c]` is the quantile at level `quantiles[c]` of the
      samples of `sumKeys[c]` at `axis[r]`; `used[r][c]` is the sample
      vector it was computed from. */
  method Resample(axis: seq<int>, sumKeys: seq<string>, quantiles: seq<real>, cases: seq<SumCase>,
                  valueAt: (SumCase, string, int) -> real, quantile: (seq<real>, real) -> real)
    returns (data: array2<real>, ghost used: seq<seq<seq<real>>>)
    requires |sumKeys| == |quantiles|
    ensures fresh(data)
    ensures data.Length0 == |axis| && data.Length1 == |sumKeys|
    ensures |used| == |axis|
    ensures forall r :: 0 <= r < |axis| ==> |used[r]| == |sumKeys|
    ensures forall r, c :: 0 <= r < |axis| && 0 <= c < |sumKeys| ==>
      used[r][c] == Samples(cases, sumKeys[c], axis[r], valueAt) && data[r, c] == quantile(used[r][c], quantiles[c])
  {
    data := new real[|axis|, |sumKeys|];
    var cache: map<string, seq<real>> := map[];
    used := [];
    var row := 0;
    while row < |axis|
      invariant 0 <= row <= |axis| && |used| == row
      invariant forall k :: k in cache ==> cache[k] == []
      invariant forall r :: 0 <= r < row ==> |used[r]| == |sumKeys|
      invariant forall r, c :: 0 <= r < row && 0 <= c < |sumKeys| ==>
        used[r][c] == Samples(cases, sumKeys[c], axis[r], valueAt) && data[r, c] == quantile(used[r][c], quantiles[c])
    {
      ghost var rowUsed;
      cache, rowUsed := FillRow(data, row, axis[row], sumKeys, quantiles, cases, valueAt, quantile, cache);
      used := used + [rowUsed];
      row := row + 1;
    }
  }

  /** What one output line hands to its writer. */
  datatype LineResult = LineResult(columns: Columns, data: array2<real>, writer: Writer)

  /** Runs one declared output against the ensemble: parses its column
      tokens (stopping at the first bad one), fills the matrix over the
      ensemble's time axis, and chooses the writer of its format. */
  method RunLine(output: OutputSpec, ensemble: Ensemble, parseQ: string -> Option<real>,
                 valueAt: (SumCase, string, int) -> real, quantile: (seq<real>, real) -> real)
    returns (r: Result<LineResult, ColumnError>)
    ensures r.Success? <==> forall c :: 0 <= c < |output.keys| ==> ParseColumnKey(output.keys[c], parseQ).Success?
    ensures r.Failure? ==> exists c ::
      && 0 <= c < |output.keys|
      && ParseColumnKey(output.keys[c], parseQ) == Failure(r.error)
      && forall d :: 0 <= d < c ==> ParseColumnKey(output.keys[d], parseQ).Success?
    ensures r.Success? ==>
      var cols := r.value.columns;
      var data := r.value.data;
      && |cols.sumKeys| == |output.keys| && |cols.quantiles| == |output.keys|
      && (forall c :: 0 <= c < |output.keys| ==>
            ParseColumnKey(output.keys[c], parseQ) == Success(ColumnRequest(cols.sumKeys[c], cols.quantiles[c])))
      && data.Length0 == |ensemble.interpTime| && data.Length1 == |output.keys|
      && (forall row, c :: 0 <= row < data.Length0 && 0 <= c < data.Length1 ==>
            data[row, c] == quantile(Samples(ensemble.data, cols.sumKeys[c], ensemble.interpTime[row], valueAt), cols.quantiles[c]))
      && Some(r.value.writer) == Dispatch(FormatCode(output.format))
    ensures r.Success? ==> fresh(r.value.data)
  {
    var parsed := ParseColumns(output.keys, parseQ);
    if parsed.Failure? {
      return Failure(parsed.error);
    }
    var cols := parsed.value;
    var data, used := Resample(ensemble.interpTime, cols.sumKeys, cols.quantiles, ensemble.data, valueAt, quantile);
    DispatchFormat(output.format);
    r := Success(LineResult(cols, data, Dispatch(FormatCode(output.format)).value));
  }
}
