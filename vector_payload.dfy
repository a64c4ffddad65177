/**
 * The vector helpers (src/vectorai/vectorPayload.js): a 32-bit string hash,
 * a 12-dimensional embedding of the physiological metrics, cosine
 * similarity, the event window sent to the vector store and the ranking
 * of the library cases by similarity. `Math.sqrt` is a parameter; numbers
 * are exact reals.
 */
module VectorPayload {
  import opened JsValues

  // ------------------------------------------------------------------
  // 32-bit integers and UTF-16
  // ------------------------------------------------------------------

  const Two31: int := 0x8000_0000
  const Two32: int := 0x1_0000_0000

  /** JavaScript's ToInt32: the signed 32-bit integer congruent to `x` modulo 2^32. */
  function ToInt32(x: int): (r: int)
    ensures -Two31 <= r < Two31
    ensures (x - r) % Two32 == 0
  {
    (x + Two31) % Two32 - Two31
  }

  /** ToInt32 only sees `x` modulo 2^32. */
  lemma {:induction false} ToInt32Congruent(x: int, y: int, k: int)
    requires x - y == k * Two32
    ensures ToInt32(x) == ToInt32(y)
  {
    var q := (y + Two31) / Two32;
    var r := (y + Two31) % Two32;
    assert x + Two31 == (q + k) * Two32 + r;
  }

  function Abs(x: int): (r: nat)
    ensures r == x || r == -x
  {
    if x < 0 then -x else x
  }

  /** The code units `charCodeAt` reads: one per character of the basic plane, a surrogate pair otherwise. */
  function Utf16Units(s: string): (units: seq<int>)
    ensures |units| >= |s|
    ensures forall i :: 0 <= i < |units| ==> 0 <= units[i] < 0x1_0000
    ensures (forall i :: 0 <= i < |s| ==> (s[i] as int) < 0x1_0000) ==>
      |units| == |s| && forall i :: 0 <= i < |s| ==> units[i] == s[i] as int
    decreases |s|
  {
    if s == [] then []
    else
      var c := s[0] as int;
      var rest := Utf16Units(s[1..]);
      if c < 0x1_0000 then [c] + rest
      else [0xD800 + (c - 0x1_0000) / 0x400, 0xDC00 + (c - 0x1_0000) % 0x400] + rest
  }

  // ------------------------------------------------------------------
  // stableHash
  // ------------------------------------------------------------------

  /** One loop step: `((hash << 5) - hash) + code`, then `hash |= 0`. */
  function HashStep(hash: int, code: int): int
  {
    ToInt32(ToInt32(hash * 32) - hash + code)
  }

  /** The signed hash after the loop has read `units`. */
  function HashUnits(units: seq<int>): (h: int)
    ensures -Two31 <= h < Two31
    decreases |units|
  {
    if units == [] then 0 else HashStep(HashUnits(units[..|units| - 1]), units[|units| - 1])
  }

  /** The polynomial the hash stands for: the units as digits in base 31. */
  function Polynomial(units: seq<int>): int
    decreases |units|
  {
    if units == [] then 0 else 31 * Polynomial(units[..|units| - 1]) + units[|units| - 1]
  }

  /** The wrapping loop computes the base-31 polynomial of the code units, reduced to 32 signed bits. */
  lemma {:induction false} HashIsPolynomial(units: seq<int>)
    ensures HashUnits(units) == ToInt32(Polynomial(units))
    decreases |units|
  {
    if units != [] {
      var prefix := units[..|units| - 1];
      var c := units[|units| - 1];
      var h := HashUnits(prefix);
      var p := Polynomial(prefix);
      HashIsPolynomial(prefix);
      var k := (p - h) / Two32;
      assert p - h == k * Two32;
      var s := ToInt32(h * 32);
      var j := (h * 32 - s) / Two32;
      assert h * 32 - s == j * Two32;
      assert 31 * p + c - (s - h + c) == (31 * k + j) * Two32;
      ToInt32Congruent(31 * p + c, s - h + c, 31 * k + j);
    }
  }

  /** The specification of `stableHash`: the magnitude of the signed hash of the code units. */
  function StableHashOf(input: string): (h: nat)
    ensures h <= Two31
  {
    Abs(HashUnits(Utf16Units(input)))
  }

  /** `stableHash`: the loop over the code units, then `Math.abs`. */
  method StableHash(input: string) returns (result: nat)
    ensures result == StableHashOf(input)
    ensures result <= Two31
  {
    var units := Utf16Units(input);
    var hash := 0;
    var i := 0;
    while i < |units|
      invariant 0 <= i <= |units|
      invariant hash == HashUnits(units[..i])
    {
      assert units[..i + 1][..i] == units[..i];
      hash := ToInt32(ToInt32(hash * 32) - hash + units[i]);
      i := i + 1;
    }
    assert units[..i] == units;
    result := Abs(hash);
  }

  /** The empty text hashes to 0, a single basic-plane character to its code, and 2^31 is reached only from -2^31. */
  lemma {:induction false} StableHashValues(c: char)
    requires (c as int) < 0x1_0000
    ensures StableHashOf("") == 0
    ensures StableHashOf([c]) == c as int
    ensures forall s: string :: StableHashOf(s) == Two31 ==> HashUnits(Utf16Units(s)) == -Two31
  {
    var u := Utf16Units([c]);
    assert u == [c as int];
    assert u[..0] == [];
    assert HashUnits(u) == HashStep(0, c as int);
  }

  // ------------------------------------------------------------------
  // buildEmbeddingFromMetrics
  // ------------------------------------------------------------------

  datatype Metric = Metric(key: string, value: Number)

  /** The length of the embedding. */
  const Dims := 12

  /** The share of a metric added to its position bucket. */
  const PositionWeight: real := 0.35

  /** Lexicographic order on code-unit sequences: the order of the default `sort`. */
  predicate UnitsLeq(a: seq<int>, b: seq<int>)
    decreases |a|
  {
    a == [] || (b != [] && (a[0] < b[0] || (a[0] == b[0] && UnitsLeq(a[1..], b[1..]))))
  }

  lemma {:induction false} UnitsLeqTotal(a: seq<int>, b: seq<int>)
    ensures UnitsLeq(a, b) || UnitsLeq(b, a)
    decreases |a|
  {
    if a != [] && b != [] && a[0] == b[0] {
      UnitsLeqTotal(a[1..], b[1..]);
    }
  }

  predicate KeyLeq(a: string, b: string)
  {
    UnitsLeq(Utf16Units(a), Utf16Units(b))
  }

  /** Each key is at most the one after it. */
  predicate KeysSorted(keys: seq<string>)
  {
    forall i :: 0 <= i < |keys| - 1 ==> KeyLeq(keys[i], keys[i + 1])
  }

  function InsertKey(sorted: seq<string>, key: string): (r: seq<string>)
    requires KeysSorted(sorted)
    ensures multiset(r) == multiset(sorted) + multiset{key}
    ensures KeysSorted(r)
    ensures |r| == |sorted| + 1
    ensures r[0] == key || (sorted != [] && r[0] == sorted[0])
    decreases |sorted|
  {
    if sorted == [] then [key]
    else if KeyLeq(key, sorted[0]) then [key] + sorted
    else
      UnitsLeqTotal(Utf16Units(key), Utf16Units(sorted[0]));
      var rest := InsertKey(sorted[1..], key);
      assert sorted == [sorted[0]] + sorted[1..];
      [sorted[0]] + rest
  }

  /** `Object.keys(metrics).sort()`: the keys in code-unit order. */
  function SortKeys(keys: seq<string>): (r: seq<string>)
    ensures multiset(r) == multiset(keys)
    ensures KeysSorted(r)
    decreases |keys|
  {
    if keys == [] then []
    else
      assert keys == keys[..|keys| - 1] + [keys[|keys| - 1]];
      InsertKey(SortKeys(keys[..|keys| - 1]), keys[|keys| - 1])
  }

  function KeysOf(metrics: seq<Metric>): (keys: seq<string>)
    ensures |keys| == |metrics|
    ensures forall i :: 0 <= i < |metrics| ==> keys[i] == metrics[i].key
  {
    seq(|metrics|, i requires 0 <= i < |metrics| => metrics[i].key)
  }

  /** `Number(metrics[key] || 0)`: a missing value, 0 or NaN count as 0. */
  function RawValue(metrics: seq<Metric>, key: string): (raw: real)
    ensures (forall i :: 0 <= i < |metrics| ==> metrics[i].key != key) ==> raw == 0.0
    decreases |metrics|
  {
    if metrics == [] then 0.0
    else if metrics[0].key == key then (if metrics[0].value.Finite? then metrics[0].value.value else 0.0)
    else RawValue(metrics[1..], key)
  }

  /** The bucket a key's hash selects. */
  function Bucket(key: string): (b: nat)
    ensures b < Dims
  {
    StableHashOf(key) % Dims
  }

  /** One `forEach` step: the raw value to the hash bucket, 0.35 of it to the position bucket. */
  function AddMetric(vec: seq<real>, key: string, idx: nat, raw: real): (r: seq<real>)
    requires |vec| == Dims
    ensures |r| == Dims
  {
    var seeded := vec[Bucket(key) := vec[Bucket(key)] + raw];
    seeded[idx % Dims := seeded[idx % Dims] + raw * PositionWeight]
  }

  function Zeros(n: nat): (z: seq<real>)
    ensures |z| == n && forall i :: 0 <= i < n ==> z[i] == 0.0
  {
    seq(n, _ => 0.0)
  }

  /** The vector before normalisation, after the keys have been read in order. */
  function Accumulate(keys: seq<string>, metrics: seq<Metric>): (vec: seq<real>)
    ensures |vec| == Dims
    decreases |keys|
  {
    if keys == [] then Zeros(Dims)
    else
      var n := |keys| - 1;
      AddMetric(Accumulate(keys[..n], metrics), keys[n], n, RawValue(metrics, keys[n]))
  }

  function Sum(v: seq<real>): real
    decreases |v|
  {
    if v == [] then 0.0 else Sum(v[..|v| - 1]) + v[|v| - 1]
  }

  lemma {:induction false} SumUpdate(v: seq<real>, i: nat, d: real)
    requires i < |v|
    ensures Sum(v[i := v[i] + d]) == Sum(v) + d
    decreases |v|
  {
    var w := v[i := v[i] + d];
    var n := |v| - 1;
    assert w[..n] == (if i < n then v[..n][i := v[i] + d] else v[..n]);
    if i < n {
      SumUpdate(v[..n], i, d);
    }
  }

  lemma {:induction false} SumZeros(n: nat)
    ensures Sum(Zeros(n)) == 0.0
  {
    if n > 0 {
      assert Zeros(n)[..n - 1] == Zeros(n - 1);
      SumZeros(n - 1);
    }
  }

  /** The sum of the raw values of the keys. */
  function RawTotal(keys: seq<string>, metrics: seq<Metric>): real
    decreases |keys|
  {
    if keys == [] then 0.0 else RawTotal(keys[..|keys| - 1], metrics) + RawValue(metrics, keys[|keys| - 1])
  }

  lemma {:induction false} AddMetricMass(vec: seq<real>, key: string, idx: nat, raw: real)
    requires |vec| == Dims
    ensures Sum(AddMetric(vec, key, idx, raw)) == Sum(vec) + raw + raw * PositionWeight
  {
    var seeded := vec[Bucket(key) := vec[Bucket(key)] + raw];
    SumUpdate(vec, Bucket(key), raw);
    SumUpdate(seeded, idx % Dims, raw * PositionWeight);
  }

  /** Before normalisation the buckets hold 1.35 times the total of the raw values: each counted once by hash, 0.35 by position. */
  lemma {:induction false} AccumulateMass(keys: seq<string>, metrics: seq<Metric>)
    ensures Sum(Accumulate(keys, metrics)) == (1.0 + PositionWeight) * RawTotal(keys, metrics)
    decreases |keys|
  {
    if keys == [] {
      SumZeros(Dims);
    } else {
      var n := |keys| - 1;
      var prev := Accumulate(keys[..n], metrics);
      var raw := RawValue(metrics, keys[n]);
      AccumulateMass(keys[..n], metrics);
      AddMetricMass(prev, keys[n], n, raw);
    }
  }

  /** A metric whose value is 0, NaN or missing leaves every bucket as it was. */
  lemma {:induction false} ZeroMetricNoEffect(vec: seq<real>, key: string, idx: nat)
    requires |vec| == Dims
    ensures AddMetric(vec, key, idx, 0.0) == vec
  {
    var seeded := vec[Bucket(key) := vec[Bucket(key)] + 0.0];
    assert seeded == vec;
  }

  function SumSquares(v: seq<real>): (s: real)
    ensures s >= 0.0
    decreases |v|
  {
    if v == [] then 0.0 else SumSquares(v[..|v| - 1]) + v[|v| - 1] * v[|v| - 1]
  }

  /** `Math.sqrt(sum of squares) || 1`: a zero norm is replaced by 1. */
  function Norm(vec: seq<real>, sqrt: real -> real): (n: real)
    ensures n != 0.0
  {
    var root := sqrt(SumSquares(vec));
    if root == 0.0 then 1.0 else root
  }

  /** Each bucket divided by the norm, to five decimals. */
  function Normalise(vec: seq<real>, sqrt: real -> real): (r: seq<real>)
    ensures |r| == |vec|
    ensures forall i :: 0 <= i < |vec| ==> r[i] == ToFixed(vec[i] / Norm(vec, sqrt), 5)
  {
    seq(|vec|, i requires 0 <= i < |vec| => ToFixed(vec[i] / Norm(vec, sqrt), 5))
  }

  lemma {:induction false} AccumulateSnoc(keys: seq<string>, metrics: seq<Metric>, idx: nat)
    requires idx < |keys|
    ensures Accumulate(keys[..idx + 1], metrics)
      == AddMetric(Accumulate(keys[..idx], metrics), keys[idx], idx, RawValue(metrics, keys[idx]))
  {
    assert keys[..idx + 1][..idx] == keys[..idx];
  }

  /** The metrics object, `{}` when absent. */
  function MetricsOrEmpty(metrics: Option<seq<Metric>>): seq<Metric>
  {
    if metrics.Some? then metrics.value else []
  }

  /** The specification of `buildEmbeddingFromMetrics`. */
  function EmbeddingOf(metrics: Option<seq<Metric>>, sqrt: real -> real): (e: seq<real>)
    ensures |e| == Dims
  {
    var m := MetricsOrEmpty(metrics);
    Normalise(Accumulate(SortKeys(KeysOf(m)), m), sqrt)
  }

  /**
   * `buildEmbeddingFromMetrics`: a 12-bucket array filled key by key in
   * sorted order, then normalised.
   */
  method BuildEmbeddingFromMetrics(metrics: Option<seq<Metric>>, sqrt: real -> real) returns (embedding: seq<real>)
    ensures embedding == EmbeddingOf(metrics, sqrt)
    ensures |embedding| == Dims
  {
    var m := MetricsOrEmpty(metrics);
    var vec := FillBuckets(SortKeys(KeysOf(m)), m);
    embedding := Normalise(vec[..], sqrt);
  }

  /** `vec[seed] += raw; vec[idx % dims] += raw * 0.35`. */
  method AddToBuckets(vec: array<real>, key: string, seed: nat, idx: nat, raw: real)
    requires vec.Length == Dims && seed == Bucket(key)
    modifies vec
    ensures vec[..] == AddMetric(old(vec[..]), key, idx, raw)
  {
    ghost var before := vec[..];
    vec[seed] := vec[seed] + raw;
    ghost var seeded := vec[..];
    assert seeded == before[seed := before[seed] + raw];
    var position := idx % Dims;
    vec[position] := vec[position] + raw * PositionWeight;
    assert vec[..] == seeded[position := seeded[position] + raw * PositionWeight];
  }

  /** The `forEach` over the sorted keys, on a fresh array of 12 zeros. */
  method FillBuckets(keys: seq<string>, m: seq<Metric>) returns (vec: array<real>)
    ensures fresh(vec) && vec[..] == Accumulate(keys, m)
  {
    vec := new real[Dims](_ => 0.0);
    assert vec[..] == Zeros(Dims);
    for idx := 0 to |keys|
      invariant vec.Length == Dims
      invariant vec[..] == Accumulate(keys[..idx], m)
    {
      var key := keys[idx];
      var raw := RawValue(m, key);
      var hash := StableHash(key);
      var seed := hash % Dims;
      AddToBuckets(vec, key, seed, idx, raw);
      AccumulateSnoc(keys, m, idx);
    }
    assert keys[..|keys|] == keys;
  }

  /** Without metrics every bucket is 0, whatever the square root returns. */
  lemma {:induction false} NoMetricsZeroEmbedding(sqrt: real -> real)
    ensures EmbeddingOf(None, sqrt) == Zeros(Dims)
    ensures EmbeddingOf(Some([]), sqrt) == Zeros(Dims)
  {
    var e := EmbeddingOf(None, sqrt);
    forall i | 0 <= i < Dims ensures e[i] == 0.0 {
      assert Zeros(Dims)[i] / Norm(Zeros(Dims), sqrt) == 0.0;
      assert FixedUnits(0.0, Pow10(5) as real) == 0;
    }
  }

  // ------------------------------------------------------------------
  // cosineSimilarity
  // ------------------------------------------------------------------

  function Dot(a: seq<real>, b: seq<real>): real
    requires |a| == |b|
    decreases |a|
  {
    if a == [] then 0.0 else Dot(a[..|a| - 1], b[..|b| - 1]) + a[|a| - 1] * b[|b| - 1]
  }

  lemma {:induction false} DotSymmetric(a: seq<real>, b: seq<real>)
    requires |a| == |b|
    ensures Dot(a, b) == Dot(b, a)
    decreases |a|
  {
    if a != [] {
      DotSymmetric(a[..|a| - 1], b[..|b| - 1]);
    }
  }

  lemma {:induction false} DotSnoc(a: seq<real>, b: seq<real>, i: nat)
    requires i < |a| == |b|
    ensures Dot(a[..i + 1], b[..i + 1]) == Dot(a[..i], b[..i]) + a[i] * b[i]
  {
    assert a[..i + 1][..i] == a[..i] && b[..i + 1][..i] == b[..i];
  }

  /** The specification of `cosineSimilarity`: 0 unless both are non-empty and of one length. */
  function Cosine(a: seq<real>, b: seq<real>, sqrt: real -> real): real
  {
    if |a| == 0 || |b| == 0 || |a| != |b| then 0.0
    else ToFixed(Dot(a, b) / Denominator(Dot(a, a), Dot(b, b), sqrt), 5)
  }

  /** `(Math.sqrt(na) * Math.sqrt(nb)) || 1`. */
  function Denominator(na: real, nb: real, sqrt: real -> real): (d: real)
    ensures d != 0.0
  {
    if sqrt(na) * sqrt(nb) == 0.0 then 1.0 else sqrt(na) * sqrt(nb)
  }

  /** `cosineSimilarity`: the guard, then one loop for the dot product and both squared norms. */
  method CosineSimilarity(a: seq<real>, b: seq<real>, sqrt: real -> real) returns (similarity: real)
    ensures similarity == Cosine(a, b, sqrt)
    ensures |a| == 0 || |b| == 0 || |a| != |b| ==> similarity == 0.0
  {
    if |a| == 0 || |b| == 0 || |a| != |b| {
      return 0.0;
    }
    var dot, na, nb := 0.0, 0.0, 0.0;
    var i := 0;
    while i < |a|
      invariant 0 <= i <= |a|
      invariant dot == Dot(a[..i], b[..i]) && na == Dot(a[..i], a[..i]) && nb == Dot(b[..i], b[..i])
    {
      DotSnoc(a, b, i);
      DotSnoc(a, a, i);
      DotSnoc(b, b, i);
      dot := dot + a[i] * b[i];
      na := na + a[i] * a[i];
      nb := nb + b[i] * b[i];
      i := i + 1;
    }
    assert a[..i] == a && b[..i] == b;
    assert dot == Dot(a, b) && na == Dot(a, a) && nb == Dot(b, b);
    var product := sqrt(na) * sqrt(nb);
    var denom := if product == 0.0 then 1.0 else product;
    assert denom == Denominator(na, nb, sqrt);
    similarity := ToFixed(dot / denom, 5);
  }

  /** Similarity does not depend on the order of its arguments. */
  lemma {:induction false} CosineSymmetric(a: seq<real>, b: seq<real>, sqrt: real -> real)
    ensures Cosine(a, b, sqrt) == Cosine(b, a, sqrt)
  {
    if |a| == |b| && |a| > 0 {
      DotSymmetric(a, b);
    }
  }

  // ------------------------------------------------------------------
  // buildVectorEventWindow
  // ------------------------------------------------------------------

  datatype ModalityCounts = ModalityCounts(physiological: nat, calls: nat, sms: nat)

  datatype VectorEvent = VectorEvent(
    schemaVersion: string, timestamp: string, riskTier: int, modalityCounts: ModalityCounts,
    embedding: seq<real>, source: string, normalization: string)

  const SchemaVersion := "vector-event-v1"

  /**
   * `buildVectorEventWindow`: the embedding of the metrics, the counts of
   * metric keys, calls and messages (absent lists count 0), and the tier,
   * 0 when not given.
   */
  method BuildVectorEventWindow<C, S>(
    metrics: Option<seq<Metric>>, callLogs: Option<seq<C>>, smsLogs: Option<seq<S>>,
    riskTier: Option<int>, timestamp: string, sqrt: real -> real) returns (event: VectorEvent)
    ensures event.schemaVersion == SchemaVersion && event.timestamp == timestamp
    ensures event.riskTier == (if riskTier.Some? then riskTier.value else 0)
    ensures event.modalityCounts.physiological == |MetricsOrEmpty(metrics)|
    ensures event.modalityCounts.calls == (if callLogs.Some? then |callLogs.value| else 0)
    ensures event.modalityCounts.sms == (if smsLogs.Some? then |smsLogs.value| else 0)
    ensures event.embedding == EmbeddingOf(metrics, sqrt) && |event.embedding| == Dims
  {
    var embedding := BuildEmbeddingFromMetrics(metrics, sqrt);
    var counts := ModalityCounts(
      |KeysOf(MetricsOrEmpty(metrics))|,
      if callLogs.Some? then |callLogs.value| else 0,
      if smsLogs.Some? then |smsLogs.value| else 0);
    event := VectorEvent(SchemaVersion, timestamp, if riskTier.Some? then riskTier.value else 0, counts,
      embedding, "mindtrace-demo", "z-score-baseline-relative");
  }

  // ------------------------------------------------------------------
  // findMostSimilarCases
  // ------------------------------------------------------------------

  datatype LibraryCase = LibraryCase(id: string, intervention: string, embedding: seq<real>)

  datatype ScoredCase = ScoredCase(id: string, intervention: string, embedding: seq<real>, similarity: real)

  const Library: seq<LibraryCase> := [
    LibraryCase("case-sleep-fragmentation", "Prioritize sleep stabilization and daylight routine",
      [0.31, 0.24, 0.1, 0.29, 0.07, 0.15, 0.42, 0.3, 0.22, 0.16, 0.2, 0.11]),
    LibraryCase("case-social-withdrawal", "Prompt trusted contact check-in and activity scheduling",
      [0.14, 0.39, 0.21, 0.1, 0.28, 0.33, 0.19, 0.2, 0.16, 0.22, 0.11, 0.31]),
    LibraryCase("case-recovery-positive", "Reinforce protective habits and consistency tracking",
      [0.08, 0.15, 0.35, 0.12, 0.31, 0.1, 0.11, 0.18, 0.41, 0.34, 0.2, 0.24])]

  /** `{ ...item, similarity }` for each case, in library order. */
  function ScoreAll(cases: seq<LibraryCase>, current: seq<real>, sqrt: real -> real): (r: seq<ScoredCase>)
    ensures |r| == |cases|
    ensures forall i :: 0 <= i < |cases| ==>
      r[i] == ScoredCase(cases[i].id, cases[i].intervention, cases[i].embedding, Cosine(current, cases[i].embedding, sqrt))
  {
    seq(|cases|, i requires 0 <= i < |cases| =>
      ScoredCase(cases[i].id, cases[i].intervention, cases[i].embedding, Cosine(current, cases[i].embedding, sqrt)))
  }

  /** Each case is at least as similar as the one after it. */
  predicate NonIncreasing(cases: seq<ScoredCase>)
  {
    forall i :: 0 <= i < |cases| - 1 ==> cases[i].similarity >= cases[i + 1].similarity
  }

  /** Inserts after every case at least as similar, so equal similarities keep their order. */
  function InsertBySimilarity(sorted: seq<ScoredCase>, c: ScoredCase): (r: seq<ScoredCase>)
    requires NonIncreasing(sorted)
    ensures multiset(r) == multiset(sorted) + multiset{c}
    ensures NonIncreasing(r)
    ensures r[0] == c || (sorted != [] && r[0] == sorted[0])
    decreases |sorted|
  {
    if sorted == [] then [c]
    else if c.similarity > sorted[0].similarity then [c] + sorted
    else
      assert sorted == [sorted[0]] + sorted[1..];
      [sorted[0]] + InsertBySimilarity(sorted[1..], c)
  }

  /** `.sort((a, b) => b.similarity - a.similarity)`: a stable sort, most similar first. */
  function SortBySimilarity(cases: seq<ScoredCase>): (r: seq<ScoredCase>)
    ensures multiset(r) == multiset(cases)
    ensures NonIncreasing(r)
    decreases |cases|
  {
    if cases == [] then []
    else
      assert cases == cases[..|cases| - 1] + [cases[|cases| - 1]];
      InsertBySimilarity(SortBySimilarity(cases[..|cases| - 1]), cases[|cases| - 1])
  }

  /** `findMostSimilarCases`: every library case scored against the embedding, most similar first. */
  method FindMostSimilarCases(current: seq<real>, sqrt: real -> real) returns (ranked: seq<ScoredCase>)
    ensures ranked == SortBySimilarity(ScoreAll(Library, current, sqrt))
    ensures |ranked| == |Library| && NonIncreasing(ranked)
    ensures multiset(ranked) == multiset(ScoreAll(Library, current, sqrt))
  {
    var scored: seq<ScoredCase> := [];
    for i := 0 to |Library|
      invariant scored == ScoreAll(Library[..i], current, sqrt)
    {
      var item := Library[i];
      var similarity := CosineSimilarity(current, item.embedding, sqrt);
      scored := scored + [ScoredCase(item.id, item.intervention, item.embedding, similarity)];
    }
    assert Library[..|Library|] == Library;
    ranked := SortBySimilarity(scored);
    assert |multiset(ranked)| == |multiset(scored)|;
  }

  /** A case no more similar than everything already ranked goes to the end. */
  lemma {:induction false} InsertLeastAtEnd(sorted: seq<ScoredCase>, c: ScoredCase)
    requires NonIncreasing(sorted)
    requires forall i :: 0 <= i < |sorted| ==> sorted[i].similarity >= c.similarity
    ensures InsertBySimilarity(sorted, c) == sorted + [c]
    decreases |sorted|
  {
    if sorted != [] {
      InsertLeastAtEnd(sorted[1..], c);
      assert sorted == [sorted[0]] + sorted[1..];
    }
  }

  /** The sort is stable: cases that are all equally similar keep the library order. */
  lemma {:induction false} EqualSimilarityKeepsOrder(cases: seq<ScoredCase>)
    requires forall i, j :: 0 <= i < |cases| && 0 <= j < |cases| ==> cases[i].similarity == cases[j].similarity
    ensures SortBySimilarity(cases) == cases
    decreases |cases|
  {
    if cases != [] {
      var n := |cases| - 1;
      EqualSimilarityKeepsOrder(cases[..n]);
      InsertLeastAtEnd(cases[..n], cases[n]);
      assert cases[..n] + [cases[n]] == cases;
    }
  }

  /** The cases whose similarity is `v`, in their order. */
  function WithSimilarity(cases: seq<ScoredCase>, v: real): seq<ScoredCase>
    decreases |cases|
  {
    if cases == [] then []
    else (if cases[0].similarity == v then [cases[0]] else []) + WithSimilarity(cases[1..], v)
  }

  /** Taking the cases with one similarity distributes over appending a case. */
  lemma {:induction false} WithSimilaritySnoc(cases: seq<ScoredCase>, c: ScoredCase, v: real)
    ensures WithSimilarity(cases + [c], v) == WithSimilarity(cases, v) + (if c.similarity == v then [c] else [])
    decreases |cases|
  {
    if cases != [] {
      assert (cases + [c])[1..] == cases[1..] + [c];
      WithSimilaritySnoc(cases[1..], c, v);
    }
  }

  /** No case of a non-increasing list is more similar than its head. */
  lemma {:induction false} HeadIsMostSimilar(sorted: seq<ScoredCase>)
    requires NonIncreasing(sorted) && sorted != []
    ensures forall i :: 0 <= i < |sorted| ==> sorted[i].similarity <= sorted[0].similarity
    decreases |sorted|
  {
    if |sorted| > 1 {
      HeadIsMostSimilar(sorted[1..]);
      forall i | 1 <= i < |sorted| ensures sorted[i].similarity <= sorted[0].similarity {
        assert sorted[i] == sorted[1..][i - 1];
      }
    }
  }

  /** A list with no case of similarity `v` has none to take. */
  lemma {:induction false} WithSimilarityNone(cases: seq<ScoredCase>, v: real)
    requires forall i :: 0 <= i < |cases| ==> cases[i].similarity != v
    ensures WithSimilarity(cases, v) == []
    decreases |cases|
  {
    if cases != [] {
      WithSimilarityNone(cases[1..], v);
    }
  }

  lemma {:induction false} ConcatAssociative(a: seq<ScoredCase>, b: seq<ScoredCase>, c: seq<ScoredCase>)
    ensures a + (b + c) == (a + b) + c
  {
  }

  /** Inserting a case puts it after every ranked case of the same similarity. */
  lemma {:induction false} InsertKeepsTies(sorted: seq<ScoredCase>, c: ScoredCase, v: real)
    requires NonIncreasing(sorted)
    ensures WithSimilarity(InsertBySimilarity(sorted, c), v) == WithSimilarity(sorted, v) + (if c.similarity == v then [c] else [])
    decreases |sorted|
  {
    var tieC := if c.similarity == v then [c] else [];
    if sorted == [] {
      assert InsertBySimilarity(sorted, c) == [c];
      assert WithSimilarity([c], v) == tieC + WithSimilarity([], v);
    } else {
      var h := sorted[0];
      var tieH := if h.similarity == v then [h] else [];
      assert WithSimilarity(sorted, v) == tieH + WithSimilarity(sorted[1..], v);
      if c.similarity > h.similarity {
        assert InsertBySimilarity(sorted, c) == [c] + sorted;
        assert ([c] + sorted)[1..] == sorted;
        assert WithSimilarity([c] + sorted, v) == tieC + WithSimilarity(sorted, v);
        if c.similarity == v {
          HeadIsMostSimilar(sorted);
          WithSimilarityNone(sorted, v);
        }
      } else {
        var tail := sorted[1..];
        assert NonIncreasing(tail) by {
          forall i | 0 <= i < |tail| - 1 ensures tail[i].similarity >= tail[i + 1].similarity {
            assert tail[i] == sorted[i + 1] && tail[i + 1] == sorted[i + 2];
          }
        }
        var rest := InsertBySimilarity(tail, c);
        assert InsertBySimilarity(sorted, c) == [h] + rest;
        InsertKeepsTies(tail, c, v);
        assert ([h] + rest)[1..] == rest;
        assert WithSimilarity([h] + rest, v) == tieH + WithSimilarity(rest, v);
        ConcatAssociative(tieH, WithSimilarity(tail, v), tieC);
      }
    }
  }

  /** One step of the sort: the last case is inserted into the sorted rest. */
  lemma {:induction false} SortLast(cases: seq<ScoredCase>)
    requires cases != []
    ensures cases == cases[..|cases| - 1] + [cases[|cases| - 1]]
    ensures SortBySimilarity(cases) == InsertBySimilarity(SortBySimilarity(cases[..|cases| - 1]), cases[|cases| - 1])
  {
  }

  /**
   * The sort is stable: for every similarity, the cases that have it come
   * out in the order they went in.
   */
  lemma {:induction false} SortIsStable(cases: seq<ScoredCase>, v: real)
    ensures WithSimilarity(SortBySimilarity(cases), v) == WithSimilarity(cases, v)
    decreases |cases|
  {
    if cases != [] {
      var n := |cases| - 1;
      var init, last := cases[..n], cases[n];
      var tie := if last.similarity == v then [last] else [];
      SortLast(cases);
      calc {
        WithSimilarity(SortBySimilarity(cases), v);
        WithSimilarity(InsertBySimilarity(SortBySimilarity(init), last), v);
        { InsertKeepsTies(SortBySimilarity(init), last, v); }
        WithSimilarity(SortBySimilarity(init), v) + tie;
        { SortIsStable(init, v); }
        WithSimilarity(init, v) + tie;
        { WithSimilaritySnoc(init, last, v); }
        WithSimilarity(init + [last], v);
        WithSimilarity(cases, v);
      }
    }
  }
}
