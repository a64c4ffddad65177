/**
 * The BioHealth collector (src/pages/CollectorPage.jsx and its standalone
 * twin biohealth-collector.jsx, which repeat the same logic): every poll
 * draws one value per Health Connect metric, prepends fresh call and SMS
 * logs and a history entry, and drops everything older than the two-day
 * retention window; a countdown ticks down to the next poll.
 *
 * Timestamps are milliseconds since the epoch (the ISO text the page stores
 * is read back with `new Date(..).getTime()`); the clock and the random
 * draws are parameters.
 */
module Collector {
  import opened JsValues
  import opened VectorPayload

  // ------------------------------------------------------------------
  // Constants
  // ------------------------------------------------------------------

  /** `RETENTION_MS`: two days. */
  const RetentionMs := 2 * 24 * 60 * 60 * 1000

  /** `DEMO_POLL_MS`: eight seconds between demo polls. */
  const DemoPollMs := 8000

  /** The countdown's starting value, `DEMO_POLL_MS / 1000`. */
  const CountdownStart := DemoPollMs / 1000

  lemma {:induction false} ConstantValues()
    ensures RetentionMs == 172800000 && CountdownStart == 8
  {
  }

  // ------------------------------------------------------------------
  // The metric catalogue
  // ------------------------------------------------------------------

  /** One group of `METRIC_DEFINITIONS`, with its metric keys in insertion order. */
  datatype MetricGroup = MetricGroup(name: string, keys: seq<string>)

  const HeartRateKeys: seq<string> :=
    ["DHRb.cvc", "NHRd.0204.sde", "NHR.0204.cv", "NHR.0406.sd", "NHR.0406.cv", "NHR.0002.sd", "NHR.0002.cv"]
  const NonparametricKeys: seq<string> :=
    ["ISf.stg.wdh", "IS.hri.wd", "ACj.st.60mk", "AC.st.15m", "AC.st.30m", "AC.st.60m.wd", "AC.st.15m.wd",
     "AC.st.30m.wd", "AC.hr.60m.wd", "AC.hr.30m.wd", "ICVl.st.wd", "ICV.hr", "ICV.hr.wd", "peaks.st", "peaks.st.wd"]
  const CosinorKeys: seq<string> :=
    ["acrom.st", "F.st.wd", "beta.hr", "acro.hr", "F.hr", "beta.hr.wd", "acro.hr.wd", "F.hr.wd"]
  const SleepKeys: seq<string> :=
    ["sleep.offset", "sleep.midpoint", "sleep.offset.wd", "sleep.offset.wd.sd", "sleep.midpoint.wd", "sleep.midpoint.wd.sd"]

  const MetricDefinitions: seq<MetricGroup> := [
    MetricGroup("Heart Rate", HeartRateKeys),
    MetricGroup("Circadian (Nonparametric)", NonparametricKeys),
    MetricGroup("Circadian (Cosinor)", CosinorKeys),
    MetricGroup("Sleep", SleepKeys)
  ]

  /** The number of metrics a poll gathers. */
  const MetricKeyCount := 36

  /** The keys of all groups, group after group, as the nested loop visits them. */
  function AllKeys(groups: seq<MetricGroup>): (keys: seq<string>)
    decreases |groups|
  {
    if groups == [] then [] else AllKeys(groups[..|groups| - 1]) + groups[|groups| - 1].keys
  }

  /** The keys of a catalogue split in two are the keys of each part. */
  lemma {:induction false} AllKeysAppend(a: seq<MetricGroup>, b: seq<MetricGroup>)
    ensures AllKeys(a + b) == AllKeys(a) + AllKeys(b)
    decreases |b|
  {
    if b == [] {
      assert a + b == a;
    } else {
      assert (a + b)[..|a + b| - 1] == a + b[..|b| - 1];
      AllKeysAppend(a, b[..|b| - 1]);
    }
  }

  predicate Distinct(keys: seq<string>)
  {
    forall i, j :: 0 <= i < j < |keys| ==> keys[i] != keys[j]
  }

  predicate Disjoint(a: seq<string>, b: seq<string>)
  {
    forall i, j :: 0 <= i < |a| && 0 <= j < |b| ==> a[i] != b[j]
  }

  lemma {:induction false} DistinctConcat(a: seq<string>, b: seq<string>)
    requires Distinct(a) && Distinct(b) && Disjoint(a, b)
    ensures Distinct(a + b)
  {
    var s := a + b;
    forall i, j | 0 <= i < j < |s| ensures s[i] != s[j] {
      if j < |a| {
        assert s[i] == a[i] && s[j] == a[j];
      } else if i < |a| {
        assert s[i] == a[i] && s[j] == b[j - |a|];
      } else {
        assert s[i] == b[i - |a|] && s[j] == b[j - |a|];
      }
    }
  }

  // Helpers of MetricCatalogue: no group repeats a key, and no two groups share one.

  lemma {:induction false} HeartRateKeysDistinct() ensures Distinct(HeartRateKeys) {}
  lemma {:induction false} NonparametricKeysDistinct() ensures Distinct(NonparametricKeys) {}
  lemma {:induction false} CosinorKeysDistinct() ensures Distinct(CosinorKeys) {}
  lemma {:induction false} SleepKeysDistinct() ensures Distinct(SleepKeys) {}
  lemma {:induction false} HeartRateApartNonparametric() ensures Disjoint(HeartRateKeys, NonparametricKeys) {}
  lemma {:induction false} HeartRateApartCosinor() ensures Disjoint(HeartRateKeys, CosinorKeys) {}
  lemma {:induction false} HeartRateApartSleep() ensures Disjoint(HeartRateKeys, SleepKeys) {}
  lemma {:induction false} NonparametricApartCosinor() ensures Disjoint(NonparametricKeys, CosinorKeys) {}
  lemma {:induction false} NonparametricApartSleep() ensures Disjoint(NonparametricKeys, SleepKeys) {}
  lemma {:induction false} CosinorApartSleep() ensures Disjoint(CosinorKeys, SleepKeys) {}

  /** The catalogue's keys, in visiting order: the four groups' keys one after another. */
  lemma {:induction false} CatalogueKeys()
    ensures AllKeys(MetricDefinitions) == HeartRateKeys + NonparametricKeys + CosinorKeys + SleepKeys
  {
    var d := MetricDefinitions;
    assert d[..1][..0] == [];
    assert AllKeys(d[..1]) == HeartRateKeys;
    assert d[..2][..1] == d[..1];
    assert AllKeys(d[..2]) == HeartRateKeys + NonparametricKeys;
    assert d[..3][..2] == d[..2];
    assert AllKeys(d[..3]) == HeartRateKeys + NonparametricKeys + CosinorKeys;
    assert d[..4][..3] == d[..3];
    assert d[..4] == d;
  }

  /**
   * `METRIC_DEFINITIONS` names 7 + 15 + 8 + 6 = 36 metrics and no key twice,
   * so the object a poll fills has one entry per metric.
   */
  lemma {:induction false} MetricCatalogue()
    ensures Distinct(AllKeys(MetricDefinitions))
    ensures |AllKeys(MetricDefinitions)| == MetricKeyCount
  {
    CatalogueKeys();
    HeartRateKeysDistinct();
    NonparametricKeysDistinct();
    CosinorKeysDistinct();
    SleepKeysDistinct();
    HeartRateApartNonparametric();
    HeartRateApartCosinor();
    HeartRateApartSleep();
    NonparametricApartCosinor();
    NonparametricApartSleep();
    CosinorApartSleep();
    DistinctConcat(HeartRateKeys, NonparametricKeys);
    var hn := HeartRateKeys + NonparametricKeys;
    assert Disjoint(hn, CosinorKeys) by {
      forall i, j | 0 <= i < |hn| && 0 <= j < |CosinorKeys| ensures hn[i] != CosinorKeys[j] {
        if i < |HeartRateKeys| { assert hn[i] == HeartRateKeys[i]; }
        else { assert hn[i] == NonparametricKeys[i - |HeartRateKeys|]; }
      }
    }
    DistinctConcat(hn, CosinorKeys);
    var hnc := hn + CosinorKeys;
    assert Disjoint(hnc, SleepKeys) by {
      forall i, j | 0 <= i < |hnc| && 0 <= j < |SleepKeys| ensures hnc[i] != SleepKeys[j] {
        if i < |HeartRateKeys| { assert hnc[i] == HeartRateKeys[i]; }
        else if i < |hn| { assert hnc[i] == NonparametricKeys[i - |HeartRateKeys|]; }
        else { assert hnc[i] == CosinorKeys[i - |hn|]; }
      }
    }
    DistinctConcat(hnc, SleepKeys);
  }

  // ------------------------------------------------------------------
  // One poll's metric values
  // ------------------------------------------------------------------

  /** `+(Math.random() * 2).toFixed(4)` for the draw `r`. */
  function SimulatedValue(r: real): real
  {
    ToFixed(r * 2.0, 4)
  }

  /** A draw in [0, 1) gives a value in [0, 2] on a grid of 1/10000. */
  lemma {:induction false} SimulatedValueRange(r: real)
    requires 0.0 <= r < 1.0
    ensures 0.0 <= SimulatedValue(r) <= 2.0
  {
    var scale := Pow10(4) as real;
    assert scale == 10000.0;
    var n := FixedUnits(r * 2.0, scale);
    assert (r * 2.0) * scale < 2.0 * scale;
    assert n as real <= 2.0 * scale;
    assert 0 <= n;
    assert SimulatedValue(r) == n as real / scale;
  }

  /**
   * `result[key] = value` on the object being filled: an existing key
   * keeps its place and takes the new value, a new key goes at the end.
   */
  function SetKey(entries: seq<Metric>, key: string, value: Number): (r: seq<Metric>)
    ensures (forall i :: 0 <= i < |entries| ==> entries[i].key != key) ==> r == entries + [Metric(key, value)]
    ensures (exists i :: 0 <= i < |entries| && entries[i].key == key) ==>
      && |r| == |entries| && KeysOf(r) == KeysOf(entries) && Metric(key, value) in r
    decreases |entries|
  {
    if entries == [] then [Metric(key, value)]
    else if entries[0].key == key then [Metric(key, value)] + entries[1..]
    else [entries[0]] + SetKey(entries[1..], key, value)
  }

  /** In a list without repeats, no entry occurs before its own position. */
  lemma {:induction false} DistinctPrefix(keys: seq<string>, n: nat)
    requires Distinct(keys) && n < |keys|
    ensures keys[n] !in keys[..n]
  {
    forall i | 0 <= i < n ensures keys[..n][i] != keys[n] {
      assert keys[..n][i] == keys[i];
    }
  }

  /** The catalogue's keys around group `g`: those of the groups before it, its own, those after it. */
  lemma {:induction false} AllKeysAround(groups: seq<MetricGroup>, g: nat)
    requires g < |groups|
    ensures AllKeys(groups) == AllKeys(groups[..g]) + groups[g].keys + AllKeys(groups[g + 1..])
  {
    assert groups == (groups[..g] + [groups[g]]) + groups[g + 1..];
    AllKeysAppend(groups[..g] + [groups[g]], groups[g + 1..]);
    assert (groups[..g] + [groups[g]])[..g] == groups[..g];
  }

  /** The keys visited before key `k` of group `g` do not include that key, in a catalogue without repeats. */
  lemma {:induction false} FreshKey(groups: seq<MetricGroup>, g: nat, k: nat)
    requires Distinct(AllKeys(groups))
    requires g < |groups| && k < |groups[g].keys|
    ensures groups[g].keys[k] !in AllKeys(groups[..g]) + groups[g].keys[..k]
  {
    var keys := groups[g].keys;
    var pre := AllKeys(groups[..g]);
    var all := AllKeys(groups);
    AllKeysAround(groups, g);
    var n := |pre| + k;
    assert all[n] == keys[k];
    assert all[..n] == pre + keys[..k];
    DistinctPrefix(all, n);
  }

  /** Setting a key the entries do not hold appends it. */
  lemma {:induction false} SetFreshKey(entries: seq<Metric>, key: string, value: Number)
    requires key !in KeysOf(entries)
    ensures SetKey(entries, key, value) == entries + [Metric(key, value)]
    ensures KeysOf(entries + [Metric(key, value)]) == KeysOf(entries) + [key]
  {
    assert forall i :: 0 <= i < |entries| ==> entries[i].key == KeysOf(entries)[i];
    assert KeysOf(entries + [Metric(key, value)]) == KeysOf(entries) + [key];
  }

  /**
   * The inner loop of `simulateHealthConnectData`: the keys of one group,
   * each new to the object so far, are set in turn, the n-th entry of the
   * object taking the n-th draw.
   */
  method SimulateGroup(start: seq<Metric>, keys: seq<string>, random: nat -> real) returns (result: seq<Metric>)
    requires forall k :: 0 <= k < |keys| ==> keys[k] !in KeysOf(start) + keys[..k]
    ensures KeysOf(result) == KeysOf(start) + keys
    ensures |result| == |start| + |keys| && result[..|start|] == start
    ensures forall i :: |start| <= i < |result| ==> result[i].value == Finite(SimulatedValue(random(i)))
  {
    result := start;
    for k := 0 to |keys|
      invariant KeysOf(result) == KeysOf(start) + keys[..k]
      invariant |result| == |start| + k && result[..|start|] == start
      invariant forall i :: |start| <= i < |result| ==> result[i].value == Finite(SimulatedValue(random(i)))
    {
      var value := Finite(SimulatedValue(random(|result|)));
      SetFreshKey(result, keys[k], value);
      result := SetKey(result, keys[k], value);
      assert keys[..k + 1] == keys[..k] + [keys[k]];
    }
    assert keys[..|keys|] == keys;
  }

  /** The outer loop of `simulateHealthConnectData` over a catalogue without repeated keys. */
  method SimulateGroups(groups: seq<MetricGroup>, random: nat -> real) returns (result: seq<Metric>)
    requires Distinct(AllKeys(groups))
    ensures KeysOf(result) == AllKeys(groups)
    ensures forall i :: 0 <= i < |result| ==> result[i].value == Finite(SimulatedValue(random(i)))
  {
    result := [];
    for g := 0 to |groups|
      invariant KeysOf(result) == AllKeys(groups[..g])
      invariant forall i :: 0 <= i < |result| ==> result[i].value == Finite(SimulatedValue(random(i)))
    {
      forall k | 0 <= k < |groups[g].keys|
        ensures groups[g].keys[k] !in KeysOf(result) + groups[g].keys[..k]
      {
        FreshKey(groups, g, k);
      }
      var before := result;
      result := SimulateGroup(result, groups[g].keys, random);
      assert forall i :: 0 <= i < |before| ==> result[i] == before[i] by {
        assert forall i :: 0 <= i < |before| ==> result[..|before|][i] == result[i];
      }
      assert groups[..g + 1][..g] == groups[..g];
    }
    assert groups[..|groups|] == groups;
  }

  /**
   * `simulateHealthConnectData`: the n-th metric of the catalogue takes the
   * n-th random draw; the result holds exactly the 36 catalogue keys, in
   * catalogue order.
   */
  method SimulateHealthConnectData(random: nat -> real) returns (result: seq<Metric>)
    ensures KeysOf(result) == AllKeys(MetricDefinitions)
    ensures |result| == MetricKeyCount
    ensures forall i :: 0 <= i < |result| ==> result[i].value == Finite(SimulatedValue(random(i)))
  {
    MetricCatalogue();
    result := SimulateGroups(MetricDefinitions, random);
  }

  // ------------------------------------------------------------------
  // Logs and the retention window
  // ------------------------------------------------------------------

  datatype CallLog = CallLog(id: int, contact: string, kind: string, duration: int, timestamp: int)
  datatype SmsLog = SmsLog(id: int, contact: string, direction: string, snippet: string, timestamp: int)
  datatype HistoryEntry = HistoryEntry(timestamp: int, metricCount: nat, callCount: nat, smsCount: nat)

  function CallStamp(c: CallLog): int { c.timestamp }
  function SmsStamp(s: SmsLog): int { s.timestamp }
  function HistoryStamp(h: HistoryEntry): int { h.timestamp }

  /** Every entry lies inside the retention window that ends at `now`. */
  predicate Recent<T>(entries: seq<T>, stamp: T -> int, now: int)
  {
    forall i :: 0 <= i < |entries| ==> stamp(entries[i]) > now - RetentionMs
  }

  /** `pruneOldEntries` at time `now`: the entries newer than two days, in their order. */
  function Prune<T>(entries: seq<T>, stamp: T -> int, now: int): (kept: seq<T>)
    ensures |kept| <= |entries|
    ensures Recent(kept, stamp, now)
    decreases |entries|
  {
    if entries == [] then []
    else (if stamp(entries[0]) > now - RetentionMs then [entries[0]] else []) + Prune(entries[1..], stamp, now)
  }

  /** Pruning keeps exactly the entries stamped after the start of the window. */
  lemma {:induction false} PruneMembers<T(!new)>(entries: seq<T>, stamp: T -> int, now: int)
    ensures forall x :: x in Prune(entries, stamp, now) <==> x in entries && stamp(x) > now - RetentionMs
    decreases |entries|
  {
    if entries != [] {
      PruneMembers(entries[1..], stamp, now);
      assert entries == [entries[0]] + entries[1..];
    }
  }

  /** `a` is `b` with some entries left out and the rest in their order. */
  predicate IsSubsequence<T(==)>(a: seq<T>, b: seq<T>)
    decreases |b|
  {
    if b == [] then a == []
    else (a != [] && a[0] == b[0] && IsSubsequence(a[1..], b[1..])) || IsSubsequence(a, b[1..])
  }

  /** Pruning only leaves entries out; it never reorders them. */
  lemma {:induction false} PruneIsSubsequence<T(!new)>(entries: seq<T>, stamp: T -> int, now: int)
    ensures IsSubsequence(Prune(entries, stamp, now), entries)
    decreases |entries|
  {
    if entries != [] {
      PruneIsSubsequence(entries[1..], stamp, now);
      if stamp(entries[0]) > now - RetentionMs {
        assert Prune(entries, stamp, now)[1..] == Prune(entries[1..], stamp, now);
      } else {
        assert Prune(entries, stamp, now) == Prune(entries[1..], stamp, now);
      }
    }
  }

  /**
   * Pruning a concatenation prunes each part: in `prune(new ++ prev)` the
   * surviving new entries come first, then the surviving old ones.
   */
  lemma {:induction false} PruneAppend<T(!new)>(a: seq<T>, b: seq<T>, stamp: T -> int, now: int)
    ensures Prune(a + b, stamp, now) == Prune(a, stamp, now) + Prune(b, stamp, now)
    decreases |a|
  {
    if a == [] {
      assert a + b == b;
    } else {
      assert (a + b)[0] == a[0];
      assert (a + b)[1..] == a[1..] + b;
      PruneAppend(a[1..], b, stamp, now);
    }
  }

  /** An entry stamped at the pruning time survives, in front of whatever survives behind it. */
  lemma {:induction false} PruneNewestFirst<T(!new)>(entry: T, rest: seq<T>, stamp: T -> int, now: int)
    requires stamp(entry) == now
    ensures Prune([entry] + rest, stamp, now) == [entry] + Prune(rest, stamp, now)
  {
    assert ([entry] + rest)[0] == entry;
    assert ([entry] + rest)[1..] == rest;
  }

  /**
   * The history after a poll at `now` starts with that poll's entry, and if
   * every entry before counted the 36 metrics, every entry still does.
   */
  lemma {:induction false} HistoryAfterPoll(entry: HistoryEntry, history: seq<HistoryEntry>, now: int)
    requires entry.timestamp == now
    ensures var h := Prune([entry] + history, HistoryStamp, now);
      |h| > 0 && h[0] == entry
      && ((forall i :: 0 <= i < |history| ==> history[i].metricCount == entry.metricCount) ==>
          forall i :: 0 <= i < |h| ==> h[i].metricCount == entry.metricCount)
  {
    var h := Prune([entry] + history, HistoryStamp, now);
    PruneNewestFirst(entry, history, HistoryStamp, now);
    PruneMembers([entry] + history, HistoryStamp, now);
    assert forall i :: 0 <= i < |h| ==> h[i] in [entry] + history;
  }

  /** A list inside the window is left as it is, and only such a list is. */
  lemma {:induction false} PruneKeepsRecent<T(!new)>(entries: seq<T>, stamp: T -> int, now: int)
    ensures Prune(entries, stamp, now) == entries <==> Recent(entries, stamp, now)
    decreases |entries|
  {
    if entries != [] {
      PruneKeepsRecent(entries[1..], stamp, now);
      if Recent(entries, stamp, now) {
        assert Recent(entries[1..], stamp, now) by {
          forall i | 0 <= i < |entries[1..]| ensures stamp(entries[1..][i]) > now - RetentionMs {
            assert entries[1..][i] == entries[i + 1];
          }
        }
        assert entries == [entries[0]] + entries[1..];
      }
    }
  }

  /**
   * A later prune subsumes an earlier one: pruning at `earlier` and then at
   * `later`, or in the other order, is pruning at `later` alone.
   */
  lemma {:induction false} PruneLater<T(!new)>(entries: seq<T>, stamp: T -> int, earlier: int, later: int)
    requires earlier <= later
    ensures Prune(Prune(entries, stamp, earlier), stamp, later) == Prune(entries, stamp, later)
    ensures Prune(Prune(entries, stamp, later), stamp, earlier) == Prune(entries, stamp, later)
    decreases |entries|
  {
    if entries != [] {
      PruneLater(entries[1..], stamp, earlier, later);
      var head := if stamp(entries[0]) > earlier - RetentionMs then [entries[0]] else [];
      PruneAppend(head, Prune(entries[1..], stamp, earlier), stamp, later);
      var head2 := if stamp(entries[0]) > later - RetentionMs then [entries[0]] else [];
      PruneAppend(head2, Prune(entries[1..], stamp, later), stamp, earlier);
      if head != [] {
        assert [entries[0]][1..] == [];
      }
      if head2 != [] {
        assert [entries[0]][1..] == [];
      }
    }
  }

  /** For a fixed clock, pruning twice is pruning once. */
  lemma {:induction false} PruneIdempotent<T(!new)>(entries: seq<T>, stamp: T -> int, now: int)
    ensures Prune(Prune(entries, stamp, now), stamp, now) == Prune(entries, stamp, now)
  {
    PruneLater(entries, stamp, now, now);
  }

  // ------------------------------------------------------------------
  // Formatting
  // ------------------------------------------------------------------

  /** `fmtDuration`: seconds below a minute as "<s>s", otherwise "<m>m <s>s". */
  function FmtDuration(s: int): (text: string)
    ensures s < 60 ==> text == IntToString(s) + "s"
    ensures s >= 60 ==> text == NatToString(s / 60) + "m " + NatToString(s % 60) + "s" && s % 60 < 60
  {
    if s < 60 then IntToString(s) + "s" else NatToString(s / 60) + "m " + NatToString(s % 60) + "s"
  }

  /** Two digit strings followed by the same kind of non-digit text split at the same place. */
  lemma {:induction false} DigitsThenText(x: string, u: string, y: string, v: string)
    requires AllDigits(x) && AllDigits(y)
    requires |u| > 0 && |v| > 0 && !IsDigit(u[0]) && !IsDigit(v[0])
    requires x + u == y + v
    ensures x == y && u == v
  {
    var t := x + u;
    assert t == y + v;
    assert !IsDigit(t[|x|]) && !IsDigit(t[|y|]);
    assert forall i :: 0 <= i < |x| ==> IsDigit(t[i]);
    assert forall i :: 0 <= i < |y| ==> IsDigit(t[i]);
    assert |x| == |y|;
    assert x == t[..|x|] == y;
    assert u == t[|x|..] == v;
  }

  /** The number a duration's text starts with: the seconds below a minute, otherwise the minutes. */
  function Lead(s: nat): nat
  {
    if s < 60 then s else s / 60
  }

  /** What follows that number: "s", or "m " and the remaining seconds. */
  function Tail(s: nat): string
  {
    if s < 60 then "s" else "m " + NatToString(s % 60) + "s"
  }

  lemma {:induction false} DurationParts(s: nat)
    ensures FmtDuration(s) == NatToString(Lead(s)) + Tail(s)
    ensures |Tail(s)| > 0 && !IsDigit(Tail(s)[0]) && (Tail(s)[0] == 's' <==> s < 60)
  {
  }

  /** Different call durations are shown as different texts. */
  lemma {:induction false} FmtDurationInjective(a: nat, b: nat)
    requires FmtDuration(a) == FmtDuration(b)
    ensures a == b
  {
    DurationParts(a);
    DurationParts(b);
    DigitsThenText(NatToString(Lead(a)), Tail(a), NatToString(Lead(b)), Tail(b));
    NatToStringInjective(Lead(a), Lead(b));
    if a >= 60 {
      SecondsPart(a, b);
    }
  }

  /** Two minute-or-longer durations with the same tail have the same seconds. */
  lemma {:induction false} SecondsPart(a: nat, b: nat)
    requires a >= 60 && b >= 60 && Tail(a) == Tail(b)
    ensures a % 60 == b % 60
  {
    assert Tail(a)[2..] == NatToString(a % 60) + "s";
    assert Tail(b)[2..] == NatToString(b % 60) + "s";
    DigitsThenText(NatToString(a % 60), "s", NatToString(b % 60), "s");
    NatToStringInjective(a % 60, b % 60);
  }

  /** `padStart(2, "0")` on the decimal text of a number. */
  function PadStart2(s: string): (padded: string)
    ensures |s| >= 2 ==> padded == s
    ensures |s| < 2 ==> |padded| == 2 && padded[2 - |s|..] == s
    ensures forall i :: 0 <= i < 2 - |s| ==> padded[i] == '0'
  {
    if |s| >= 2 then s else if |s| == 1 then "0" + s else "00"
  }

  /** Zero-padding a one- or two-digit text gives two digits with the same value. */
  lemma {:induction false} PadStart2Digits(n: nat)
    requires n < 100
    ensures |PadStart2(NatToString(n))| == 2 && AllDigits(PadStart2(NatToString(n)))
    ensures ParseDigits(PadStart2(NatToString(n))) == n
  {
    var s := NatToString(n);
    ParseNatToString(n);
    if n < 10 {
      ParseLeadingZero(s);
    } else {
      assert |s| == 2 by {
        assert s == NatToString(n / 10) + [DigitChar(n % 10)];
      }
    }
  }

  /** The standalone collector's clock: zero-padded minutes and seconds of the countdown. */
  function CountdownClock(countdown: nat): string
  {
    PadStart2(NatToString(countdown / 60)) + ":" + PadStart2(NatToString(countdown % 60))
  }

  /**
   * Below 100 minutes the clock reads "mm:ss": five characters, a colon in
   * the middle, and minutes and seconds that read back to the countdown.
   */
  lemma {:induction false} CountdownClockReadsBack(countdown: nat)
    requires countdown < 6000
    ensures var text := CountdownClock(countdown);
      && |text| == 5 && text[2] == ':' && AllDigits(text[..2]) && AllDigits(text[3..])
      && ParseDigits(text[..2]) < 100 && ParseDigits(text[3..]) < 60
      && ParseDigits(text[..2]) * 60 + ParseDigits(text[3..]) == countdown
  {
    var mm := PadStart2(NatToString(countdown / 60));
    var ss := PadStart2(NatToString(countdown % 60));
    PadStart2Digits(countdown / 60);
    PadStart2Digits(countdown % 60);
    var text := CountdownClock(countdown);
    assert text == mm + ":" + ss;
    assert text[..2] == mm;
    assert text[3..] == ss;
  }

  /** The page's banner clock, "00:0" followed by the countdown. */
  function BannerClock(countdown: nat): string
  {
    "00:0" + NatToString(countdown)
  }

  /**
   * While the countdown has one digit the banner reads the same as the
   * zero-padded clock; the countdown never exceeds 8, so the two pages
   * always show the same text.
   */
  lemma {:induction false} BannerMatchesClock(countdown: nat)
    requires countdown <= 9
    ensures BannerClock(countdown) == CountdownClock(countdown)
    ensures |BannerClock(countdown)| == 5
  {
    assert countdown / 60 == 0 && countdown % 60 == countdown;
    assert NatToString(0) == "0";
    assert |NatToString(countdown)| == 1;
  }

  // ------------------------------------------------------------------
  // The countdown
  // ------------------------------------------------------------------

  /** One tick of the countdown: down by one, but not past zero. */
  function Tick(c: int): (next: int)
    ensures next >= 0
    ensures c > 0 ==> next == c - 1
    ensures c <= 0 ==> next == 0
  {
    if c > 0 then c - 1 else 0
  }

  /** The countdown after `n` ticks. */
  function Ticks(c: int, n: nat): int
    decreases n
  {
    if n == 0 then c else Tick(Ticks(c, n - 1))
  }

  /** After `n` ticks a countdown from `c` stands at `c - n`, or at zero once it got there. */
  lemma {:induction false} TicksFloorAtZero(c: nat, n: nat)
    ensures Ticks(c, n) == Max(c - n, 0)
    decreases n
  {
    if n > 0 {
      TicksFloorAtZero(c, n - 1);
    }
  }

  // ------------------------------------------------------------------
  // The collector's state
  // ------------------------------------------------------------------

  /**
   * The logs a collector keeps: empty before the first poll; after one, the
   * newest history entry is the last poll's, every history entry counted the
   * 36 metrics, and nothing predates the retention window of the last poll.
   */
  predicate LogsValid(calls: seq<CallLog>, sms: seq<SmsLog>, history: seq<HistoryEntry>, last: Option<int>)
  {
    && (forall i :: 0 <= i < |history| ==> history[i].metricCount == MetricKeyCount)
    && (last.None? ==> calls == [] && sms == [] && history == [])
    && (last.Some? ==>
          && |history| > 0 && history[0].timestamp == last.value
          && Recent(calls, CallStamp, last.value)
          && Recent(sms, SmsStamp, last.value)
          && Recent(history, HistoryStamp, last.value))
  }

  /** A poll at `now` that counted the 36 metrics keeps the logs valid, whatever the time of the previous poll. */
  lemma {:induction false} PollKeepsLogsValid(
    calls: seq<CallLog>, sms: seq<SmsLog>, entry: HistoryEntry,
    oldCalls: seq<CallLog>, oldSms: seq<SmsLog>, oldHistory: seq<HistoryEntry>, last: Option<int>, now: int)
    requires LogsValid(oldCalls, oldSms, oldHistory, last)
    requires entry.timestamp == now && entry.metricCount == MetricKeyCount
    ensures LogsValid(Prune(calls + oldCalls, CallStamp, now), Prune(sms + oldSms, SmsStamp, now),
      Prune([entry] + oldHistory, HistoryStamp, now), Some(now))
    ensures Prune([entry] + oldHistory, HistoryStamp, now)[0] == entry
  {
    HistoryAfterPoll(entry, oldHistory, now);
  }

  /** The three lists after a poll at `now`, each the fresh entries in front of the old ones, pruned. */
  method PollLogs(
    calls: seq<CallLog>, sms: seq<SmsLog>, entry: HistoryEntry,
    oldCalls: seq<CallLog>, oldSms: seq<SmsLog>, oldHistory: seq<HistoryEntry>, last: Option<int>, now: int)
    returns (newCalls: seq<CallLog>, newSms: seq<SmsLog>, newHistory: seq<HistoryEntry>)
    requires LogsValid(oldCalls, oldSms, oldHistory, last)
    requires entry.timestamp == now && entry.metricCount == MetricKeyCount
    ensures newCalls == Prune(calls + oldCalls, CallStamp, now)
    ensures newSms == Prune(sms + oldSms, SmsStamp, now)
    ensures newHistory == Prune([entry] + oldHistory, HistoryStamp, now)
    ensures LogsValid(newCalls, newSms, newHistory, Some(now)) && newHistory[0] == entry
  {
    PollKeepsLogsValid(calls, sms, entry, oldCalls, oldSms, oldHistory, last, now);
    newCalls := Prune(calls + oldCalls, CallStamp, now);
    newSms := Prune(sms + oldSms, SmsStamp, now);
    newHistory := Prune([entry] + oldHistory, HistoryStamp, now);
  }

  /** The state the collector page keeps between polls. */
  class CollectorState {
    var latestMetrics: Option<seq<Metric>>
    var callLogs: seq<CallLog>
    var smsLogs: seq<SmsLog>
    var history: seq<HistoryEntry>
    var countdown: int
    var isCollecting: bool
    var lastCollected: Option<int>

    /**
     * The countdown lies in 0..8; every history entry counted the 36
     * metrics; after a poll the newest history entry is that poll's, and no
     * log holds an entry from before the retention window of the last poll.
     */
    predicate Valid()
      reads this
    {
      && 0 <= countdown <= CountdownStart
      && (lastCollected.None? ==> latestMetrics.None?)
      && LogsValid(callLogs, smsLogs, history, lastCollected)
    }

    /** The page's initial state: nothing gathered yet, the countdown at 8. */
    constructor()
      ensures Valid()
      ensures latestMetrics.None? && callLogs == [] && smsLogs == [] && history == []
      ensures countdown == CountdownStart && !isCollecting && lastCollected.None?
    {
      latestMetrics := None;
      callLogs := [];
      smsLogs := [];
      history := [];
      countdown := CountdownStart;
      isCollecting := false;
      lastCollected := None;
    }

    /** The start of `collect`: the banner switches to syncing. */
    method StartCollect()
      requires Valid()
      modifies this
      ensures Valid() && isCollecting
      ensures latestMetrics == old(latestMetrics) && callLogs == old(callLogs) && smsLogs == old(smsLogs)
      ensures history == old(history) && countdown == old(countdown) && lastCollected == old(lastCollected)
    {
      isCollecting := true;
    }

    /**
     * The delayed body of `collect` at time `now`: fresh metrics from the
     * draws `random`, then the poll is stored.
     */
    method FinishCollect(now: int, random: nat -> real, calls: seq<CallLog>, sms: seq<SmsLog>)
      requires Valid()
      modifies this
      ensures Valid()
      ensures latestMetrics.Some? && KeysOf(latestMetrics.value) == AllKeys(MetricDefinitions)
      ensures forall i :: 0 <= i < |latestMetrics.value| ==>
        latestMetrics.value[i].value == Finite(SimulatedValue(random(i)))
      ensures callLogs == Prune(calls + old(callLogs), CallStamp, now)
      ensures smsLogs == Prune(sms + old(smsLogs), SmsStamp, now)
      ensures history == Prune([HistoryEntry(now, MetricKeyCount, |calls|, |sms|)] + old(history), HistoryStamp, now)
      ensures history[0] == HistoryEntry(now, MetricKeyCount, |calls|, |sms|)
      ensures lastCollected == Some(now) && !isCollecting && countdown == old(countdown)
    {
      var metrics := SimulateHealthConnectData(random);
      StorePoll(now, metrics, calls, sms);
    }

    /**
     * Storing a poll at time `now`: the metrics replace the latest ones; the
     * fresh calls and messages, and a history entry counting the poll, go in
     * front of the old lists, and all three are pruned to the retention
     * window.
     */
    method StorePoll(now: int, metrics: seq<Metric>, calls: seq<CallLog>, sms: seq<SmsLog>)
      requires Valid()
      requires |metrics| == MetricKeyCount
      modifies this
      ensures Valid()
      ensures latestMetrics == Some(metrics)
      ensures callLogs == Prune(calls + old(callLogs), CallStamp, now)
      ensures smsLogs == Prune(sms + old(smsLogs), SmsStamp, now)
      ensures history == Prune([HistoryEntry(now, MetricKeyCount, |calls|, |sms|)] + old(history), HistoryStamp, now)
      ensures history[0] == HistoryEntry(now, MetricKeyCount, |calls|, |sms|)
      ensures lastCollected == Some(now) && !isCollecting && countdown == old(countdown)
    {
      var entry := HistoryEntry(now, |metrics|, |calls|, |sms|);
      var newCalls, newSms, newHistory := PollLogs(calls, sms, entry, callLogs, smsLogs, history, lastCollected, now);
      latestMetrics, callLogs, smsLogs, history := Some(metrics), newCalls, newSms, newHistory;
      lastCollected, isCollecting := Some(now), false;
    }

    /** The one-second interval: the countdown goes down by one and stops at zero. */
    method TickCountdown()
      requires Valid()
      modifies this
      ensures Valid()
      ensures countdown == Tick(old(countdown)) && countdown <= old(countdown)
      ensures latestMetrics == old(latestMetrics) && callLogs == old(callLogs) && smsLogs == old(smsLogs)
      ensures history == old(history) && isCollecting == old(isCollecting) && lastCollected == old(lastCollected)
    {
      countdown := Tick(countdown);
    }

    /** A new poll, or a new last-collected time, puts the countdown back to 8. */
    method ResetCountdown()
      requires Valid()
      modifies this
      ensures Valid() && countdown == CountdownStart
      ensures latestMetrics == old(latestMetrics) && callLogs == old(callLogs) && smsLogs == old(smsLogs)
      ensures history == old(history) && isCollecting == old(isCollecting) && lastCollected == old(lastCollected)
    {
      countdown := CountdownStart;
    }

    /** The banner of CollectorPage and the clock of the standalone collector agree on the current countdown. */
    lemma {:induction false} ClocksAgree()
      requires Valid()
      ensures BannerClock(countdown) == CountdownClock(countdown)
    {
      BannerMatchesClock(countdown);
    }
  }
}
