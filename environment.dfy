/**
 * The environment serializers of
 * src/sentry/api/serializers/models/environment.py: the plain and
 * per-project environment serializers, and the serializer that attaches
 * per-environment event-frequency stats of one issue group.
 *
 * A serialized dictionary is a `map<string, Value>`. The time-series backend
 * is a function from the query to its answer, which is either the series or
 * "not implemented"; the clock is a function giving the time read while a
 * stats period is processed. Times are integer seconds.
 */
module EnvironmentSerializers {
  import opened Wrappers

  datatype Environment = Environment(id: int, name: string)

  /** `is_hidden` is a nullable boolean column. */
  datatype EnvironmentProject = EnvironmentProject(id: int, environment: Environment, isHidden: Option<bool>)

  datatype Group = Group(id: int)

  /** One point of an item's series: (timestamp, count). */
  type Point = (int, int)

  /** The values that appear in a serialized dictionary. */
  datatype Value = Str(s: string) | Bool(b: bool) | StatsByPeriod(stats: map<string, seq<Point>>)

  // ----- decimal strings (`str(int)`) -----

  predicate IsDigit(ch: char) {
    '0' <= ch <= '9'
  }

  predicate AllDigits(s: string) {
    forall i :: 0 <= i < |s| ==> IsDigit(s[i])
  }

  function DigitChar(d: nat): (ch: char)
    requires d < 10
    ensures IsDigit(ch)
  {
    ('0' as int + d) as char
  }

  function DigitValue(ch: char): nat
    requires IsDigit(ch)
  {
    ch as int - '0' as int
  }

  /** The decimal digits of `n`, most significant first. */
  function NatDecimal(n: nat): (s: string)
    ensures |s| > 0 && AllDigits(s)
    ensures s[0] == '0' ==> n == 0
    decreases n
  {
    if n < 10 then [DigitChar(n)] else NatDecimal(n / 10) + [DigitChar(n % 10)]
  }

  /** `str(n)` for a Python int: an optional minus sign, then digits without a leading zero. */
  function IntDecimal(n: int): (s: string)
    ensures |s| > 0
    ensures s[0] == '-' <==> n < 0
    ensures n < 0 ==> |s| > 1 && AllDigits(s[1..]) && s[1] != '0'
    ensures n >= 0 ==> AllDigits(s) && (s[0] == '0' ==> s == "0")
  {
    if n < 0 then "-" + NatDecimal(-n) else NatDecimal(n)
  }

  /** The value of a string of digits. */
  function ParseNat(s: string): nat
    requires AllDigits(s)
  {
    if s == [] then 0 else ParseNat(s[..|s| - 1]) * 10 + DigitValue(s[|s| - 1])
  }

  /** `int(s)` for the strings `str` produces; None for any other string. */
  function ParseDecimal(s: string): Option<int> {
    if |s| > 1 && s[0] == '-' && AllDigits(s[1..]) then Some(0 - ParseNat(s[1..]))
    else if |s| > 0 && AllDigits(s) then Some(ParseNat(s))
    else None
  }

  lemma {:induction false} NatDecimalRoundTrip(n: nat)
    ensures ParseNat(NatDecimal(n)) == n
    decreases n
  {
    if n >= 10 {
      var s := NatDecimal(n);
      var prefix := NatDecimal(n / 10);
      assert s[..|s| - 1] == prefix;
      NatDecimalRoundTrip(n / 10);
    }
  }

  /** `int(str(n)) == n`. */
  lemma DecimalRoundTrip(n: int)
    ensures ParseDecimal(IntDecimal(n)) == Some(n)
  {
    if n < 0 {
      assert IntDecimal(n)[1..] == NatDecimal(-n);
      NatDecimalRoundTrip(-n);
    } else {
      NatDecimalRoundTrip(n);
    }
  }

  // ----- the two plain serializers -----

  /** `EnvironmentSerializer.serialize`. */
  function SerializeEnvironment(obj: Environment): (d: map<string, Value>)
    ensures d.Keys == {"id", "name"}
    ensures d["id"] == Str(IntDecimal(obj.id))
    ensures d["id"].Str? && ParseDecimal(d["id"].s) == Some(obj.id)
    ensures d["name"] == Str(obj.name)
  {
    DecimalRoundTrip(obj.id);
    map["id" := Str(IntDecimal(obj.id)), "name" := Str(obj.name)]
  }

  /** `EnvironmentProjectSerializer.serialize`. */
  function SerializeEnvironmentProject(obj: EnvironmentProject): (d: map<string, Value>)
    ensures d.Keys == {"id", "name", "isHidden"}
    ensures d["id"] == Str(IntDecimal(obj.id))
    ensures d["id"].Str? && ParseDecimal(d["id"].s) == Some(obj.id)
    ensures d["name"] == Str(obj.environment.name)
    ensures d["isHidden"].Bool? && (d["isHidden"].b <==> obj.isHidden == Some(true))
  {
    DecimalRoundTrip(obj.id);
    map[
      "id" := Str(IntDecimal(obj.id)),
      "name" := Str(obj.environment.name),
      "isHidden" := Bool(obj.isHidden.Some? && obj.isHidden.value)]
  }

  // ----- stats per environment -----

  /** A stats period: `segments` buckets of `interval` seconds each. */
  datatype StatsPeriod = StatsPeriod(key: string, segments: nat, interval: nat)

  /** `STATS_PERIODS`, in its insertion order. */
  const StatsPeriods: seq<StatsPeriod> := [StatsPeriod("24h", 24, 3600), StatsPeriod("30d", 30, 86400)]


  /** A `get_frequency_series` query: items per group, the window and the rollup. */
  datatype FrequencyQuery = FrequencyQuery(items: map<int, seq<int>>, start: int, end: int, rollup: int)

  /** The series of one group: (timestamp, count per item id) pairs. */
  type FrequencySeries = seq<(int, map<int, int>)>

  /** The backend's answer: series per group, or NotImplementedError. */
  datatype FrequencyAnswer = NotImplemented | Series(series: map<int, FrequencySeries>)

  /** `attrs[item]`: the only attribute is "stats", a list of points per period key. */
  datatype ItemAttrs = ItemAttrs(stats: map<string, seq<Point>>)

  /** The KeyError raised when a series point has no count for an item. */
  datatype KeyError = KeyError(key: int)

  /** The ids of `items`, in order. */
  function Ids(items: seq<Environment>): seq<int> {
    seq(|items|, i requires 0 <= i < |items| => items[i].id)
  }

  function ItemIds(items: seq<Environment>): set<int> {
    set i | 0 <= i < |items| :: items[i].id
  }

  /** The query `get_attrs` sends for period `p` when the clock reads `now`. */
  function PeriodQuery(groupId: int, ids: seq<int>, p: StatsPeriod, since: Option<int>, until: Option<int>, now: int): (q: FrequencyQuery)
    ensures q.items == map[groupId := ids]
    ensures q.end == until.GetOr(now)
    ensures since.None? ==> q.end - q.start == p.segments * p.interval
    ensures since.Some? ==> q.start == since.value
    ensures q.rollup == p.interval
  {
    var end := until.GetOr(now);
    var start := if since.Some? then since.value else end - p.segments * p.interval;
    FrequencyQuery(map[groupId := ids], start, end, p.interval)
  }

  /** `stats.get(group.id, {})`, with an unsupported backend giving `{}`. */
  function GroupSeries(answer: FrequencyAnswer, groupId: int): (series: FrequencySeries)
    ensures answer.NotImplemented? ==> series == []
  {
    if answer.Series? && groupId in answer.series then answer.series[groupId] else []
  }

  /** `[(k, v[id]) for k, v in series]`, or None when a point lacks `id` (KeyError). */
  function ItemSeries(series: FrequencySeries, id: int): (r: Option<seq<Point>>)
    ensures r.Some? <==> forall i :: 0 <= i < |series| ==> id in series[i].1
    ensures r.Some? ==> |r.value| == |series|
    ensures r.Some? ==> forall i :: 0 <= i < |series| ==> r.value[i] == (series[i].0, series[i].1[id])
  {
    if series == [] then Some([])
    else if id !in series[0].1 then None
    else
      match ItemSeries(series[1..], id)
      case None => None
      case Some(rest) => Some([(series[0].0, series[0].1[id])] + rest)
  }

  /**
   * The stats map of item `id` once the first `k` periods are filled in,
   * `expected[m]` being the group's series for the `m`-th period.
   */
  function StatsUpTo(expected: seq<FrequencySeries>, id: int, k: nat): map<string, seq<Point>>
    requires k <= |StatsPeriods| == |expected|
  {
    if k == 0 then map[]
    else StatsUpTo(expected, id, k - 1)[StatsPeriods[k - 1].key := ItemSeries(expected[k - 1], id).GetOr([])]
  }

  /** Every item's stats map with `key` set to the item's projection of `series`. */
  function Extend(attrs: map<int, ItemAttrs>, key: string, series: FrequencySeries): map<int, ItemAttrs> {
    map id | id in attrs :: ItemAttrs(attrs[id].stats[key := ItemSeries(series, id).GetOr([])])
  }

  /** `Extend` applied to the items in `done` only, the others left as they are. */
  function ExtendOn(attrs: map<int, ItemAttrs>, key: string, series: FrequencySeries, done: set<int>): map<int, ItemAttrs> {
    map id | id in attrs ::
      if id in done then ItemAttrs(attrs[id].stats[key := ItemSeries(series, id).GetOr([])]) else attrs[id]
  }

  /** Filling in one more item extends the filled part by that item. */
  lemma ExtendOnStep(attrs: map<int, ItemAttrs>, key: string, series: FrequencySeries, done: set<int>, id: int, points: seq<Point>)
    requires id in attrs && ItemSeries(series, id) == Some(points)
    ensures ExtendOn(attrs, key, series, done)[id := ItemAttrs(ExtendOn(attrs, key, series, done)[id].stats[key := points])]
         == ExtendOn(attrs, key, series, done + {id})
  {
    var before := ExtendOn(attrs, key, series, done);
    var after := ExtendOn(attrs, key, series, done + {id});
    var stepped := before[id := ItemAttrs(before[id].stats[key := points])];
    assert stepped.Keys == after.Keys;
    forall x | x in stepped
      ensures stepped[x] == after[x]
    {
    }
  }

  /** Once every item is filled in, `ExtendOn` is `Extend`. */
  lemma ExtendOnAll(attrs: map<int, ItemAttrs>, key: string, series: FrequencySeries, done: set<int>)
    requires attrs.Keys <= done
    ensures ExtendOn(attrs, key, series, done) == Extend(attrs, key, series)
  {
  }

  /** The ids of a one-longer prefix. */
  lemma ItemIdsStep(items: seq<Environment>, j: nat)
    requires j < |items|
    ensures ItemIds(items[..j + 1]) == ItemIds(items[..j]) + {items[j].id}
    ensures ItemIds(items[..j]) <= ItemIds(items)
    ensures items[j].id in ItemIds(items)
  {
    var prefix := items[..j + 1];
    assert prefix[j] == items[j];
    forall x | x in ItemIds(prefix)
      ensures x in ItemIds(items[..j]) + {items[j].id}
    {
      var i :| 0 <= i < |prefix| && prefix[i].id == x;
      if i < j {
        assert items[..j][i] == prefix[i];
      }
    }
    forall x | x in ItemIds(items[..j])
      ensures x in ItemIds(prefix) && x in ItemIds(items)
    {
      var i :| 0 <= i < j && items[..j][i].id == x;
      assert prefix[i] == items[i];
    }
  }

  /** The attributes of the items `ids` once the first `k` periods are filled in. */
  function AttrsUpTo(expected: seq<FrequencySeries>, ids: set<int>, k: nat): map<int, ItemAttrs>
    requires k <= |StatsPeriods| == |expected|
  {
    map id | id in ids :: ItemAttrs(StatsUpTo(expected, id, k))
  }

  lemma AttrsStep(expected: seq<FrequencySeries>, ids: set<int>, k: nat)
    requires k < |StatsPeriods| == |expected|
    ensures Extend(AttrsUpTo(expected, ids, k), StatsPeriods[k].key, expected[k]) == AttrsUpTo(expected, ids, k + 1)
  {
  }

  /**
   * Once both periods are filled in, every item has a stats map with exactly
   * the keys "24h" and "30d", each holding the item's projection of that
   * period's series.
   */
  lemma AttrsComplete(expected: seq<FrequencySeries>, ids: set<int>)
    requires |expected| == |StatsPeriods|
    ensures var attrs := AttrsUpTo(expected, ids, |StatsPeriods|);
      && attrs.Keys == ids
      && (forall id | id in attrs :: attrs[id].stats.Keys == {"24h", "30d"})
      && (forall id | id in attrs :: attrs[id].stats["24h"] == ItemSeries(expected[0], id).GetOr([]))
      && (forall id | id in attrs :: attrs[id].stats["30d"] == ItemSeries(expected[1], id).GetOr([]))
  {
    forall id | id in ids
      ensures StatsUpTo(expected, id, 2) ==
        map["24h" := ItemSeries(expected[0], id).GetOr([]), "30d" := ItemSeries(expected[1], id).GetOr([])]
    {
      assert StatsUpTo(expected, id, 1) == map["24h" := ItemSeries(expected[0], id).GetOr([])];
    }
  }

  /** `GroupEnvironmentWithStatsSerializer`: stats of `group` per environment. */
  class GroupEnvironmentWithStatsSerializer {
    const group: Group
    const since: Option<int>
    const until: Option<int>

    constructor (group: Group, since: Option<int>, until: Option<int>)
      ensures this.group == group && this.since == since && this.until == until
    {
      this.group := group;
      this.since := since;
      this.until := until;
    }

    /** The group's series the backend answers for the `m`-th period. */
    function PeriodSeries(ids: seq<int>, m: nat, now: string -> int, tsdb: FrequencyQuery -> FrequencyAnswer): FrequencySeries
      requires m < |StatsPeriods|
    {
      var p := StatsPeriods[m];
      GroupSeries(tsdb(PeriodQuery(group.id, ids, p, since, until, now(p.key))), group.id)
    }

    /** The group's series for every period, in period order. */
    function AllPeriodSeries(ids: seq<int>, now: string -> int, tsdb: FrequencyQuery -> FrequencyAnswer): (all: seq<FrequencySeries>)
      ensures |all| == |StatsPeriods|
      ensures forall m | 0 <= m < |StatsPeriods| :: all[m] == PeriodSeries(ids, m, now, tsdb)
    {
      seq(|StatsPeriods|, m requires 0 <= m < |StatsPeriods| => PeriodSeries(ids, m, now, tsdb))
    }

    /** `get_attrs(item_list, user)`: the stats of every item for every period, or the KeyError. */
    method GetAttrs(itemList: seq<Environment>, now: string -> int, tsdb: FrequencyQuery -> FrequencyAnswer)
      returns (r: Result<map<int, ItemAttrs>, KeyError>)
      ensures r.Success? <==>
        forall id, m | id in ItemIds(itemList) && 0 <= m < |StatsPeriods| ::
          ItemSeries(AllPeriodSeries(Ids(itemList), now, tsdb)[m], id).Some?
      ensures r.Success? ==>
        r.value == AttrsUpTo(AllPeriodSeries(Ids(itemList), now, tsdb), ItemIds(itemList), |StatsPeriods|)
      ensures r.Failure? ==>
        && r.error.key in ItemIds(itemList)
        && exists m | 0 <= m < |StatsPeriods| :: ItemSeries(AllPeriodSeries(Ids(itemList), now, tsdb)[m], r.error.key).None?
    {
      var attrs: map<int, ItemAttrs> := map id | id in ItemIds(itemList) :: ItemAttrs(map[]);
      var ids := CollectIds(itemList);
      ghost var expected := AllPeriodSeries(Ids(itemList), now, tsdb);

      for k := 0 to |StatsPeriods|
        invariant attrs == AttrsUpTo(expected, ItemIds(itemList), k)
        invariant forall id, m | id in ItemIds(itemList) && 0 <= m < k :: ItemSeries(expected[m], id).Some?
      {
        var series := FetchPeriod(ids, k, now, tsdb);
        var filled := FillPeriod(attrs, itemList, StatsPeriods[k].key, series);
        if filled.Failure? {
          assert ItemSeries(expected[k], filled.error.key).None?;
          return Failure(filled.error);
        }
        AttrsStep(expected, ItemIds(itemList), k);
        attrs := filled.value;
      }
      return Success(attrs);
    }

    /** The loop that fills `items[group.id]` with the ids of `itemList`, in order. */
    static method CollectIds(itemList: seq<Environment>) returns (ids: seq<int>)
      ensures ids == Ids(itemList)
    {
      ids := [];
      for i := 0 to |itemList|
        invariant |ids| == i
        invariant forall k :: 0 <= k < i ==> ids[k] == itemList[k].id
      {
        ids := ids + [itemList[i].id];
      }
    }

    /** One period's query to the frequency backend and the group's part of its answer. */
    method FetchPeriod(ids: seq<int>, k: nat, now: string -> int, tsdb: FrequencyQuery -> FrequencyAnswer)
      returns (series: FrequencySeries)
      requires k < |StatsPeriods|
      ensures series == PeriodSeries(ids, k, now, tsdb)
    {
      var p := StatsPeriods[k];
      var items := map[group.id := ids];
      var until := if this.until.Some? then this.until.value else now(p.key);
      var since := if this.since.Some? then this.since.value else until - p.segments * p.interval;
      var answer := tsdb(FrequencyQuery(items, since, until, p.interval));
      var stats := if answer.Series? then answer.series else map[];
      series := if group.id in stats then stats[group.id] else [];
    }

    /**
     * The inner loop of `get_attrs` for one period: sets `stats[key]` of every
     * item in `itemList` to the item's projection of `series`, in list
     * order, stopping at the first KeyError.
     */
    static method FillPeriod(attrs: map<int, ItemAttrs>, itemList: seq<Environment>, key: string, series: FrequencySeries)
      returns (r: Result<map<int, ItemAttrs>, KeyError>)
      requires attrs.Keys == ItemIds(itemList)
      ensures r.Success? <==> forall id | id in ItemIds(itemList) :: ItemSeries(series, id).Some?
      ensures r.Success? ==> r.value == Extend(attrs, key, series)
      ensures r.Failure? ==> r.error.key in ItemIds(itemList) && ItemSeries(series, r.error.key).None?
    {
      var filled := attrs;
      for j := 0 to |itemList|
        invariant ItemIds(itemList[..j]) <= ItemIds(itemList)
        invariant forall id | id in ItemIds(itemList[..j]) :: ItemSeries(series, id).Some?
        invariant filled == ExtendOn(attrs, key, series, ItemIds(itemList[..j]))
      {
        var item := itemList[j];
        ItemIdsStep(itemList, j);
        var points := ItemSeries(series, item.id);
        if points.None? {
          return Failure(KeyError(item.id));
        }
        ExtendOnStep(attrs, key, series, ItemIds(itemList[..j]), item.id, points.value);
        filled := filled[item.id := ItemAttrs(filled[item.id].stats[key := points.value])];
      }
      assert itemList[..|itemList|] == itemList;
      ExtendOnAll(attrs, key, series, ItemIds(itemList));
      return Success(filled);
    }

    /** `serialize(obj, attrs, user)`: the plain environment fields plus the item's stats. */
    function Serialize(obj: Environment, attrs: ItemAttrs): (d: map<string, Value>)
      ensures d.Keys == {"id", "name", "stats"}
      ensures forall key | key in SerializeEnvironment(obj) :: d[key] == SerializeEnvironment(obj)[key]
      ensures d["stats"] == StatsByPeriod(attrs.stats)
    {
      SerializeEnvironment(obj)["stats" := StatsByPeriod(attrs.stats)]
    }
  }

  /** With no window given, "24h" asks for the last day in hours and "30d" for the last 30 days in days. */
  lemma DefaultWindows(groupId: int, ids: seq<int>, now: int)
    ensures var q := PeriodQuery(groupId, ids, StatsPeriods[0], None, None, now);
      q.start == now - 86400 && q.end == now && q.rollup == 3600
    ensures var q := PeriodQuery(groupId, ids, StatsPeriods[1], None, None, now);
      q.start == now - 2592000 && q.end == now && q.rollup == 86400
  {
  }

  /** An unsupported backend yields an empty list for every item, never a KeyError. */
  lemma NotImplementedGivesEmptyStats(answer: FrequencyAnswer, groupId: int, id: int)
    requires answer.NotImplemented?
    ensures ItemSeries(GroupSeries(answer, groupId), id) == Some([])
  {
  }
}
