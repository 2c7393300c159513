/**
 * The rotating global-statistics display of `IndexPage`
 * (src/pages/index.js): five fixed descriptors, the index of the one shown,
 * and five nullable figures written together from the latest snapshot of
 * the global endpoint.
 */
module GlobalStatistics {

  import opened Wrappers

  /** The state field a descriptor shows. */
  datatype StatKey = GlobalDeaths | GlobalCases | GlobalRecovered | GlobalFatal | GlobalDailyCases

  // `title` is the `label` property of the source (a reserved word in Dafny).
  datatype Descriptor = Descriptor(title: string, key: StatKey, color: string)

  /** The fixed descriptor list, in display order. */
  const Descriptors: seq<Descriptor> := [
    Descriptor("Global Deaths", GlobalDeaths, "#FF0000"),
    Descriptor("Global Cases", GlobalCases, "#00FF00"),
    Descriptor("Global Recovered", GlobalRecovered, "#0000FF"),
    Descriptor("Global Fatal", GlobalFatal, "#FFA500"),
    Descriptor("Global Daily Cases", GlobalDailyCases, "#800080")
  ]

  /** The fields of one successful response of the global endpoint. */
  datatype Snapshot = Snapshot(deaths: nat, cases: nat, recovered: nat, todayCases: nat, todayDeaths: nat)

  /** What the statistic under `key` means for a snapshot; "fatal" is the death count again. */
  function Reading(key: StatKey, s: Snapshot): nat {
    match key
    case GlobalDeaths => s.deaths
    case GlobalCases => s.cases
    case GlobalRecovered => s.recovered
    case GlobalFatal => s.deaths
    case GlobalDailyCases => s.todayCases
  }

  /** What the statistic box shows: the raw figure, or "Loading..." while it is null. */
  datatype Display = Loading | Shows(value: nat)

  /** The index after one rotation. */
  function NextIndex(i: nat): (j: nat)
    ensures j < |Descriptors|
    ensures i < |Descriptors| - 1 ==> j == i + 1
    ensures i == |Descriptors| - 1 ==> j == 0
  {
    (i + 1) % |Descriptors|
  }

  /** The index after `k` rotations from `i`. */
  function Rotated(i: nat, k: nat): nat {
    if k == 0 then i else NextIndex(Rotated(i, k - 1))
  }

  /** `k` rotations from a valid index move it on by `k` modulo the list length. */
  lemma {:induction false} RotatedIsModular(i: nat, k: nat)
    requires i < |Descriptors|
    ensures Rotated(i, k) == (i + k) % |Descriptors|
  {
    if k > 0 {
      RotatedIsModular(i, k - 1);
    }
  }

  /** Five rotations bring the display back to where it started. */
  lemma FiveRotationsReturn(i: nat)
    requires i < |Descriptors|
    ensures Rotated(i, 5) == i
  {
    RotatedIsModular(i, 5);
  }

  /** `todayDeaths` is fetched but never shown: no statistic reads it. */
  lemma TodayDeathsUnused(s: Snapshot, t: Snapshot)
    requires s.(todayDeaths := t.todayDeaths) == t
    ensures forall key :: Reading(key, s) == Reading(key, t)
  {
  }

  /** The latest snapshot after `results` settle in order, starting from `start`: failures keep what was there. */
  function LatestAfter(start: Option<Snapshot>, results: seq<Option<Snapshot>>): Option<Snapshot> {
    if results == [] then start
    else if results[|results| - 1].Some? then results[|results| - 1]
    else LatestAfter(start, results[..|results| - 1])
  }

  class IndexPage {
    var statistics: seq<Descriptor>
    var currentIndex: nat
    var globalDeaths: Option<nat>
    var globalCases: Option<nat>
    var globalRecovered: Option<nat>
    var globalFatal: Option<nat>
    var globalDailyCases: Option<nat>

    /** The latest snapshot received, if any. */
    ghost var latest: Option<Snapshot>
    /** How many requests to the global endpoint the page has issued. */
    ghost var fetchRequests: nat

    /** The value of the state field named by `key` (`this.state[key]`). */
    function Value(key: StatKey): Option<nat>
      reads this`globalDeaths, this`globalCases, this`globalRecovered, this`globalFatal, this`globalDailyCases
    {
      match key
      case GlobalDeaths => globalDeaths
      case GlobalCases => globalCases
      case GlobalRecovered => globalRecovered
      case GlobalFatal => globalFatal
      case GlobalDailyCases => globalDailyCases
    }

    /**
     * The descriptor list is the fixed one, the index points into it, and the
     * five figures are all null before the first snapshot and are that
     * snapshot's readings afterwards.
     */
    ghost predicate Valid()
      reads this
    {
      && statistics == Descriptors
      && currentIndex < |statistics|
      && forall key :: Value(key) == (if latest.None? then None else Some(Reading(key, latest.value)))
    }

    constructor ()
      ensures Valid()
      ensures statistics == Descriptors && currentIndex == 0
      ensures globalDeaths.None? && globalCases.None? && globalRecovered.None?
      ensures globalFatal.None? && globalDailyCases.None?
      ensures latest.None? && fetchRequests == 0
    {
      statistics := Descriptors;
      currentIndex := 0;
      globalDeaths, globalCases, globalRecovered := None, None, None;
      globalFatal, globalDailyCases := None, None;
      latest := None;
      fetchRequests := 0;
    }

    /** Issues one request to the global endpoint; its result arrives later through `ReceiveGlobalStatistics`. */
    method FetchGlobalStatistics()
      modifies this`fetchRequests
      ensures fetchRequests == old(fetchRequests) + 1
    {
      fetchRequests := fetchRequests + 1;
    }

    /** Mounting fetches once straight away; the five-second timer then calls `RotateStatistics`. */
    method ComponentDidMount()
      requires Valid()
      modifies this`fetchRequests
      ensures Valid()
      ensures fetchRequests == old(fetchRequests) + 1
    {
      FetchGlobalStatistics();
    }

    /**
     * The settlement of one global request: a snapshot overwrites all five
     * figures, "fatal" with the death count, and a failure changes nothing.
     */
    method ReceiveGlobalStatistics(result: Option<Snapshot>)
      requires Valid()
      modifies this
      ensures Valid()
      ensures result.None? ==> unchanged(this)
      ensures result.Some? ==>
                && globalDeaths == Some(result.value.deaths)
                && globalCases == Some(result.value.cases)
                && globalRecovered == Some(result.value.recovered)
                && globalFatal == Some(result.value.deaths)
                && globalDailyCases == Some(result.value.todayCases)
                && latest == result
      ensures statistics == old(statistics) && currentIndex == old(currentIndex)
      ensures fetchRequests == old(fetchRequests)
    {
      if result.Some? {
        var s := result.value;
        globalDeaths := Some(s.deaths);
        globalCases := Some(s.cases);
        globalRecovered := Some(s.recovered);
        globalFatal := Some(s.deaths);
        globalDailyCases := Some(s.todayCases);
        latest := result;
      }
    }

    /** One timer tick: request fresh figures and show the next statistic. */
    method RotateStatistics()
      requires Valid()
      modifies this`currentIndex, this`fetchRequests
      ensures Valid()
      ensures currentIndex == NextIndex(old(currentIndex))
      ensures fetchRequests == old(fetchRequests) + 1
    {
      var newIndex := (currentIndex + 1) % |statistics|;
      FetchGlobalStatistics();
      currentIndex := newIndex;
    }

    /** A button click: show statistic `index`, fetching nothing. */
    method SwitchStatistic(index: nat)
      requires Valid()
      requires index < |statistics|
      modifies this`currentIndex
      ensures Valid()
      ensures currentIndex == index
    {
      currentIndex := index;
    }

    /** The descriptor being shown. */
    function CurrentStatistic(): (d: Descriptor)
      reads this
      requires Valid()
      ensures d == Descriptors[currentIndex]
      ensures d in Descriptors
    {
      statistics[currentIndex]
    }

    /**
     * The figure in the statistic box: "Loading..." exactly until the first
     * snapshot arrives, then the current descriptor's reading of the latest one.
     */
    function Displayed(): (d: Display)
      reads this
      requires Valid()
      ensures d.Loading? <==> latest.None?
      ensures latest.Some? ==> d == Shows(Reading(CurrentStatistic().key, latest.value))
    {
      var v := Value(CurrentStatistic().key);
      if v.None? then Loading else Shows(v.value)
    }

    /**
     * Five timer ticks, each followed by the settlement of its own request:
     * five requests go out, the same statistic is shown again, and the
     * latest snapshot is the last one that arrived.
     */
    method FiveTicks(results: seq<Option<Snapshot>>)
      requires Valid()
      requires |results| == 5
      modifies this
      ensures Valid()
      ensures currentIndex == old(currentIndex)
      ensures fetchRequests == old(fetchRequests) + 5
      ensures latest == LatestAfter(old(latest), results)
    {
      ghost var start := currentIndex;
      var k := 0;
      while k < 5
        invariant 0 <= k <= 5
        invariant Valid()
        invariant currentIndex == Rotated(start, k)
        invariant fetchRequests == old(fetchRequests) + k
        invariant latest == LatestAfter(old(latest), results[..k])
      {
        RotateStatistics();
        ReceiveGlobalStatistics(results[k]);
        assert results[..k + 1][..k] == results[..k];
        k := k + 1;
      }
      assert results[..5] == results;
      FiveRotationsReturn(start);
    }
  }
}
