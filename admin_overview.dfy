/**
 * The admin overview: the counts the stat cards show, with every missing
 * value read as 0, and the members-per-club chart data.
 */
module AdminOverview {
  import opened Wrappers
  import opened JsValues

  /** Club counts by status, each possibly missing. */
  datatype ClubCounts = ClubCounts(pending: Option<int>, approved: Option<int>, rejected: Option<int>)

  /** One `membershipsPerClub` item. */
  datatype ClubMembership = ClubMembership(clubName: Option<string>, count: int)

  /** The stats the backend returns; any part may be missing. */
  datatype Stats = Stats(
    totalUsers: Option<int>, totalClubs: Option<ClubCounts>, totalMemberships: Option<int>,
    membershipsPerClub: Option<seq<ClubMembership>>)

  /** `n || 0` on an optional count. */
  function CountOr0(n: Option<int>): (shown: int)
    ensures n.None? ==> shown == 0
    ensures n.Some? ==> shown == n.value
  {
    match n
    case Some(v) => v
    case None => 0
  }

  /** One bar of the chart. */
  datatype Bar = Bar(name: string, members: int)

  /** A bar's label: the first 15 characters of the club name, or "Unknown" when there is none. */
  function BarName(clubName: Option<string>): (name: string)
    ensures clubName.None? || clubName == Some("") ==> name == "Unknown"
    ensures clubName.Some? && clubName.value != "" ==> name == Prefix(clubName.value, 15) && |name| <= 15
  {
    TextOr(match clubName case Some(s) => Some(Prefix(s, 15)) case None => None, "Unknown")
  }

  /** `membershipsPerClub.map(...)`: one bar per item, in the same order. */
  function ChartBars(items: seq<ClubMembership>): (bars: seq<Bar>)
    ensures |bars| == |items|
    ensures forall k :: 0 <= k < |items| ==> bars[k] == Bar(BarName(items[k].clubName), items[k].count)
  {
    if |items| == 0 then [] else [Bar(BarName(items[0].clubName), items[0].count)] + ChartBars(items[1..])
  }

  /** What the overview shows. */
  datatype Overview = Overview(
    totalUsers: int, totalClubs: int, totalMemberships: int,
    pending: int, approved: int, rejected: int,
    chart: seq<Bar>, chartShown: bool)

  function OverviewOf(stats: Option<Stats>): (v: Overview)
    ensures v.totalClubs == v.pending + v.approved + v.rejected
    ensures v.chartShown <==> |v.chart| > 0
    ensures stats.None? ==> v == Overview(0, 0, 0, 0, 0, 0, [], false)
    ensures stats.Some? && stats.value.membershipsPerClub.None? ==> v.chart == [] && !v.chartShown
    ensures stats.Some? && stats.value.membershipsPerClub.Some? ==> |v.chart| == |stats.value.membershipsPerClub.value|
    ensures stats.Some? && stats.value.totalClubs.None? ==> v.pending == 0 && v.approved == 0 && v.rejected == 0
    ensures stats.Some? ==>
      v.totalUsers == CountOr0(stats.value.totalUsers) && v.totalMemberships == CountOr0(stats.value.totalMemberships)
    ensures (stats.Some? && stats.value.totalClubs.Some? ==>
      v.pending == CountOr0(stats.value.totalClubs.value.pending) &&
      v.approved == CountOr0(stats.value.totalClubs.value.approved) &&
      v.rejected == CountOr0(stats.value.totalClubs.value.rejected))
    ensures stats.Some? && stats.value.membershipsPerClub.Some? ==> v.chart == ChartBars(stats.value.membershipsPerClub.value)
  {
    match stats
    case None => Overview(0, 0, 0, 0, 0, 0, [], false)
    case Some(s) =>
      var counts := s.totalClubs.GetOr(ClubCounts(None, None, None));
      var pending := CountOr0(counts.pending);
      var approved := CountOr0(counts.approved);
      var rejected := CountOr0(counts.rejected);
      var chart := match s.membershipsPerClub case Some(items) => ChartBars(items) case None => [];
      Overview(CountOr0(s.totalUsers), pending + approved + rejected, CountOr0(s.totalMemberships),
               pending, approved, rejected, chart, |chart| > 0)
  }
}
