/** The device usage graph (`components/device-usage-graph.tsx`): seven days of usage per device, the
    per-day total over all devices, the scale of the bar chart, the 7-day total on each device card and
    the initial device selection. Dates are day numbers; the generated usage is given by `draw`. */
module DeviceUsageGraph {
  import opened Util
  import opened DeviceStatusTable

  /** One entry of `dailyUsage`. */
  datatype DayUsage = DayUsage(date: int, usage: int)

  /** `DeviceUsageData`. */
  datatype DeviceUsage = DeviceUsage(id: string, name: string, dailyUsage: seq<DayUsage>)

  function DateOf(d: DayUsage): int { d.date }
  function UsageOf(d: DayUsage): int { d.usage }

  /** The seven days ending today, oldest first: `date.setDate(date.getDate() - (6 - i))`. */
  function WeekDates(today: int): (r: seq<int>)
    ensures |r| == 7
    ensures forall i :: 0 <= i < 7 ==> r[i] == today - (6 - i)
  {
    seq(7, i requires 0 <= i < 7 => today - (6 - i))
  }

  predicate Distinct(dates: seq<int>)
  {
    forall i, j :: 0 <= i < j < |dates| ==> dates[i] != dates[j]
  }

  /** The sample usage of one day: 100..199 for a running device, 50..99 for an idle one, 20..49
      otherwise, with the random part given as `k`. */
  function BaseUsage(status: DeviceStatus, k: nat): int
  {
    match status
    case Running => 100 + k % 100
    case Idle => 50 + k % 50
    case Finished => 20 + k % 30
  }

  /** The seven entries of one device: the week's dates, each with a usage drawn for its status. */
  function DeviceWeek(status: DeviceStatus, k: nat, today: int, draw: (nat, nat) -> nat): (u: seq<DayUsage>)
    ensures |u| == 7
    ensures Map(u, DateOf) == WeekDates(today)
    ensures forall i :: 0 <= i < |u| ==> u[i].usage == BaseUsage(status, draw(k, i))
  {
    var u := seq(7, i requires 0 <= i < 7 => DayUsage(today - (6 - i), BaseUsage(status, draw(k, i))));
    assert Map(u, DateOf) == WeekDates(today) by {
      forall i | 0 <= i < 7 ensures Map(u, DateOf)[i] == WeekDates(today)[i] {
      }
    }
    u
  }

  /** `generateUsageData()`: one record per device, with the device's id and name and a usage for each
      of the seven days. */
  function GenerateUsageData(devices: seq<Device>, today: int, draw: (nat, nat) -> nat): (r: seq<DeviceUsage>)
    ensures |r| == |devices|
    ensures forall k :: 0 <= k < |r| ==>
      r[k].id == devices[k].id && r[k].name == devices[k].name &&
      Map(r[k].dailyUsage, DateOf) == WeekDates(today) &&
      forall i :: 0 <= i < |r[k].dailyUsage| ==> r[k].dailyUsage[i].usage == BaseUsage(devices[k].status, draw(k, i))
  {
    seq(|devices|, k requires 0 <= k < |devices| =>
      DeviceUsage(devices[k].id, devices[k].name, DeviceWeek(devices[k].status, k, today, draw)))
  }

  /** `dayData?.usage || 0`: the usage of the first entry with that date, or 0 when there is none. */
  function UsageOn(days: seq<DayUsage>, date: int): int
  {
    if days == [] then 0
    else if days[0].date == date then days[0].usage
    else UsageOn(days[1..], date)
  }

  /** The `reduce` over the devices: the sum of every device's usage on that date. */
  function TotalOn(data: seq<DeviceUsage>, date: int): int
  {
    if data == [] then 0 else UsageOn(data[0].dailyUsage, date) + TotalOn(data[1..], date)
  }

  function TotalEntry(data: seq<DeviceUsage>): int -> DayUsage
  {
    (date: int) => DayUsage(date, TotalOn(data, date))
  }

  /** `calculateTotalDailyUsage()`: the first device's dates, each with the total over all devices. */
  function TotalDailyUsage(data: seq<DeviceUsage>): (r: seq<DayUsage>)
  {
    if data == [] then [] else Map(Map(data[0].dailyUsage, DateOf), TotalEntry(data))
  }

  /** The total series has an entry for each of the first device's dates, in order, and each entry is
      the sum over the devices of their usage that day, a device without the date counting 0; without
      devices the series is empty. */
  lemma TotalDailyUsageEntries(data: seq<DeviceUsage>, i: nat)
    ensures data == [] ==> TotalDailyUsage(data) == []
    ensures data != [] ==> |TotalDailyUsage(data)| == |data[0].dailyUsage|
    ensures data != [] && i < |data[0].dailyUsage| ==>
      TotalDailyUsage(data)[i] == DayUsage(data[0].dailyUsage[i].date, TotalOn(data, data[0].dailyUsage[i].date))
  {
  }

  /** The 7-day total shown on a device card: the sum of its `dailyUsage`. */
  function SeriesTotal(days: seq<DayUsage>): int
  {
    if days == [] then 0 else days[0].usage + SeriesTotal(days[1..])
  }

  /** `usageData.find((device) => device.id === selectedDeviceId)`. */
  function FindDevice(data: seq<DeviceUsage>, id: string): (r: Option<DeviceUsage>)
    ensures r.None? <==> forall k :: 0 <= k < |data| ==> data[k].id != id
    ensures r.Some? ==> r.value.id == id && r.value in data
  {
    FindFirst(data, (d: DeviceUsage) => d.id == id)
  }

  /** `getMaxUsage()`: the largest usage of the chosen series, and at least 100. With a selection the
      series is the selected device's (empty when no device has that id), without one the totals. */
  function MaxUsage(data: seq<DeviceUsage>, selectedId: string): int
  {
    var found := FindDevice(data, selectedId);
    var selected :=
      if selectedId != "" then (if found.Some? then found.value.dailyUsage else [])
      else TotalDailyUsage(data);
    MaxWith(Map(selected, UsageOf), 100)
  }

  /** The scale is at least 100. "all" is a selection like any other: unless a device has the id
      "all" the scale is exactly 100, whatever the totals. */
  lemma MaxUsageBounds(data: seq<DeviceUsage>, selectedId: string)
    ensures MaxUsage(data, selectedId) >= 100
    ensures (forall j :: 0 <= j < |data| ==> data[j].id != "all") ==> MaxUsage(data, "all") == 100
  {
  }

  /** The scale is at least every usage of the selected device, so no bar is taller than the chart. */
  lemma MaxUsageCoversSelected(data: seq<DeviceUsage>, selectedId: string, k: nat, i: nat)
    requires selectedId != "" && k < |data| && data[k].id == selectedId
    requires forall j :: 0 <= j < k ==> data[j].id != selectedId
    requires i < |data[k].dailyUsage|
    ensures data[k].dailyUsage[i].usage <= MaxUsage(data, selectedId)
  {
    FirstFound(data, selectedId, k);
    assert Map(data[k].dailyUsage, UsageOf)[i] == data[k].dailyUsage[i].usage;
  }

  /** The bars the main chart draws: the totals when "all" is chosen, otherwise the chosen device's
      days, and none when no device has that id. */
  function ShownSeries(data: seq<DeviceUsage>, selectedId: string): seq<DayUsage>
  {
    if selectedId == "all" then TotalDailyUsage(data)
    else
      var found := FindDevice(data, selectedId);
      if found.Some? then found.value.dailyUsage else []
  }

  /** As written, choosing "all" draws the totals against a scale of 100: two running devices at 150
      on the same day give a bar of 300, three times the height of the chart. */
  lemma AllChartOverflows()
    ensures var data := [DeviceUsage("DEV001", "A", [DayUsage(0, 150)]), DeviceUsage("DEV002", "B", [DayUsage(0, 150)])];
      ShownSeries(data, "all") == [DayUsage(0, 300)] && MaxUsage(data, "all") == 100
  {
    var data := [DeviceUsage("DEV001", "A", [DayUsage(0, 150)]), DeviceUsage("DEV002", "B", [DayUsage(0, 150)])];
    MaxUsageBounds(data, "all");
    assert TotalOn(data, 0) == 300;
    assert TotalDailyUsage(data)[0] == DayUsage(0, 300);
  }

  /** The scale as evidently intended: the largest bar the chart actually draws, and at least 100. */
  function IntendedMaxUsage(data: seq<DeviceUsage>, selectedId: string): int
  {
    MaxWith(Map(ShownSeries(data, selectedId), UsageOf), 100)
  }

  /** With the intended scale no bar the chart draws is taller than the chart, whatever is chosen,
      and the scale never drops below 100. */
  lemma IntendedScaleCoversShown(data: seq<DeviceUsage>, selectedId: string, i: nat)
    requires i < |ShownSeries(data, selectedId)|
    ensures IntendedMaxUsage(data, selectedId) >= 100
    ensures ShownSeries(data, selectedId)[i].usage <= IntendedMaxUsage(data, selectedId)
  {
    assert Map(ShownSeries(data, selectedId), UsageOf)[i] == ShownSeries(data, selectedId)[i].usage;
  }

  lemma FirstFound(data: seq<DeviceUsage>, id: string, k: nat)
    requires k < |data| && data[k].id == id
    requires forall j :: 0 <= j < k ==> data[j].id != id
    ensures FindDevice(data, id) == Some(data[k])
  {
    FindFirstIsFirst(data, (d: DeviceUsage) => d.id == id, k);
  }

  /** The sum over `dates` of one series' usage on each date. */
  function SumOn(dates: seq<int>, days: seq<DayUsage>): int
  {
    if dates == [] then 0 else UsageOn(days, dates[0]) + SumOn(dates[1..], days)
  }

  /** The sum over `dates` of the totals. */
  function SumTotals(dates: seq<int>, data: seq<DeviceUsage>): int
  {
    if dates == [] then 0 else TotalOn(data, dates[0]) + SumTotals(dates[1..], data)
  }

  /** The sum over the devices of each one's usage summed over `dates`. */
  function SumDevicesOn(data: seq<DeviceUsage>, dates: seq<int>): int
  {
    if data == [] then 0 else SumOn(dates, data[0].dailyUsage) + SumDevicesOn(data[1..], dates)
  }

  /** The sum of the card totals. */
  function CardsTotal(data: seq<DeviceUsage>): int
  {
    if data == [] then 0 else SeriesTotal(data[0].dailyUsage) + CardsTotal(data[1..])
  }

  lemma {:induction false} SumOnSkipsHead(dates: seq<int>, days: seq<DayUsage>)
    requires days != [] && days[0].date !in dates
    ensures SumOn(dates, days) == SumOn(dates, days[1..])
  {
    if dates != [] {
      SumOnSkipsHead(dates[1..], days);
    }
  }

  /** Summing a series over its own distinct dates gives its total. */
  lemma {:induction false} SumOnOwnDates(days: seq<DayUsage>)
    requires Distinct(Map(days, DateOf))
    ensures SumOn(Map(days, DateOf), days) == SeriesTotal(days)
  {
    if days != [] {
      var dates := Map(days, DateOf);
      assert dates[1..] == Map(days[1..], DateOf);
      assert days[0].date !in dates[1..] by {
        forall j | 0 <= j < |dates[1..]| ensures dates[1..][j] != days[0].date {
          assert dates[0] != dates[j + 1];
        }
      }
      SumOnSkipsHead(dates[1..], days);
      SumOnOwnDates(days[1..]);
    }
  }

  lemma {:induction false} SumDevicesSplit(data: seq<DeviceUsage>, dates: seq<int>)
    requires dates != []
    ensures SumDevicesOn(data, dates) == TotalOn(data, dates[0]) + SumDevicesOn(data, dates[1..])
  {
    if data != [] {
      SumDevicesSplit(data[1..], dates);
    }
  }

  /** Summing the totals over the dates is summing each device over the dates. */
  lemma {:induction false} SwapSums(dates: seq<int>, data: seq<DeviceUsage>)
    ensures SumTotals(dates, data) == SumDevicesOn(data, dates)
  {
    if dates == [] {
      EmptyDates(data);
    } else {
      SwapSums(dates[1..], data);
      SumDevicesSplit(data, dates);
    }
  }

  lemma {:induction false} EmptyDates(data: seq<DeviceUsage>)
    ensures SumDevicesOn(data, []) == 0
  {
    if data != [] {
      EmptyDates(data[1..]);
    }
  }

  lemma {:induction false} SeriesOfTotals(dates: seq<int>, data: seq<DeviceUsage>)
    ensures SeriesTotal(Map(dates, TotalEntry(data))) == SumTotals(dates, data)
  {
    if dates != [] {
      assert Map(dates, TotalEntry(data))[1..] == Map(dates[1..], TotalEntry(data));
      SeriesOfTotals(dates[1..], data);
    }
  }

  lemma {:induction false} CardsOnSharedDates(data: seq<DeviceUsage>, dates: seq<int>)
    requires Distinct(dates)
    requires forall k :: 0 <= k < |data| ==> Map(data[k].dailyUsage, DateOf) == dates
    ensures SumDevicesOn(data, dates) == CardsTotal(data)
  {
    if data != [] {
      SumOnOwnDates(data[0].dailyUsage);
      CardsOnSharedDates(data[1..], dates);
    }
  }

  /** When every device reports the same distinct dates, as the generated data do, the "all" series
      adds up to the sum of the device cards' 7-day totals. */
  lemma TotalsMatchCards(data: seq<DeviceUsage>)
    requires data != []
    requires Distinct(Map(data[0].dailyUsage, DateOf))
    requires forall k :: 0 <= k < |data| ==> Map(data[k].dailyUsage, DateOf) == Map(data[0].dailyUsage, DateOf)
    ensures SeriesTotal(TotalDailyUsage(data)) == CardsTotal(data)
  {
    var dates := Map(data[0].dailyUsage, DateOf);
    SeriesOfTotals(dates, data);
    SwapSums(dates, data);
    CardsOnSharedDates(data, dates);
  }

  /** The generated data meet that condition: the week's dates are distinct and shared. */
  lemma GeneratedTotalsMatchCards(devices: seq<Device>, today: int, draw: (nat, nat) -> nat)
    requires devices != []
    ensures var data := GenerateUsageData(devices, today, draw);
      SeriesTotal(TotalDailyUsage(data)) == CardsTotal(data)
  {
    var data := GenerateUsageData(devices, today, draw);
    assert Map(data[0].dailyUsage, DateOf) == WeekDates(today);
    TotalsMatchCards(data);
  }

  class UsageGraph {
    const devices: seq<Device>
    var selectedDeviceId: string
    var usageData: seq<DeviceUsage>

    /** The first render: the usage data are generated for the devices, then the initial selection
        effect runs. */
    constructor (shared: seq<Device>, today: int, draw: (nat, nat) -> nat)
      ensures devices == shared && usageData == GenerateUsageData(shared, today, draw)
      ensures selectedDeviceId == if |shared| > 0 then shared[0].id else ""
    {
      devices := shared;
      usageData := GenerateUsageData(shared, today, draw);
      selectedDeviceId := "";
      new;
      SelectInitial();
    }

    /** The initial-selection effect: with devices and no selection, the first device is selected; a
        selection is never overwritten. */
    method SelectInitial()
      modifies this`selectedDeviceId
      ensures selectedDeviceId == if |devices| > 0 && old(selectedDeviceId) == "" then devices[0].id else old(selectedDeviceId)
    {
      if |devices| > 0 && selectedDeviceId == "" {
        selectedDeviceId := devices[0].id;
      }
    }

    /** The device select. */
    method Select(id: string)
      modifies this`selectedDeviceId
      ensures selectedDeviceId == id
    {
      selectedDeviceId := id;
    }

    /** `maxUsage`, the chart's height as written: never below 100, and, when "all" is chosen and no
        device has the id "all", exactly 100 whatever the totals drawn against it. */
    function Scale(): (s: int)
      reads this
      ensures s >= 100
      ensures selectedDeviceId == "all" && (forall j :: 0 <= j < |usageData| ==> usageData[j].id != "all") ==> s == 100
    {
      MaxUsageBounds(usageData, selectedDeviceId);
      MaxUsage(usageData, selectedDeviceId)
    }
  }
}
