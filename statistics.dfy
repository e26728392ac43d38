/**
 * The integer statistics of src/hooks/useStatistics.ts: totals, counts by
 * status, per-lot utilisation, counts by spot type and the hourly
 * distribution of entries.
 */
module Statistics {
  import opened Common
  import opened Constants
  import opened Types
  import opened Seqs

  /** `totalLots`: the number of lots, which is also the number of `lotUtilization` entries. */
  function TotalLots(lots: seq<Lot>): (n: nat)
    ensures forall spots :: |LotUtilization(lots, spots)| == n
  {
    |lots|
  }

  /** `totalSpots`: the number of spots, which bounds every count by status or type. */
  function TotalSpots(spots: seq<Spot>): (n: nat)
    ensures forall status :: CountKey(spots, StatusOf, status) <= n
    ensures forall t :: CountKey(spots, TypeOf, t) <= n
  {
    |spots|
  }

  /** `availableSpots`: the spots whose status is 'available'. */
  function AvailableSpots(spots: seq<Spot>): (n: nat)
    ensures n <= |spots|
  {
    CountKey(spots, StatusOf, STATUS_AVAILABLE)
  }

  /** `occupiedSpots`: the spots whose status is 'occupied'. */
  function OccupiedSpots(spots: seq<Spot>): (n: nat)
    ensures n <= |spots|
  {
    CountKey(spots, StatusOf, STATUS_OCCUPIED)
  }

  /** No spot is counted both as available and as occupied. */
  lemma AvailableAndOccupiedBound(spots: seq<Spot>)
    ensures AvailableSpots(spots) + OccupiedSpots(spots) <= TotalSpots(spots)
  {
    var ks := [STATUS_AVAILABLE, STATUS_OCCUPIED];
    assert Distinct(ks);
    SumCountsBound(spots, StatusOf, ks);
    SumCountsCons(spots, StatusOf, STATUS_AVAILABLE, [STATUS_OCCUPIED]);
    SumCountsCons(spots, StatusOf, STATUS_OCCUPIED, []);
  }

  // --------------------------------------------------------- lot utilisation

  /** One entry of `lotUtilization`; `utilization` is a percentage with two decimals. */
  datatype LotUsage = LotUsage(id: int, name: string, total: nat, occupied: nat, utilization: real)

  /** `Math.round(x * 100) / 100`, in exact arithmetic: x rounded to two decimals, halves up. */
  function RoundHundredths(x: real): (r: real)
    ensures (r * 100.0).Floor as real == r * 100.0
    ensures x - 0.005 < r <= x + 0.005
  {
    ((x * 100.0 + 0.5).Floor as real) / 100.0
  }

  /** Only one whole number of hundredths lies in (x - 0.005, x + 0.005]: the rounding is determined. */
  lemma RoundHundredthsUnique(x: real, r: real)
    requires (r * 100.0).Floor as real == r * 100.0
    requires x - 0.005 < r <= x + 0.005
    ensures r == RoundHundredths(x)
  {
    var a := (r * 100.0).Floor;
    var b := (RoundHundredths(x) * 100.0).Floor;
    assert a as real == r * 100.0 && b as real == RoundHundredths(x) * 100.0;
    assert x * 100.0 - 0.5 < a as real <= x * 100.0 + 0.5;
    assert x * 100.0 - 0.5 < b as real <= x * 100.0 + 0.5;
    assert a == b;
  }

  /** The utilisation percentage: 0 for a lot without spots, otherwise between 0 and 100. */
  function Utilization(occupied: nat, total: nat): (u: real)
    requires occupied <= total
    ensures total == 0 ==> u == 0.0
    ensures 0.0 <= u <= 100.0
    ensures (u * 100.0).Floor as real == u * 100.0
    ensures total > 0 ==>
      (occupied as real / total as real) * 100.0 - 0.005 < u <= (occupied as real / total as real) * 100.0 + 0.005
  {
    if total > 0 then
      var ratio := occupied as real / total as real;
      assert 0.0 <= ratio <= 1.0;
      var percent := ratio * 100.0;
      assert 0.0 <= percent <= 100.0;
      RoundHundredths(percent)
    else 0.0
  }

  /** The usage of one lot: its spots, and those of them that are occupied. */
  function UsageOf(lot: Lot, spots: seq<Spot>): (u: LotUsage)
    ensures u.id == lot.id && u.name == lot.name
    ensures u.total == CountKey(spots, LotOf, lot.id)
    ensures u.occupied == CountKey(FilterKey(spots, LotOf, lot.id), StatusOf, STATUS_OCCUPIED)
    ensures u.occupied <= u.total
    ensures u.total == 0 ==> u.utilization == 0.0
    ensures 0.0 <= u.utilization <= 100.0
  {
    var lotsSpots := FilterKey(spots, LotOf, lot.id);
    var occupied := CountKey(lotsSpots, StatusOf, STATUS_OCCUPIED);
    LotUsage(lot.id, lot.name, |lotsSpots|, occupied, Utilization(occupied, |lotsSpots|))
  }

  /** `lotUtilization`: one entry per lot, in lot order. */
  function LotUtilization(lots: seq<Lot>, spots: seq<Spot>): (r: seq<LotUsage>)
    ensures |r| == |lots|
    ensures forall i :: 0 <= i < |r| ==> r[i] == UsageOf(lots[i], spots)
  {
    seq(|lots|, i requires 0 <= i < |lots| => UsageOf(lots[i], spots))
  }

  // ------------------------------------------------------------ spot types

  /** The four spot types, in the order `spotsByType` lists them. */
  const SPOT_TYPES: seq<string> := [TYPE_STANDARD, TYPE_HANDICAPPED, TYPE_ELECTRIC, TYPE_COMPACT]

  /** The display label of a type; anything not one of the first three is labelled compact. */
  function TypeLabel(spotType: string): (s: string)
    ensures spotType == TYPE_STANDARD <==> s == "标准车位"
    ensures spotType == TYPE_HANDICAPPED <==> s == "残障车位"
    ensures spotType == TYPE_ELECTRIC <==> s == "电动车位"
    ensures spotType !in [TYPE_STANDARD, TYPE_HANDICAPPED, TYPE_ELECTRIC] <==> s == "紧凑车位"
  {
    if spotType == TYPE_STANDARD then "标准车位"
    else if spotType == TYPE_HANDICAPPED then "残障车位"
    else if spotType == TYPE_ELECTRIC then "电动车位"
    else "紧凑车位"
  }

  datatype TypeCount = TypeCount(spotType: string, text: string, count: nat)

  /** `spotsByType`: exactly four entries, in type order, each counting the spots of its type. */
  function SpotsByType(spots: seq<Spot>): (r: seq<TypeCount>)
    ensures |r| == 4
    ensures forall i :: 0 <= i < 4 ==>
      r[i].spotType == SPOT_TYPES[i] && r[i].count == CountKey(spots, TypeOf, SPOT_TYPES[i])
    ensures r[0].text == "标准车位" && r[1].text == "残障车位"
    ensures r[2].text == "电动车位" && r[3].text == "紧凑车位"
  {
    seq(4, i requires 0 <= i < 4 =>
      TypeCount(SPOT_TYPES[i], TypeLabel(SPOT_TYPES[i]), CountKey(spots, TypeOf, SPOT_TYPES[i])))
  }

  /** The four type counts never add up to more than the spots there are. */
  lemma SpotsByTypeBound(spots: seq<Spot>)
    ensures var r := SpotsByType(spots);
      r[0].count + r[1].count + r[2].count + r[3].count <= |spots|
  {
    assert Distinct(SPOT_TYPES);
    SumCountsBound(spots, TypeOf, SPOT_TYPES);
    SumCountsCons(spots, TypeOf, TYPE_STANDARD, [TYPE_HANDICAPPED, TYPE_ELECTRIC, TYPE_COMPACT]);
    SumCountsCons(spots, TypeOf, TYPE_HANDICAPPED, [TYPE_ELECTRIC, TYPE_COMPACT]);
    SumCountsCons(spots, TypeOf, TYPE_ELECTRIC, [TYPE_COMPACT]);
    SumCountsCons(spots, TypeOf, TYPE_COMPACT, []);
  }

  // -------------------------------------------------------- hours of entry

  /** The decimal digit for d. */
  function DigitChar(d: int): char
    requires 0 <= d < 10
  {
    "0123456789"[d]
  }

  /** The decimal numeral of n, as JavaScript's template string prints a whole number. */
  function DecimalString(n: nat): (s: string)
    ensures |s| >= 1
    ensures n < 10 ==> s == [DigitChar(n)]
    ensures 10 <= n < 100 ==> s == [DigitChar(n / 10), DigitChar(n % 10)]
    decreases n
  {
    if n < 10 then [DigitChar(n)] else DecimalString(n / 10) + [DigitChar(n % 10)]
  }

  /** The label `${hour}:00`. */
  function HourLabel(h: Hour): (s: string)
    ensures |s| >= 4 && s[|s| - 3..] == ":00"
    ensures s[..|s| - 3] == DecimalString(h)
  {
    DecimalString(h) + ":00"
  }

  datatype HourEntry = HourEntry(hour: string, count: nat)

  /** The 24 hours of the day as the values `getHours` can return. */
  function AllHours(): (hs: seq<Option<Hour>>)
    ensures |hs| == 24 && forall h :: 0 <= h < 24 ==> hs[h] == Some(h)
  {
    seq(24, h requires 0 <= h < 24 => Some(h as Hour))
  }

  /** `hourlyDistribution`: entry h is labelled `h:00` and counts the records that entered in hour h. */
  function HourlyDistribution(records: seq<ParkingRecord>): (r: seq<HourEntry>)
    ensures |r| == 24
    ensures forall h :: 0 <= h < 24 ==>
      r[h].hour == HourLabel(h) && r[h].count == CountKey(records, EntryHourOf, Some(h))
  {
    seq(24, h requires 0 <= h < 24 => HourEntry(HourLabel(h), CountKey(records, EntryHourOf, Some(h as Hour))))
  }

  /** The counts of a list of hour entries, added up. */
  function TotalCount(entries: seq<HourEntry>): nat {
    if entries == [] then 0 else entries[0].count + TotalCount(entries[1..])
  }

  lemma {:induction false} HourlySumFrom(records: seq<ParkingRecord>, j: nat)
    requires j <= 24
    ensures TotalCount(HourlyDistribution(records)[j..]) == SumCounts(records, EntryHourOf, AllHours()[j..])
    decreases 24 - j
  {
    if j < 24 {
      HourlySumFrom(records, j + 1);
      assert HourlyDistribution(records)[j..][1..] == HourlyDistribution(records)[j + 1..];
      assert AllHours()[j..][1..] == AllHours()[j + 1..];
    }
  }

  /**
   * Each record is counted in at most one hour: the 24 counts add up to at
   * most the number of records, and to all of them when every entry time parses.
   */
  lemma HourlyDistributionBound(records: seq<ParkingRecord>)
    ensures TotalCount(HourlyDistribution(records)) <= |records|
    ensures (forall i :: 0 <= i < |records| ==> records[i].entryHour.Some?) ==>
      TotalCount(HourlyDistribution(records)) == |records|
  {
    HourlySumFrom(records, 0);
    var hs := AllHours();
    assert hs[0..] == hs;
    assert HourlyDistribution(records)[0..] == HourlyDistribution(records);
    assert Distinct(hs);
    SumCountsBound(records, EntryHourOf, hs);
    if forall i :: 0 <= i < |records| ==> records[i].entryHour.Some? {
      forall i | 0 <= i < |records| ensures EntryHourOf(records[i]) in hs {
        var h := records[i].entryHour.value;
        assert hs[h] == Some(h);
      }
    }
  }
}
