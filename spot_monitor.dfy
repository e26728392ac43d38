/**
 * The live spot monitor of src/hooks/useSpotMonitor.ts: counting and grouping
 * of the loaded spots, the lot/zone selection, the queries a refresh issues,
 * and the auto-refresh interval handle.
 */
module SpotMonitor {
  import opened Common
  import opened Constants
  import opened Types
  import opened Seqs

  /** The four statuses spotStats counts, in its order. */
  const COUNTED_STATUSES: seq<string> := [STATUS_AVAILABLE, STATUS_OCCUPIED, STATUS_RESERVED, STATUS_MAINTENANCE]

  /** The computed `spotStats`. */
  datatype SpotStats = SpotStats(total: nat, available: nat, occupied: nat, reserved: nat, maintenance: nat)

  lemma CountedStatusesDistinct()
    ensures Distinct(COUNTED_STATUSES)
  {
  }

  /**
   * `spotStats`: the list length and one counter per status, each the number
   * of spots with that status; the counters add up to at most the total, and
   * to the total exactly when every status is one of the four.
   */
  method ComputeSpotStats(spots: seq<Spot>) returns (stats: SpotStats)
    ensures stats.total == |spots|
    ensures stats.available == CountKey(spots, StatusOf, STATUS_AVAILABLE)
    ensures stats.occupied == CountKey(spots, StatusOf, STATUS_OCCUPIED)
    ensures stats.reserved == CountKey(spots, StatusOf, STATUS_RESERVED)
    ensures stats.maintenance == CountKey(spots, StatusOf, STATUS_MAINTENANCE)
    ensures stats.available + stats.occupied + stats.reserved + stats.maintenance <= stats.total
    ensures (forall i :: 0 <= i < |spots| ==> spots[i].status in COUNTED_STATUSES) ==>
      stats.available + stats.occupied + stats.reserved + stats.maintenance == stats.total
  {
    stats := SpotStats(|spots|, 0, 0, 0, 0);
    var i := 0;
    while i < |spots|
      invariant 0 <= i <= |spots|
      invariant stats.total == |spots|
      invariant stats.available == CountKey(spots[..i], StatusOf, STATUS_AVAILABLE)
      invariant stats.occupied == CountKey(spots[..i], StatusOf, STATUS_OCCUPIED)
      invariant stats.reserved == CountKey(spots[..i], StatusOf, STATUS_RESERVED)
      invariant stats.maintenance == CountKey(spots[..i], StatusOf, STATUS_MAINTENANCE)
    {
      var spot := spots[i];
      assert spots[..i + 1] == spots[..i] + [spot];
      FilterKeySnoc(spots[..i], spot, StatusOf, STATUS_AVAILABLE);
      FilterKeySnoc(spots[..i], spot, StatusOf, STATUS_OCCUPIED);
      FilterKeySnoc(spots[..i], spot, StatusOf, STATUS_RESERVED);
      FilterKeySnoc(spots[..i], spot, StatusOf, STATUS_MAINTENANCE);
      if spot.status == STATUS_AVAILABLE {
        stats := stats.(available := stats.available + 1);
      } else if spot.status == STATUS_OCCUPIED {
        stats := stats.(occupied := stats.occupied + 1);
      } else if spot.status == STATUS_RESERVED {
        stats := stats.(reserved := stats.reserved + 1);
      } else if spot.status == STATUS_MAINTENANCE {
        stats := stats.(maintenance := stats.maintenance + 1);
      }
      i := i + 1;
    }
    assert spots[..|spots|] == spots;
    StatusCountsBound(spots);
  }

  /** The four status counts add up to at most the length, and to the length when no other status occurs. */
  lemma StatusCountsBound(spots: seq<Spot>)
    ensures CountKey(spots, StatusOf, STATUS_AVAILABLE) + CountKey(spots, StatusOf, STATUS_OCCUPIED)
            + CountKey(spots, StatusOf, STATUS_RESERVED) + CountKey(spots, StatusOf, STATUS_MAINTENANCE) <= |spots|
    ensures (forall i :: 0 <= i < |spots| ==> spots[i].status in COUNTED_STATUSES) ==>
      CountKey(spots, StatusOf, STATUS_AVAILABLE) + CountKey(spots, StatusOf, STATUS_OCCUPIED)
      + CountKey(spots, StatusOf, STATUS_RESERVED) + CountKey(spots, StatusOf, STATUS_MAINTENANCE) == |spots|
  {
    CountedStatusesDistinct();
    SumCountsBound(spots, StatusOf, COUNTED_STATUSES);
    SumCountsCons(spots, StatusOf, STATUS_AVAILABLE, [STATUS_OCCUPIED, STATUS_RESERVED, STATUS_MAINTENANCE]);
    SumCountsCons(spots, StatusOf, STATUS_OCCUPIED, [STATUS_RESERVED, STATUS_MAINTENANCE]);
    SumCountsCons(spots, StatusOf, STATUS_RESERVED, [STATUS_MAINTENANCE]);
    SumCountsCons(spots, StatusOf, STATUS_MAINTENANCE, []);
  }

  /**
   * The `forEach` that builds `spotsByLot`/`spotsByZone`: a bucket for the key
   * of every spot, and each bucket holds exactly the spots with its key, in
   * input order; no bucket is empty.
   */
  method GroupBy(spots: seq<Spot>, key: Spot -> int) returns (groups: map<int, seq<Spot>>)
    ensures forall i :: 0 <= i < |spots| ==> key(spots[i]) in groups
    ensures forall k :: k in groups ==> groups[k] == FilterKey(spots, key, k) && groups[k] != []
  {
    groups := map[];
    var i := 0;
    while i < |spots|
      invariant 0 <= i <= |spots|
      invariant forall k :: k in groups ==> groups[k] == FilterKey(spots[..i], key, k) && groups[k] != []
      invariant forall k :: k !in groups ==> FilterKey(spots[..i], key, k) == []
    {
      var spot := spots[i];
      assert spots[..i + 1] == spots[..i] + [spot];
      FilterKeySnocAll(spots[..i], spot, key);
      if key(spot) !in groups {
        groups := groups[key(spot) := []];
      }
      groups := groups[key(spot) := groups[key(spot)] + [spot]];
      i := i + 1;
    }
    assert spots[..|spots|] == spots;
    forall i | 0 <= i < |spots| ensures key(spots[i]) in groups {
      assert spots[i] in FilterKey(spots, key, key(spots[i]));
    }
  }

  /** `spotsByLot`. */
  method SpotsByLot(spots: seq<Spot>) returns (groups: map<int, seq<Spot>>)
    ensures forall i :: 0 <= i < |spots| ==> spots[i].parkingLotId in groups
    ensures forall k :: k in groups ==> groups[k] == FilterKey(spots, LotOf, k) && groups[k] != []
  {
    groups := GroupBy(spots, LotOf);
  }

  /** `spotsByZone`. */
  method SpotsByZone(spots: seq<Spot>) returns (groups: map<int, seq<Spot>>)
    ensures forall i :: 0 <= i < |spots| ==> spots[i].parkingZoneId in groups
    ensures forall k :: k in groups ==> groups[k] == FilterKey(spots, ZoneOf, k) && groups[k] != []
  {
    groups := GroupBy(spots, ZoneOf);
  }

  /** `spotsInSelectedLot`: empty without a (truthy) selection, else the spots of that lot in order. */
  function SpotsInSelectedLot(spots: seq<Spot>, selectedLotId: Option<int>): (r: seq<Spot>)
    ensures !Selected(selectedLotId) ==> r == []
    ensures Selected(selectedLotId) ==> r == FilterKey(spots, LotOf, selectedLotId.value)
    ensures forall i :: 0 <= i < |r| ==> r[i].parkingLotId == selectedLotId.value
    ensures Selected(selectedLotId) ==>
      forall i :: 0 <= i < |spots| && spots[i].parkingLotId == selectedLotId.value ==> spots[i] in r
  {
    if !Selected(selectedLotId) then [] else FilterKey(spots, LotOf, selectedLotId.value)
  }

  /** `spotsInSelectedZone`: the same filter on the zone id. */
  function SpotsInSelectedZone(spots: seq<Spot>, selectedZoneId: Option<int>): (r: seq<Spot>)
    ensures !Selected(selectedZoneId) ==> r == []
    ensures Selected(selectedZoneId) ==> r == FilterKey(spots, ZoneOf, selectedZoneId.value)
    ensures forall i :: 0 <= i < |r| ==> r[i].parkingZoneId == selectedZoneId.value
    ensures Selected(selectedZoneId) ==>
      forall i :: 0 <= i < |spots| && spots[i].parkingZoneId == selectedZoneId.value ==> spots[i] in r
  {
    if !Selected(selectedZoneId) then [] else FilterKey(spots, ZoneOf, selectedZoneId.value)
  }

  /** The query parameters of a `loadParkingZones` call. */
  datatype ZoneQuery = AllZones | ZonesOfLot(lotId: int)

  /** The query parameters of a `loadParkingSpots` call. */
  datatype SpotQuery = AllSpots | SpotsOfLot(lotId: int) | SpotsOfZone(zoneId: int)

  /** `loadParkingZones(lotId?)`: a falsy lot id asks for every zone. */
  function ZoneQueryFor(lotId: Option<int>): (q: ZoneQuery)
    ensures q.ZonesOfLot? <==> Selected(lotId)
    ensures q.ZonesOfLot? ==> q.lotId == lotId.value
  {
    if Selected(lotId) then ZonesOfLot(lotId.value) else AllZones
  }

  /** The spot query of `refreshData`: the zone filter wins over the lot filter. */
  function RefreshSpotQuery(selectedLotId: Option<int>, selectedZoneId: Option<int>): (q: SpotQuery)
    ensures q.SpotsOfZone? <==> Selected(selectedZoneId)
    ensures q.SpotsOfLot? <==> !Selected(selectedZoneId) && Selected(selectedLotId)
    ensures q.SpotsOfZone? ==> q.zoneId == selectedZoneId.value
    ensures q.SpotsOfLot? ==> q.lotId == selectedLotId.value
  {
    if Selected(selectedZoneId) then SpotsOfZone(selectedZoneId.value)
    else if Selected(selectedLotId) then SpotsOfLot(selectedLotId.value)
    else AllSpots
  }

  /**
   * The hook's mutable state. `timers` stands for the browser's table of
   * live intervals started by this hook (handle to period in seconds); the
   * handle a `setInterval` call returns is supplied by the caller.
   */
  class MonitorState {
    var selectedLotId: Option<int>
    var selectedZoneId: Option<int>
    var refreshInterval: Option<int>
    var autoRefresh: bool
    var refreshRate: int
    var timers: map<int, int>

    /** The hook holds exactly the handle of the one interval that is live, if any. */
    ghost predicate Valid()
      reads this
    {
      if refreshInterval.Some? then timers.Keys == {refreshInterval.value} else timers == map[]
    }

    constructor ()
      ensures Valid()
      ensures selectedLotId == None && selectedZoneId == None && refreshInterval == None
      ensures autoRefresh && refreshRate == 30 && timers == map[]
    {
      selectedLotId, selectedZoneId, refreshInterval := None, None, None;
      autoRefresh, refreshRate := true, 30;
      timers := map[];
    }

    /** What a `refreshData()` call asks the server for. */
    function RefreshQueries(): (q: (ZoneQuery, SpotQuery))
      reads this
      ensures q.0 == (if Selected(selectedLotId) then ZonesOfLot(selectedLotId.value) else AllZones)
      ensures Selected(selectedZoneId) ==> q.1 == SpotsOfZone(selectedZoneId.value)
      ensures !Selected(selectedZoneId) && Selected(selectedLotId) ==> q.1 == SpotsOfLot(selectedLotId.value)
      ensures !Selected(selectedZoneId) && !Selected(selectedLotId) ==> q.1 == AllSpots
    {
      (ZoneQueryFor(selectedLotId), RefreshSpotQuery(selectedLotId, selectedZoneId))
    }

    /** `selectParkingLot(id)`: select the lot, drop the zone, reload that lot's zones and spots. */
    method SelectParkingLot(lotId: int) returns (zones: ZoneQuery, spots: SpotQuery)
      modifies this
      ensures selectedLotId == Some(lotId) && selectedZoneId == None
      ensures refreshInterval == old(refreshInterval) && autoRefresh == old(autoRefresh)
      ensures refreshRate == old(refreshRate) && timers == old(timers)
      ensures zones == ZoneQueryFor(Some(lotId)) && spots == SpotsOfLot(lotId)
    {
      selectedLotId := Some(lotId);
      selectedZoneId := None;
      zones := ZoneQueryFor(Some(lotId));
      spots := SpotsOfLot(lotId);
    }

    /** `selectParkingZone(id)`: only the zone changes; that zone's spots are reloaded. */
    method SelectParkingZone(zoneId: int) returns (spots: SpotQuery)
      modifies this
      ensures selectedZoneId == Some(zoneId) && selectedLotId == old(selectedLotId)
      ensures refreshInterval == old(refreshInterval) && autoRefresh == old(autoRefresh)
      ensures refreshRate == old(refreshRate) && timers == old(timers)
      ensures spots == SpotsOfZone(zoneId)
    {
      selectedZoneId := Some(zoneId);
      spots := SpotsOfZone(zoneId);
    }

    /** `stopAutoRefresh()`: clear the live interval if there is one; a no-op otherwise. */
    method StopAutoRefresh()
      requires Valid()
      modifies this
      ensures Valid() && refreshInterval == None && timers == map[]
      ensures old(refreshInterval).None? ==> timers == old(timers)
      ensures selectedLotId == old(selectedLotId) && selectedZoneId == old(selectedZoneId)
      ensures autoRefresh == old(autoRefresh) && refreshRate == old(refreshRate)
    {
      if refreshInterval.Some? {
        timers := timers - {refreshInterval.value};
        refreshInterval := None;
      }
    }

    /** `startAutoRefresh()`: stop any live interval first, so at most one is ever held. */
    method StartAutoRefresh(handle: int)
      requires Valid()
      modifies this
      ensures Valid() && refreshInterval == Some(handle) && timers == map[handle := refreshRate]
      ensures selectedLotId == old(selectedLotId) && selectedZoneId == old(selectedZoneId)
      ensures autoRefresh == old(autoRefresh) && refreshRate == old(refreshRate)
    {
      StopAutoRefresh();
      timers := timers[handle := refreshRate];
      refreshInterval := Some(handle);
    }

    /** `toggleAutoRefresh(v)`: set the flag; an interval is held afterwards iff v. */
    method ToggleAutoRefresh(value: bool, handle: int)
      requires Valid()
      modifies this
      ensures Valid() && autoRefresh == value
      ensures refreshInterval.Some? <==> value
      ensures value ==> refreshInterval == Some(handle) && timers == map[handle := refreshRate]
      ensures selectedLotId == old(selectedLotId) && selectedZoneId == old(selectedZoneId)
      ensures refreshRate == old(refreshRate)
    {
      autoRefresh := value;
      if value {
        StartAutoRefresh(handle);
      } else {
        StopAutoRefresh();
      }
    }

    /** `setRefreshRate(s)`: store the rate; restart the interval with it only when auto-refresh is on. */
    method SetRefreshRate(seconds: int, handle: int)
      requires Valid()
      modifies this
      ensures Valid() && refreshRate == seconds && autoRefresh == old(autoRefresh)
      ensures old(autoRefresh) ==> refreshInterval == Some(handle) && timers == map[handle := seconds]
      ensures !old(autoRefresh) ==> refreshInterval == old(refreshInterval) && timers == old(timers)
      ensures selectedLotId == old(selectedLotId) && selectedZoneId == old(selectedZoneId)
    {
      refreshRate := seconds;
      if autoRefresh {
        StopAutoRefresh();
        StartAutoRefresh(handle);
      }
    }
  }
}
