/** The entities of src/types/index.ts that the core reads, restricted to the fields it uses. */
module Types {
  import opened Common

  /** The user profile attached to a session token. */
  datatype UserInfo = UserInfo(id: int, username: string, email: Option<string>, tel: Option<string>)

  /** A parking spot as the spot list endpoint returns it. */
  datatype Spot = Spot(
    id: int,
    spotNumber: string,
    parkingZoneId: int,
    parkingLotId: int,
    status: string,
    spotType: string)

  /** A parking lot, restricted to the fields the statistics read. */
  datatype Lot = Lot(id: int, name: string)

  /** An hour of the day, as `Date.getHours` returns it. */
  type Hour = h: int | 0 <= h < 24

  /**
   * A parking record, reduced to what the statistics read: `entryHour`
   * stands for `new Date(record.entryTime).getHours()`,
   * the hour of the entry time, or None when the time does not parse (NaN).
   */
  datatype ParkingRecord = ParkingRecord(id: int, entryHour: Option<Hour>)

  // Named projections, used as grouping and counting keys.
  function LotOf(s: Spot): int { s.parkingLotId }
  function ZoneOf(s: Spot): int { s.parkingZoneId }
  function StatusOf(s: Spot): string { s.status }
  function TypeOf(s: Spot): string { s.spotType }
  function EntryHourOf(r: ParkingRecord): Option<Hour> { r.entryHour }
}
