/** The record shapes shared by the client, the ranking and the user interface. */
module CorridorTypes {
  import opened Wrappers

  /**
   * One charging site as the application holds it. `highwayProximity` is typed in the
   * source as 'at_exit' | 'near_exit' | 'town', but the values are only cast, never checked,
   * so any string can occur. `onRoute` is not declared by the record type, yet the client
   * sets it on every record it builds.
   */
  datatype ChargerRecord = ChargerRecord(
    id: string,
    name: string,
    latitude: real,
    longitude: real,
    network: string,
    powerKw: real,
    highwayProximity: string,
    amenities: string,
    ocmId: Option<int>,
    country: string,
    routeSegment: string,
    notes: Option<string>,
    reliability: Option<real>,
    status: Option<string>,
    connectorTypes: string,
    numChargers: int,
    onRoute: string)

  /** A charger annotated for one search: the record itself plus the two rounded derived values. */
  datatype ChargerWithDistance = ChargerWithDistance(
    charger: ChargerRecord,
    distanceKm: real,
    rangeAfterKm: real)
}
