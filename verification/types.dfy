/** The record shapes the voyage engine works on: waypoints, voyages and the
    ship position (types.ts), plus the optional-field wrapper they need. */
module Types {

  /** An optional field of a record (`field?: T` in the source). */
  datatype Option<+T> = None | Some(value: T)

  /** JavaScript truthiness of an optional string: present and not empty. */
  predicate Truthy(s: Option<string>)
  {
    s.Some? && s.value != ""
  }

  datatype IconTheme = Fleet | Battle | Diplomacy | Trade | Giraffe | Map

  /** A TURN is a navigation-only point; START and STOP are named places. */
  datatype PointKind = Start | Stop | Turn

  datatype Waypoint = Waypoint(
    name: string,
    lat: real,
    lng: real,
    kind: PointKind,
    trade: Option<string>,
    diplomacy: Option<string>,
    eventLabel: Option<string>,
    iconType: IconTheme,
    imageUrl: Option<string>)

  datatype Voyage = Voyage(
    id: int,
    title: string,
    years: string,
    description: string,
    path: seq<Waypoint>,
    color: string)

  datatype ShipPosition = ShipPosition(lat: real, lng: real, altitude: real, heading: real)
}
