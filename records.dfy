/** Records of the delivery-management client: the rows of the hosted store's
    `daily_routes`, `delivery_logs` and `locations` collections, as the
    dashboards read and write them. */
module Records {

  datatype Option<+T> = None | Some(value: T) {
    /** JavaScript's `value || fallback` for an optional string-like value. */
    function GetOr(fallback: T): T {
      match this
      case Some(v) => v
      case None => fallback
    }
  }

  /** The two values the client ever writes into `daily_routes.status`. */
  datatype RouteStatus = Pending | Completed

  /** One planned stop of one driver on one day (a `daily_routes` row).
      `adminMemo` is `None` until the admin first sets an instruction. */
  datatype Route = Route(
    id: nat,
    date: string,
    driverId: string,
    locationId: nat,
    sequence: int,
    status: RouteStatus,
    adminMemo: Option<string>)

  /** The recorded outcome of a visit (a `delivery_logs` row). `logType` is the
      raw string the store holds; the client writes one of the four constants
      below, but the projections must cope with any string. `createdAt` stands
      for the store's timestamp already formatted as the hour:minute text. */
  datatype DeliveryLog = DeliveryLog(
    id: nat,
    routeId: nat,
    logType: string,
    memo: string,
    createdAt: string)

  const DELIVERY: string := "DELIVERY"
  const PICKUP: string := "PICKUP"
  const BOTH: string := "BOTH"
  const OTHER: string := "OTHER"

  predicate KnownLogType(t: string) {
    t == DELIVERY || t == PICKUP || t == BOTH || t == OTHER
  }

  datatype Region = North | South

  /** A delivery site (a `locations` row). */
  datatype Location = Location(
    id: nat,
    name: string,
    address: string,
    region: Region,
    accessInfo: string)

  /** The admin's location form; the `id` is not part of it. */
  datatype LocationForm = LocationForm(
    name: string,
    address: string,
    region: Region,
    accessInfo: string)

  /** The form as it is reset after a save: empty fields, region NORTH. */
  const BlankForm: LocationForm := LocationForm("", "", North, "")

  /** What a dashboard shows after a handler: nothing, or an `alert` message. */
  datatype Notice = Quiet | Alert(message: string)
}
