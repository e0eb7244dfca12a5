/**
 * The shared vocabulary of the delivery system: the two five-valued status
 * enumerations, the route ("reparto"), stop ("detalle de reparto") and
 * drop-off point ("cliente de reparto") records, and the insert rows the
 * datastore fills with defaults.
 */
module Types {
  import opened Wrappers

  // ---------------------------------------------------------------------
  // Stop status (ALL_DETALLE_REPARTO_STATUSES)

  /** The fulfilment status of a single stop. */
  datatype StopStatus = Pendiente | EnCamino | Entregado | NoEntregado | Cancelado

  /** The stop statuses as stored, in declaration order. */
  const StopStatusNames: seq<string> := ["pendiente", "en_camino", "entregado", "no_entregado", "cancelado"]

  function StopStatusName(s: StopStatus): string {
    match s
    case Pendiente => "pendiente"
    case EnCamino => "en_camino"
    case Entregado => "entregado"
    case NoEntregado => "no_entregado"
    case Cancelado => "cancelado"
  }

  /** Reads a stored stop status; any string outside the enumeration is rejected. */
  function ParseStopStatus(raw: string): (r: Option<StopStatus>)
    ensures r.Some? <==> raw in StopStatusNames
    ensures r.Some? ==> StopStatusName(r.value) == raw
  {
    if raw == "pendiente" then Some(StopStatus.Pendiente)
    else if raw == "en_camino" then Some(StopStatus.EnCamino)
    else if raw == "entregado" then Some(StopStatus.Entregado)
    else if raw == "no_entregado" then Some(StopStatus.NoEntregado)
    else if raw == "cancelado" then Some(StopStatus.Cancelado)
    else None
  }

  /**
   * A stop status is exactly one of the five names: every status has a name
   * in the list, the list has five distinct entries, and reading a name
   * back gives the same status.
   */
  lemma StopStatusesAreFive(s: StopStatus)
    ensures StopStatusName(s) in StopStatusNames
    ensures ParseStopStatus(StopStatusName(s)) == Some(s)
    ensures |StopStatusNames| == 5
    ensures forall i, j :: 0 <= i < j < |StopStatusNames| ==> StopStatusNames[i] != StopStatusNames[j]
  {
  }

  // ---------------------------------------------------------------------
  // Route status (ALL_REPARTO_STATUSES)

  /** The planner-set status of a whole route. */
  datatype RouteStatus = Pendiente | EnCurso | Entregado | Cancelado | Reprogramado

  /** The route statuses, in declaration order. Note "en curso" is spelt with a space. */
  const RouteStatusNames: seq<string> := ["pendiente", "en curso", "entregado", "cancelado", "reprogramado"]

  function RouteStatusName(s: RouteStatus): string {
    match s
    case Pendiente => "pendiente"
    case EnCurso => "en curso"
    case Entregado => "entregado"
    case Cancelado => "cancelado"
    case Reprogramado => "reprogramado"
  }

  /** Reads a route status; any string outside the enumeration is rejected. */
  function ParseRouteStatus(raw: string): (r: Option<RouteStatus>)
    ensures r.Some? <==> raw in RouteStatusNames
    ensures r.Some? ==> RouteStatusName(r.value) == raw
  {
    if raw == "pendiente" then Some(RouteStatus.Pendiente)
    else if raw == "en curso" then Some(RouteStatus.EnCurso)
    else if raw == "entregado" then Some(RouteStatus.Entregado)
    else if raw == "cancelado" then Some(RouteStatus.Cancelado)
    else if raw == "reprogramado" then Some(RouteStatus.Reprogramado)
    else None
  }

  /** A route status is exactly one of the five names. */
  lemma RouteStatusesAreFive(s: RouteStatus)
    ensures RouteStatusName(s) in RouteStatusNames
    ensures ParseRouteStatus(RouteStatusName(s)) == Some(s)
    ensures |RouteStatusNames| == 5
    ensures forall i, j :: 0 <= i < j < |RouteStatusNames| ==> RouteStatusNames[i] != RouteStatusNames[j]
  {
  }

  // ---------------------------------------------------------------------
  // Records

  /** A recurring drop-off point ("cliente de reparto") owned by one principal client. */
  datatype DeliveryClientInfo = DeliveryClientInfo(
    id: int,
    clienteId: string,
    nombreReparto: string,
    direccionReparto: Option<string>,
    rangoHorario: Option<string>,
    tarifa: Option<real>,
    telefonoReparto: Option<string>)

  /** One stop of a route: exactly one owning route, one drop-off point, a visit order and a required status. */
  datatype DetalleReparto = DetalleReparto(
    id: int,
    repartoId: int,
    clienteRepartoId: int,
    valorEntrega: Option<real>,
    detalleEntrega: Option<string>,
    ordenVisita: int,
    estadoEntrega: StopStatus)

  /** A route: the driver is required; principal client, zone and batch may be null. */
  datatype Reparto = Reparto(
    id: int,
    fechaReparto: string,
    repartidorId: string,
    clienteId: Option<string>,
    zonaId: Option<int>,
    tanda: Option<int>,
    observaciones: Option<string>,
    estado: RouteStatus,
    detallesReparto: Option<seq<DetalleReparto>>)

  // ---------------------------------------------------------------------
  // Insert rows and the defaults the datastore applies

  /**
   * An insert into `detalles_reparto`: the status is required, the visit
   * order may be omitted (`None`).
   */
  datatype DetalleRepartoInsert = DetalleRepartoInsert(
    repartoId: int,
    clienteRepartoId: int,
    valorEntrega: Option<real>,
    detalleEntrega: Option<string>,
    ordenVisita: Option<int>,
    estadoEntrega: StopStatus)

  /** The column default of `detalles_reparto.orden_visita`. */
  const DefaultOrdenVisita: int := 0

  /** The stored row for an insert, given the serial id the datastore assigns. */
  function StoredDetalle(id: int, row: DetalleRepartoInsert): (d: DetalleReparto)
    ensures d.id == id && d.repartoId == row.repartoId && d.clienteRepartoId == row.clienteRepartoId
    ensures d.estadoEntrega == row.estadoEntrega
    ensures row.ordenVisita.None? ==> d.ordenVisita == 0
    ensures row.ordenVisita.Some? ==> d.ordenVisita == row.ordenVisita.value
  {
    DetalleReparto(id, row.repartoId, row.clienteRepartoId, row.valorEntrega, row.detalleEntrega,
                   row.ordenVisita.GetOr(DefaultOrdenVisita), row.estadoEntrega)
  }

  /**
   * An insert into `repartos`. The stored `estado` column is a free,
   * nullable string: `None` omits it (the default applies), `Some(None)`
   * stores null, `Some(Some(x))` stores `x`.
   */
  datatype RepartoInsert = RepartoInsert(
    fechaReparto: string,
    repartidorId: string,
    clienteId: Option<string>,
    observaciones: Option<string>,
    estado: Option<Option<string>>,
    zonaId: Option<int>,
    tanda: Option<int>)

  /** The column default of `repartos.estado`. */
  const DefaultRepartoEstado: string := "Asignado"

  /** The `estado` value the datastore stores for an insert. */
  function StoredRepartoEstado(row: RepartoInsert): (e: Option<string>)
    ensures row.estado.None? ==> e == Some(DefaultRepartoEstado)
    ensures row.estado.Some? ==> e == row.estado.value
  {
    row.estado.GetOr(Some(DefaultRepartoEstado))
  }

  /**
   * The column default 'Asignado' is not a route status: a route inserted
   * without an `estado` stores a value the route-status enumeration rejects.
   */
  lemma DefaultEstadoIsNotARouteStatus(row: RepartoInsert)
    requires row.estado.None?
    ensures StoredRepartoEstado(row).Some?
    ensures ParseRouteStatus(StoredRepartoEstado(row).value).None?
    ensures DefaultRepartoEstado !in RouteStatusNames
  {
  }

  // ---------------------------------------------------------------------
  // Badge variants

  /** The visual variants of the status badge, one per style the badge component defines. */
  datatype BadgeVariant =
    | DefaultBadge | SecondaryBadge | DestructiveBadge | OutlineBadge
    | PendienteBadge | EnCursoBadge | EntregadoBadge | CanceladoBadge | ReprogramadoBadge
    | SuccessBadge | WarningBadge | InfoBadge
}
