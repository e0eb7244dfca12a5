/**
 * The driver's task card: the status changes it offers as buttons, the
 * label and badge of a stop status, the "amount to collect" line, and the
 * flag that disables the status buttons while an update is in flight.
 *
 * The card is the only place that restricts how a stop's status moves:
 * pendiente -> en_camino -> {entregado, no_entregado}, and nothing from a
 * finished or cancelled stop.
 */
module TaskCard {
  import opened Wrappers
  import opened Types
  import Report

  // ---------------------------------------------------------------------
  // The offered status changes

  /** The transition relation the card implements, stated on statuses. */
  predicate AllowedNext(from: StopStatus, to: StopStatus) {
    || (from == StopStatus.Pendiente && to == StopStatus.EnCamino)
    || (from == StopStatus.EnCamino && (to == StopStatus.Entregado || to == StopStatus.NoEntregado))
  }

  /** A stop status that offers nothing further. */
  predicate IsTerminal(s: StopStatus) {
    s == StopStatus.Entregado || s == StopStatus.NoEntregado || s == StopStatus.Cancelado
  }

  /**
   * The status buttons `renderActionButtons` shows for the task's stored
   * status, in screen order; a status outside the enumeration shows none.
   */
  function Offered(estado: string): (r: seq<StopStatus>)
    ensures forall to :: to in r <==> ParseStopStatus(estado).Some? && AllowedNext(ParseStopStatus(estado).value, to)
  {
    if estado == "pendiente" then [StopStatus.EnCamino]
    else if estado == "en_camino" then [StopStatus.Entregado, StopStatus.NoEntregado]
    else []
  }

  /** What each status offers, read back on the statuses themselves. */
  lemma OfferedByStatus(s: StopStatus)
    ensures s == StopStatus.Pendiente ==> Offered(StopStatusName(s)) == [StopStatus.EnCamino]
    ensures s == StopStatus.EnCamino ==> Offered(StopStatusName(s)) == [StopStatus.Entregado, StopStatus.NoEntregado]
    ensures Offered(StopStatusName(s)) == [] <==> IsTerminal(s)
  {
    StopStatusesAreFive(s);
  }

  /** No offered change leads back to `pendiente` or to `cancelado`. */
  lemma NeverBackNorCancelled(estado: string)
    ensures StopStatus.Pendiente !in Offered(estado)
    ensures StopStatus.Cancelado !in Offered(estado)
  {
  }

  /** How far a status is along the card's flow: pending 0, on the way 1, finished 2. */
  function Rank(s: StopStatus): (n: nat)
    ensures n <= 2
    ensures n == 2 <==> IsTerminal(s)
  {
    match s
    case Pendiente => 0
    case EnCamino => 1
    case _ => 2
  }

  /** A sequence of statuses in which every status is one the card offered from the one before. */
  predicate IsPath(p: seq<StopStatus>) {
    forall i :: 0 <= i < |p| - 1 ==> p[i + 1] in Offered(StopStatusName(p[i]))
  }

  /** Every offered step moves exactly one rank up. */
  lemma StepRaisesRank(from: StopStatus, to: StopStatus)
    requires to in Offered(StopStatusName(from))
    ensures Rank(to) == Rank(from) + 1
  {
    StopStatusesAreFive(from);
  }

  /** Along a path the rank grows by one per step, so a path takes at most two steps. */
  lemma {:induction false} PathRank(p: seq<StopStatus>)
    requires p != [] && IsPath(p)
    ensures Rank(p[|p| - 1]) == Rank(p[0]) + |p| - 1
    ensures |p| <= 3 - Rank(p[0])
  {
    if |p| > 1 {
      var q := p[..|p| - 1];
      assert IsPath(q) by {
        forall i | 0 <= i < |q| - 1
          ensures q[i + 1] in Offered(StopStatusName(q[i]))
        {
          assert q[i] == p[i] && q[i + 1] == p[i + 1];
        }
      }
      PathRank(q);
      StepRaisesRank(p[|p| - 2], p[|p| - 1]);
    }
  }

  /** From `pendiente`, two offered steps always end in a finished status, and no path is longer. */
  lemma PendingFinishesInTwoSteps(p: seq<StopStatus>)
    requires p != [] && IsPath(p) && p[0] == StopStatus.Pendiente
    ensures |p| <= 3
    ensures |p| == 3 ==> IsTerminal(p[2])
  {
    PathRank(p);
  }

  // ---------------------------------------------------------------------
  // Labels and badges

  /** The label of each stop status. */
  function StatusLabel(s: StopStatus): string {
    match s
    case Pendiente => "Pendiente"
    case EnCamino => "En Camino"
    case Entregado => "Entregado"
    case NoEntregado => "No Entregado"
    case Cancelado => "Cancelado"
  }

  const UnknownLabel: string := "Desconocido"

  /** `getStatusText`: the label of a known status, "Desconocido" for anything else. */
  function StatusText(status: Option<string>): (t: string)
    ensures status.Some? && ParseStopStatus(status.value).Some? ==> t == StatusLabel(ParseStopStatus(status.value).value)
    ensures status.None? || ParseStopStatus(status.value).None? ==> t == UnknownLabel
  {
    if status.None? then UnknownLabel
    else if status.value == "pendiente" then "Pendiente"
    else if status.value == "en_camino" then "En Camino"
    else if status.value == "entregado" then "Entregado"
    else if status.value == "no_entregado" then "No Entregado"
    else if status.value == "cancelado" then "Cancelado"
    else UnknownLabel
  }

  /** The five labels differ from one another and from "Desconocido". */
  lemma LabelsAreDistinct(a: StopStatus, b: StopStatus)
    ensures a != b ==> StatusLabel(a) != StatusLabel(b)
    ensures StatusLabel(a) != UnknownLabel
    ensures StatusText(Some(StopStatusName(a))) == StatusLabel(a)
  {
    StopStatusesAreFive(a);
  }

  /** The badge of each stop status: on the way uses the route's "en curso" style, not delivered the destructive one. */
  function StopStatusBadge(s: StopStatus): BadgeVariant {
    match s
    case Pendiente => PendienteBadge
    case EnCamino => EnCursoBadge
    case Entregado => EntregadoBadge
    case NoEntregado => DestructiveBadge
    case Cancelado => CanceladoBadge
  }

  /** `getStatusBadgeVariant`: a known status gets its badge, anything else the outline badge. Case matters here. */
  function StatusBadgeVariant(status: Option<string>): (v: BadgeVariant)
    ensures status.Some? && ParseStopStatus(status.value).Some? ==> v == StopStatusBadge(ParseStopStatus(status.value).value)
    ensures status.None? || ParseStopStatus(status.value).None? ==> v == OutlineBadge
  {
    if status.None? then OutlineBadge
    else if status.value == "pendiente" then PendienteBadge
    else if status.value == "en_camino" then EnCursoBadge
    else if status.value == "entregado" then EntregadoBadge
    else if status.value == "no_entregado" then DestructiveBadge
    else if status.value == "cancelado" then CanceladoBadge
    else OutlineBadge
  }

  /** The five stop statuses get five different badges, none of them the outline. */
  lemma BadgesAreDistinct(a: StopStatus, b: StopStatus)
    ensures a != b ==> StopStatusBadge(a) != StopStatusBadge(b)
    ensures StopStatusBadge(a) != OutlineBadge
    ensures StatusBadgeVariant(Some(StopStatusName(a))) == StopStatusBadge(a)
  {
    StopStatusesAreFive(a);
  }

  // ---------------------------------------------------------------------
  // The amount line

  /** The "Cobrar" line appears only for a present, positive amount. */
  predicate ShowsAmountToCollect(valorEntrega: Option<real>) {
    valorEntrega.Some? && valorEntrega.value > 0.0
  }

  /**
   * The card and the report agree on shown amounts: an amount the card
   * shows is formatted by the report and counts positively in its total;
   * an amount of 0 is hidden on the card but formatted in the report.
   */
  lemma AmountLineAgreesWithReport(d: DetalleReparto)
    ensures ShowsAmountToCollect(d.valorEntrega) ==>
      Report.FormatCurrency(d.valorEntrega) == Report.Pesos(d.valorEntrega.value) && Report.AmountOrZero(d) > 0.0
    ensures d.valorEntrega == Some(0.0) ==>
      !ShowsAmountToCollect(d.valorEntrega) && Report.FormatCurrency(d.valorEntrega) == Report.Pesos(0.0)
  {
  }

  // ---------------------------------------------------------------------
  // The card state

  /** A button in the card's action area: the navigation button, or a status change. */
  datatype Action = Navigate | ChangeStatus(target: StopStatus, enabled: bool)

  function StatusButtons(targets: seq<StopStatus>, enabled: bool): (r: seq<Action>)
    ensures |r| == |targets|
    ensures forall i :: 0 <= i < |r| ==> r[i] == ChangeStatus(targets[i], enabled)
  {
    if targets == [] then [] else [ChangeStatus(targets[0], enabled)] + StatusButtons(targets[1..], enabled)
  }

  /**
   * The action area: nothing for a status without changes; otherwise the
   * navigation button followed by one button per offered change, enabled
   * only when no update is in flight.
   */
  function ActionButtons(estado: string, isUpdatingStatus: bool): (r: seq<Action>)
    ensures Offered(estado) == [] ==> r == []
    ensures Offered(estado) != [] ==> |r| == |Offered(estado)| + 1 && r[0] == Navigate
    ensures forall i :: 1 <= i < |r| ==> r[i] == ChangeStatus(Offered(estado)[i - 1], !isUpdatingStatus)
  {
    var targets := Offered(estado);
    if targets == [] then [] else [Navigate] + StatusButtons(targets, !isUpdatingStatus)
  }

  class TaskCardState {
    /** The stored status of the task the card shows. */
    const estadoEntrega: string
    var isUpdatingStatus: bool

    constructor(estadoEntrega: string)
      ensures this.estadoEntrega == estadoEntrega && !isUpdatingStatus
    {
      this.estadoEntrega := estadoEntrega;
      isUpdatingStatus := false;
    }

    /** A status button can be pressed. */
    predicate CanChange(target: StopStatus)
      reads this
    {
      ChangeStatus(target, true) in ActionButtons(estadoEntrega, isUpdatingStatus)
    }

    /** Pressing a status button: the update is in flight and every status button is disabled. */
    method StartStatusUpdate()
      modifies this
      ensures isUpdatingStatus
      ensures forall t :: !CanChange(t)
    {
      isUpdatingStatus := true;
    }

    /** The update finished, whatever its outcome: the offered changes can be pressed again. */
    method FinishStatusUpdate()
      modifies this
      ensures !isUpdatingStatus
      ensures forall t :: CanChange(t) <==> t in Offered(estadoEntrega)
    {
      isUpdatingStatus := false;
    }
  }
}
