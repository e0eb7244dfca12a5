/**
 * The printable route report: the number of stops, the total amount to
 * collect (a missing amount counts as 0), the stop numbers shown to the
 * reader, the "N/A" rule for amounts, and the badge chosen for the route's
 * status.
 */
module Report {
  import opened Wrappers
  import opened Text
  import opened Types

  /** The route's stops, an absent list read as empty. */
  function StopsOf(r: Reparto): seq<DetalleReparto> {
    r.detallesReparto.GetOr([])
  }

  /** `detalles_reparto?.length || 0`: the table shows "no items" exactly when this is 0. */
  function TotalParadas(r: Reparto): (n: nat)
    ensures n == |StopsOf(r)|
    ensures n == 0 <==> r.detallesReparto.None? || r.detallesReparto.value == []
  {
    if r.detallesReparto.Some? then |r.detallesReparto.value| else 0
  }

  // ---------------------------------------------------------------------
  // The amount to collect

  /** `item.valor_entrega || 0` */
  function AmountOrZero(d: DetalleReparto): real {
    d.valorEntrega.GetOr(0.0)
  }

  /** `reduce((sum, item) => sum + (item.valor_entrega || 0), acc)`: a left fold from `acc`. */
  function Reduce(stops: seq<DetalleReparto>, acc: real): real {
    if stops == [] then acc else Reduce(stops[1..], acc + AmountOrZero(stops[0]))
  }

  /** The reference sum of the amounts, a missing amount counting as 0. */
  function SumAmounts(stops: seq<DetalleReparto>): real {
    if stops == [] then 0.0 else AmountOrZero(stops[0]) + SumAmounts(stops[1..])
  }

  /** The report's total: the fold from 0, or 0 when the list is absent. */
  function ValorTotal(r: Reparto): real {
    if r.detallesReparto.Some? then Reduce(r.detallesReparto.value, 0.0) else 0.0
  }

  /** The fold from `acc` adds the sum of the amounts to `acc`. */
  lemma {:induction false} ReduceIsSum(stops: seq<DetalleReparto>, acc: real)
    ensures Reduce(stops, acc) == acc + SumAmounts(stops)
  {
    if stops != [] {
      ReduceIsSum(stops[1..], acc + AmountOrZero(stops[0]));
    }
  }

  /** The sum over a concatenation is the sum of the sums. */
  lemma {:induction false} SumAppend(a: seq<DetalleReparto>, b: seq<DetalleReparto>)
    ensures SumAmounts(a + b) == SumAmounts(a) + SumAmounts(b)
  {
    if a == [] {
      assert a + b == b;
    } else {
      assert (a + b)[0] == a[0] && (a + b)[1..] == a[1..] + b;
      SumAppend(a[1..], b);
    }
  }

  /** The total is the sum of the amounts, null amounts and an absent list counting as 0. */
  lemma TotalIsSum(r: Reparto)
    ensures ValorTotal(r) == SumAmounts(StopsOf(r))
  {
    ReduceIsSum(StopsOf(r), 0.0);
  }

  /** Appending one stop adds its amount (or 0) to the total. */
  lemma TotalAppend(r: Reparto, d: DetalleReparto)
    requires r.detallesReparto.Some?
    ensures ValorTotal(r.(detallesReparto := Some(r.detallesReparto.value + [d]))) == ValorTotal(r) + AmountOrZero(d)
  {
    var s := r.detallesReparto.value;
    ReduceIsSum(s, 0.0);
    ReduceIsSum(s + [d], 0.0);
    SumAppend(s, [d]);
    assert SumAmounts([d]) == AmountOrZero(d);
  }

  /** With no negative amount the total is not negative, and it is at least each single amount. */
  lemma {:induction false} TotalBounds(stops: seq<DetalleReparto>)
    requires forall k :: 0 <= k < |stops| ==> AmountOrZero(stops[k]) >= 0.0
    ensures SumAmounts(stops) >= 0.0
    ensures forall k :: 0 <= k < |stops| ==> SumAmounts(stops) >= AmountOrZero(stops[k])
  {
    if stops != [] {
      var tail := stops[1..];
      assert forall k :: 0 <= k < |tail| ==> tail[k] == stops[k + 1];
      TotalBounds(tail);
    }
  }

  // ---------------------------------------------------------------------
  // What the table shows

  /** The number shown for a stop: its zero-based visit order plus one. */
  function StopNumber(d: DetalleReparto): int {
    d.ordenVisita + 1
  }

  /** A stop inserted without a visit order gets the default 0 and is shown as number 1. */
  lemma OmittedOrderShowsAsOne(id: int, row: DetalleRepartoInsert)
    requires row.ordenVisita.None?
    ensures StopNumber(StoredDetalle(id, row)) == 1
  {
  }

  /** An amount as the report shows it: "N/A", or the amount in pesos. */
  datatype CurrencyText = NotAvailable | Pesos(amount: real)

  /** `formatCurrency`: only null and undefined give "N/A"; 0 is a formatted amount. */
  function FormatCurrency(v: Option<real>): (t: CurrencyText)
    ensures t == NotAvailable <==> v.None?
    ensures t.Pesos? ==> t.amount == v.value
  {
    if v.None? then NotAvailable else Pesos(v.value)
  }

  /** The summary's total is always a formatted amount, even when it is 0. */
  lemma TotalIsAlwaysFormatted(r: Reparto)
    ensures FormatCurrency(Some(ValorTotal(r))) == Pesos(SumAmounts(StopsOf(r)))
  {
    TotalIsSum(r);
  }

  // ---------------------------------------------------------------------
  // The status badge

  /** The badge of each route status. */
  function RouteStatusBadge(s: RouteStatus): BadgeVariant {
    match s
    case Pendiente => PendienteBadge
    case EnCurso => EnCursoBadge
    case Entregado => EntregadoBadge
    case Cancelado => CanceladoBadge
    case Reprogramado => ReprogramadoBadge
  }

  /**
   * `getStatusVariant`: the status is lower-cased, a route status gets its
   * own badge, and null or any other text gets the outline badge.
   */
  function StatusVariant(status: Option<string>): (v: BadgeVariant)
    ensures status.None? ==> v == OutlineBadge
    ensures status.Some? && ParseRouteStatus(Lower(status.value)).Some? ==>
      v == RouteStatusBadge(ParseRouteStatus(Lower(status.value)).value)
    ensures status.Some? && ParseRouteStatus(Lower(status.value)).None? ==> v == OutlineBadge
  {
    if status.None? then OutlineBadge
    else
      var s := Lower(status.value);
      if s == "pendiente" then PendienteBadge
      else if s == "en curso" then EnCursoBadge
      else if s == "entregado" then EntregadoBadge
      else if s == "cancelado" then CanceladoBadge
      else if s == "reprogramado" then ReprogramadoBadge
      else OutlineBadge
  }

  /** The badge ignores case: a status and its lower-case form get the same badge. */
  lemma StatusVariantIgnoresCase(s: string)
    ensures StatusVariant(Some(s)) == StatusVariant(Some(Lower(s)))
  {
    LowerIdempotent(s);
  }

  /** Each route status, written as stored, gets its own badge, and the five badges differ. */
  lemma RouteStatusesGetTheirBadges(st: RouteStatus)
    ensures StatusVariant(Some(RouteStatusName(st))) == RouteStatusBadge(st)
    ensures RouteStatusBadge(st) != OutlineBadge
    ensures forall other: RouteStatus :: other != st ==> RouteStatusBadge(other) != RouteStatusBadge(st)
  {
    var name := RouteStatusName(st);
    RouteStatusesAreFive(st);
    assert IsLowerCase(name);
    LowerIdempotent(name);
  }

  /** A badge other than the outline appears exactly for the route statuses, in any case. */
  lemma OutlineOtherwise(status: Option<string>)
    ensures StatusVariant(status) != OutlineBadge <==> status.Some? && Lower(status.value) in RouteStatusNames
  {
  }

  /** The route form's default status 'Asignado' shows the outline badge. */
  lemma DefaultEstadoShowsOutline()
    ensures StatusVariant(Some(DefaultRepartoEstado)) == OutlineBadge
  {
    assert Lower(DefaultRepartoEstado)[0] == 'a';
    assert Lower(DefaultRepartoEstado)[1] == 's';
  }
}
