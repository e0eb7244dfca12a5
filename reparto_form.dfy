/**
 * The route form's drop-off selection: the ids of the points chosen for a
 * route, the points available for the chosen principal client, and the
 * loading and submitting flags that gate the submit button. The form state
 * is a class whose methods are the form's event handlers; the selection is
 * specified by the functions and lemmas before it.
 */
module RepartoForm {
  import opened Wrappers
  import opened Types
  import opened Schema

  // ---------------------------------------------------------------------
  // The selection list as a value

  /** `ids.filter(v => v !== id)`: every occurrence of `id` dropped, the other ids kept in order. */
  function Without(ids: seq<int>, id: int): (r: seq<int>)
    ensures forall x :: x in r <==> x in ids && x != id
    ensures |r| <= |ids|
  {
    if ids == [] then [] else (if ids[0] == id then [] else [ids[0]]) + Without(ids[1..], id)
  }

  /** Filtering distributes over concatenation, so the ids that stay keep their relative order. */
  lemma {:induction false} WithoutConcat(a: seq<int>, b: seq<int>, id: int)
    ensures Without(a + b, id) == Without(a, id) + Without(b, id)
  {
    if a == [] {
      assert a + b == b;
    } else {
      assert (a + b)[1..] == a[1..] + b;
      WithoutConcat(a[1..], b, id);
    }
  }

  /** Unchecking removes every copy of `id` and leaves the count of every other id alone. */
  lemma {:induction false} WithoutCounts(ids: seq<int>, id: int)
    ensures multiset(Without(ids, id))[id] == 0
    ensures forall x | x != id :: multiset(Without(ids, id))[x] == multiset(ids)[x]
    ensures |Without(ids, id)| == |ids| - multiset(ids)[id]
  {
    if ids != [] {
      WithoutCounts(ids[1..], id);
      assert ids == [ids[0]] + ids[1..];
    }
  }

  /** A list without `id` is left unchanged by removing `id`. */
  lemma {:induction false} WithoutAbsent(ids: seq<int>, id: int)
    requires id !in ids
    ensures Without(ids, id) == ids
  {
    if ids != [] {
      WithoutAbsent(ids[1..], id);
      assert ids == [ids[0]] + ids[1..];
    }
  }

  /** Unchecking twice is unchecking once. */
  lemma WithoutIdempotent(ids: seq<int>, id: int)
    ensures Without(Without(ids, id), id) == Without(ids, id)
  {
    WithoutAbsent(Without(ids, id), id);
  }

  /** The list after a checkbox change: appended when checked, filtered out when unchecked. */
  function Toggled(ids: seq<int>, id: int, checked: bool): (r: seq<int>)
    ensures id in r <==> checked
    ensures forall x | x != id :: x in r <==> x in ids
  {
    if checked then ids + [id] else Without(ids, id)
  }

  /** Checking an unchecked id and unchecking it again gives back the list it started from. */
  lemma CheckThenUncheck(ids: seq<int>, id: int)
    requires id !in ids
    ensures Toggled(Toggled(ids, id, true), id, false) == ids
  {
    WithoutConcat(ids, [id], id);
    WithoutAbsent(ids, id);
  }

  /**
   * Checking appends at the end: the earlier ids keep their places. The
   * list may hold `id` twice when it was already checked, since the
   * append does not look.
   */
  lemma CheckAppends(ids: seq<int>, id: int)
    ensures Toggled(ids, id, true)[..|ids|] == ids
    ensures Toggled(ids, id, true)[|ids|] == id
    ensures multiset(Toggled(ids, id, true))[id] == multiset(ids)[id] + 1
  {
  }

  // ---------------------------------------------------------------------
  // The route being edited

  /**
   * What the form receives about the route it edits: its principal client,
   * its status, and the ids of its assigned points, which the record may
   * carry or not (`clientes_reparto_asignados` is not a declared field of
   * the route type, so it is usually absent).
   */
  datatype RouteToEdit = RouteToEdit(clienteId: Option<string>, estado: Option<string>, asignados: Option<seq<int>>)

  /** The assigned ids of the route being edited, or none (`?.map(dci => dci.id) || []`). */
  function InitialSelection(initial: Option<RouteToEdit>): seq<int> {
    if initial.Some? then initial.value.asignados.GetOr([]) else []
  }

  /** The status the form starts from: the route's own, or 'Asignado' when there is none or it is empty. */
  function InitialEstado(initial: Option<RouteToEdit>): (e: string)
    ensures e != ""
    ensures initial.None? ==> e == DefaultRepartoEstado
  {
    if initial.Some? && initial.value.estado.Some? && initial.value.estado.value != "" then initial.value.estado.value
    else DefaultRepartoEstado
  }

  /**
   * The selection after the points of `clienteId` arrive: the route's own
   * assignment when it is the route's principal client, and nothing
   * otherwise (a new route never restores anything).
   */
  function RestoredSelection(initial: Option<RouteToEdit>, clienteId: string): (r: seq<int>)
    ensures initial.Some? && initial.value.clienteId == Some(clienteId) ==> r == InitialSelection(initial)
    ensures r != [] ==> initial.Some? && initial.value.clienteId == Some(clienteId)
  {
    if initial.Some? && initial.value.clienteId == Some(clienteId) then InitialSelection(initial) else []
  }

  // ---------------------------------------------------------------------
  // The form state

  class RepartoFormState {
    /** The route being edited, if any. */
    const initial: Option<RouteToEdit>
    /** The selected principal client ('' when none). */
    var clienteId: string
    /** `selected_clientes_reparto_ids`, in the order the ids were checked. */
    var selected: seq<int>
    /** The drop-off points offered as checkboxes. */
    var available: seq<DeliveryClientInfo>
    var isLoadingDci: bool
    var isSubmitting: bool
    var estado: string

    /** Opening the form: the route's values, or the empty defaults with status 'Asignado'. */
    constructor(initial: Option<RouteToEdit>)
      ensures this.initial == initial
      ensures clienteId == (if initial.Some? then OrEmpty(initial.value.clienteId) else "")
      ensures selected == InitialSelection(initial)
      ensures estado == InitialEstado(initial)
      ensures available == [] && !isLoadingDci && !isSubmitting
    {
      this.initial := initial;
      clienteId := if initial.Some? then OrEmpty(initial.value.clienteId) else "";
      selected := InitialSelection(initial);
      estado := InitialEstado(initial);
      available := [];
      isLoadingDci := false;
      isSubmitting := false;
    }

    /**
     * The reset in the effect that follows the route being edited: the
     * form fields go back to the values the form opened with; for a new
     * route the offered points are emptied too. The flags stay.
     */
    method Reset()
      modifies this
      ensures clienteId == (if initial.Some? then OrEmpty(initial.value.clienteId) else "")
      ensures selected == InitialSelection(initial)
      ensures estado == InitialEstado(initial)
      ensures available == (if initial.Some? then old(available) else [])
      ensures isLoadingDci == old(isLoadingDci) && isSubmitting == old(isSubmitting)
    {
      clienteId := if initial.Some? then OrEmpty(initial.value.clienteId) else "";
      selected := InitialSelection(initial);
      estado := InitialEstado(initial);
      if initial.None? {
        available := [];
      }
    }

    /** A point's checkbox shows checked when its id is in the selection. */
    predicate IsChecked(id: int)
      reads this
    {
      id in selected
    }

    /** The checkbox handler: checking appends the id, unchecking filters every copy of it out. */
    method SetChecked(id: int, checked: bool)
      modifies this
      ensures selected == Toggled(old(selected), id, checked)
      ensures IsChecked(id) <==> checked
      ensures forall x | x != id :: IsChecked(x) <==> old(IsChecked(x))
      ensures clienteId == old(clienteId) && available == old(available) && estado == old(estado)
      ensures isLoadingDci == old(isLoadingDci) && isSubmitting == old(isSubmitting)
    {
      if checked {
        selected := selected + [id];
      } else {
        selected := Without(selected, id);
      }
    }

    /** Choosing a principal client in the select empties the selection. */
    method SelectClient(value: string)
      modifies this
      ensures clienteId == value && selected == []
      ensures available == old(available) && estado == old(estado)
      ensures isLoadingDci == old(isLoadingDci) && isSubmitting == old(isSubmitting)
    {
      clienteId := value;
      selected := [];
    }

    /**
     * The start of loading the points of `c`: with no client both lists
     * are emptied at once; otherwise the form shows it is loading.
     */
    method StartFetch(c: string)
      modifies this
      ensures c == "" ==> available == [] && selected == [] && isLoadingDci == old(isLoadingDci)
      ensures c != "" ==> available == old(available) && selected == old(selected) && isLoadingDci
      ensures clienteId == old(clienteId) && estado == old(estado) && isSubmitting == old(isSubmitting)
    {
      if c == "" {
        available := [];
        selected := [];
      } else {
        isLoadingDci := true;
      }
    }

    /**
     * The end of loading the points of `c`: on success the points are
     * offered and the selection is restored only for the route's own
     * client; on failure both lists are emptied. Loading stops either way.
     */
    method FinishFetch(c: string, result: Option<seq<DeliveryClientInfo>>)
      modifies this
      ensures result.Some? ==> available == result.value && selected == RestoredSelection(initial, c)
      ensures result.None? ==> available == [] && selected == []
      ensures !isLoadingDci
      ensures clienteId == old(clienteId) && estado == old(estado) && isSubmitting == old(isSubmitting)
    {
      if result.Some? {
        available := result.value;
        selected := RestoredSelection(initial, c);
      } else {
        available := [];
        selected := [];
      }
      isLoadingDci := false;
    }

    /** The submit button is disabled while submitting, or while a chosen client's points are loading. */
    predicate SubmitDisabled()
      reads this
    {
      isSubmitting || (clienteId != "" && isLoadingDci)
    }

    method BeginSubmit()
      modifies this
      ensures isSubmitting && SubmitDisabled()
      ensures clienteId == old(clienteId) && selected == old(selected) && available == old(available)
      ensures estado == old(estado) && isLoadingDci == old(isLoadingDci)
    {
      isSubmitting := true;
    }

    method EndSubmit()
      modifies this
      ensures !isSubmitting
      ensures SubmitDisabled() <==> clienteId != "" && isLoadingDci
      ensures clienteId == old(clienteId) && selected == old(selected) && available == old(available)
      ensures estado == old(estado) && isLoadingDci == old(isLoadingDci)
    {
      isSubmitting := false;
    }
  }

  /**
   * Opening the form and running its two effects in declaration order:
   * the first follows the watched client (with none it empties both lists,
   * otherwise it starts a load); the second resets the fields to the
   * route's values and, when the route has a principal client, loads that
   * client's points again. Both loads end with the outcome `points`.
   * A route edited with its own client keeps its assignment when the load
   * succeeds and loses it when it fails; a route edited without a client
   * keeps its assignment, since nothing is loaded after the reset; a new
   * route ends with nothing selected.
   */
  method ReloadOwnClient(initial: Option<RouteToEdit>, points: Option<seq<DeliveryClientInfo>>)
    returns (selection: seq<int>)
    ensures initial.Some? && Filled(initial.value.clienteId) && points.Some? ==> selection == InitialSelection(initial)
    ensures initial.Some? && Filled(initial.value.clienteId) && points.None? ==> selection == []
    ensures initial.Some? && !Filled(initial.value.clienteId) ==> selection == InitialSelection(initial)
    ensures initial.None? ==> selection == []
  {
    var form := new RepartoFormState(initial);
    // the first effect, on the watched client
    form.StartFetch(form.clienteId);
    // the second effect, on the route being edited
    form.Reset();
    if form.clienteId != "" {
      form.StartFetch(form.clienteId);
      form.FinishFetch(form.clienteId, points);
      form.FinishFetch(form.clienteId, points);
    }
    selection := form.selected;
  }

  /**
   * A new route opens with the status 'Asignado', which the route schema
   * rejects: submitting it without choosing a status reports the status issue.
   */
  lemma NewRouteStatusIsRejected(r: RepartoInput)
    requires r.estado == InitialEstado(None)
    ensures Issue([Key("estado")], RouteStatusInvalid) in ValidateReparto(r)
  {
    DefaultEstadoRejected(r);
  }
}
