/**
 * The delivery window of a drop-off point. The datastore keeps it as one
 * text, `rango_horario`, normally "HH:MM - HH:MM"; the drop-off point form
 * edits it as two fields, `desde` and `hasta`, obtained by an ordered
 * cascade of rules: split on " - ", then a "desde " prefix, then a
 * "hasta " prefix, then nothing.
 */
module TimeWindow {
  import opened Wrappers
  import opened Text
  import opened Types
  import opened Schema

  /** The two bounds of a delivery window as the form edits them; "" is an empty field. */
  datatype Window = Window(desde: string, hasta: string)

  const Separator: string := " - "

  /** The window text written as the two bounds around the separator. */
  function FormatWindow(w: Window): string {
    w.desde + Separator + w.hasta
  }

  /** `s.toLowerCase().startsWith(prefix)`, compared character by character. */
  predicate StartsWithIgnoringCase(s: string, prefix: string) {
    |prefix| <= |s| && forall i :: 0 <= i < |prefix| ==> LowerChar(s[i]) == prefix[i]
  }

  /** The character-wise comparison is the one on the lower-cased text. */
  lemma StartsWithIgnoringCaseIsLowerPrefix(s: string, prefix: string)
    ensures StartsWithIgnoringCase(s, prefix) <==> StartsWith(Lower(s), prefix)
  {
    if StartsWithIgnoringCase(s, prefix) {
      assert Lower(s)[..|prefix|] == prefix;
    }
  }

  /** `parseRangoHorario`: reads a stored window text into its two bounds. */
  function ParseRangoHorario(rango: Option<string>): Window {
    if rango.None? || rango.value == "" then Window("", "")
    else
      var r := rango.value;
      var parts := Split(r, Separator);
      if |parts| == 2 then Window(Trim(parts[0]), Trim(parts[1]))
      else if StartsWithIgnoringCase(r, "desde ") then Window(Trim(r[6..]), "")
      else if StartsWithIgnoringCase(r, "hasta ") then Window("", Trim(r[6..]))
      else Window("", "")
  }

  /**
   * Whatever rule applies, both bounds come out trimmed; a null or empty
   * text gives two empty bounds, and a non-empty bound needs the split
   * rule or one of the two prefixes to have applied.
   */
  lemma ParseGivesTrimmedBounds(rango: Option<string>)
    ensures var w := ParseRangoHorario(rango);
      && !HasEdgeWhitespace(w.desde) && !HasEdgeWhitespace(w.hasta)
      && (rango.None? || rango.value == "" ==> w == Window("", ""))
      && (rango.Some? && w != Window("", "") ==>
            |Split(rango.value, Separator)| == 2 || StartsWithIgnoringCase(rango.value, "desde ") || StartsWithIgnoringCase(rango.value, "hasta "))
  {
  }

  /**
   * The split rule: when the text has exactly one separator, the bounds
   * are the trimmed pieces on either side of it, and the text is those
   * pieces joined around that separator.
   */
  lemma SplitRule(r: string)
    requires |Split(r, Separator)| == 2
    ensures var parts := Split(r, Separator);
      && r == parts[0] + Separator + parts[1]
      && !Includes(parts[0], Separator) && !Includes(parts[1], Separator)
      && ParseRangoHorario(Some(r)) == Window(Trim(parts[0]), Trim(parts[1]))
  {
    var parts := Split(r, Separator);
    assert r != "";
    JoinSplit(r, Separator);
    var tail := parts[1..];
    assert Join(tail, Separator) == parts[1];
    assert Join(parts, Separator) == parts[0] + Separator + Join(tail, Separator);
  }

  /** Without exactly one separator, a case-insensitive "desde " prefix fills only `desde`, with the rest of the text. */
  lemma DesdeRule(r: string)
    requires |Split(r, Separator)| != 2 && StartsWithIgnoringCase(r, "desde ")
    ensures ParseRangoHorario(Some(r)) == Window(Trim(r[6..]), "")
  {
  }

  /** Otherwise a case-insensitive "hasta " prefix fills only `hasta`. */
  lemma HastaRule(r: string)
    requires |Split(r, Separator)| != 2 && !StartsWithIgnoringCase(r, "desde ") && StartsWithIgnoringCase(r, "hasta ")
    ensures ParseRangoHorario(Some(r)) == Window("", Trim(r[6..]))
  {
  }

  /** Any other text, including one with two or more separators and no prefix, leaves both bounds empty. */
  lemma FallbackRule(r: string)
    requires |Split(r, Separator)| != 2 && !StartsWithIgnoringCase(r, "desde ") && !StartsWithIgnoringCase(r, "hasta ")
    ensures ParseRangoHorario(Some(r)) == Window("", "")
  {
  }

  /** The separator's three characters sit where it occurs. */
  lemma SeparatorChars(s: string, j: int)
    requires OccursAt(s, Separator, j)
    ensures s[j] == ' ' && s[j + 1] == '-' && s[j + 2] == ' '
  {
    assert s[j..j + 3][0] == ' ' && s[j..j + 3][1] == '-' && s[j..j + 3][2] == ' ';
  }

  /** `s` ends in a space followed by a dash, the first two characters of the separator. */
  predicate EndsWithSpaceDash(s: string) {
    |s| >= 2 && s[|s| - 2] == ' ' && s[|s| - 1] == '-'
  }

  /** An occurrence in `a + Separator + rest` inside `a` lies in `a` or straddles its end. */
  lemma EarlyOccurrence(a: string, rest: string, j: int)
    requires 0 <= j < |a| && OccursAt(a + Separator + rest, Separator, j)
    ensures Includes(a, Separator) || a[|a| - 1] == ' ' || EndsWithSpaceDash(a)
  {
    var s := a + Separator + rest;
    SeparatorChars(s, j);
    if j + 3 <= |a| {
      InsideFirst(a, s, j);
    }
  }

  /** An occurrence lying wholly inside the prefix `a` of `s` is an occurrence in `a`. */
  lemma InsideFirst(a: string, s: string, j: int)
    requires a <= s && 0 <= j && j + 3 <= |a| && OccursAt(s, Separator, j)
    ensures Includes(a, Separator)
  {
    assert a[j..j + 3] == s[j..j + 3];
    assert OccursAt(a, Separator, j);
    IncludesIff(a, Separator);
  }

  /** When nothing inside `a` starts a separator, the first piece of the split is `a`. */
  lemma SplitFirst(a: string, rest: string)
    requires forall j :: 0 <= j < |a| ==> !OccursAt(a + Separator + rest, Separator, j)
    ensures Split(a + Separator + rest, Separator) == [a] + Split(rest, Separator)
  {
    var s := a + Separator + rest;
    assert s[|a|..|a| + 3] == Separator;
    assert OccursAt(s, Separator, |a|);
    assert IndexOf(s, Separator, 0) == |a|;
    assert s[..|a|] == a;
    assert s[|a| + 3..] == rest;
  }

  /** A bound that holds no separator and ends neither in a space nor in " -" is cut off exactly by the separator after it. */
  lemma SplitAfter(a: string, rest: string)
    requires !Includes(a, Separator) && (a == [] || a[|a| - 1] != ' ') && !EndsWithSpaceDash(a)
    ensures Split(a + Separator + rest, Separator) == [a] + Split(rest, Separator)
  {
    forall j | 0 <= j < |a|
      ensures !OccursAt(a + Separator + rest, Separator, j)
    {
      if OccursAt(a + Separator + rest, Separator, j) {
        EarlyOccurrence(a, rest, j);
      }
    }
    SplitFirst(a, rest);
  }

  predicate NoDash(s: string) {
    forall i :: 0 <= i < |s| ==> s[i] != '-'
  }

  lemma NoDashNoSeparator(s: string)
    requires NoDash(s)
    ensures !Includes(s, Separator)
  {
    if Includes(s, Separator) {
      IncludesIff(s, Separator);
      var i :| OccursAt(s, Separator, i);
      SeparatorChars(s, i);
    }
  }

  /** The split rule comes first: "desde 08:00 - 10:00" keeps the word in `desde`. */
  lemma SplitTakesPriority()
    ensures ParseRangoHorario(Some("desde 08:00 - 10:00")) == Window("desde 08:00", "10:00")
  {
    var w := Window("desde 08:00", "10:00");
    assert FormatWindow(w) == "desde 08:00 - 10:00";
    NoDashNoSeparator(w.desde);
    NoDashNoSeparator(w.hasta);
    RoundTrip(w);
  }

  /**
   * Two separators defeat the split rule: the text then splits into three
   * or more pieces, so only the prefixes can fill a bound, and without
   * one both bounds stay empty.
   */
  lemma TwoSeparatorsDefeatSplit(a: string, b: string, c: string)
    requires !Includes(a, Separator) && (a == [] || a[|a| - 1] != ' ') && !EndsWithSpaceDash(a)
    requires !Includes(b, Separator) && (b == [] || b[|b| - 1] != ' ') && !EndsWithSpaceDash(b)
    ensures var r := a + Separator + b + Separator + c;
      && |Split(r, Separator)| >= 3
      && (StartsWithIgnoringCase(r, "desde ") ==> ParseRangoHorario(Some(r)) == Window(Trim(r[6..]), ""))
      && (!StartsWithIgnoringCase(r, "desde ") && !StartsWithIgnoringCase(r, "hasta ") ==> ParseRangoHorario(Some(r)) == Window("", ""))
  {
    var r := a + Separator + b + Separator + c;
    ThreePieces(a, b, c);
    if StartsWithIgnoringCase(r, "desde ") {
      DesdeRule(r);
    } else if !StartsWithIgnoringCase(r, "hasta ") {
      FallbackRule(r);
    }
  }

  lemma ThreePieces(a: string, b: string, c: string)
    requires !Includes(a, Separator) && (a == [] || a[|a| - 1] != ' ') && !EndsWithSpaceDash(a)
    requires !Includes(b, Separator) && (b == [] || b[|b| - 1] != ' ') && !EndsWithSpaceDash(b)
    ensures |Split(a + Separator + b + Separator + c, Separator)| >= 3
  {
    assert a + Separator + b + Separator + c == a + Separator + (b + Separator + c);
    SplitAfter(a, b + Separator + c);
    SplitAfter(b, c);
  }

  /** For instance "08:00 - 09:00 - 10:00" gives two empty bounds. */
  lemma ThreeTimesGiveNothing()
    ensures ParseRangoHorario(Some("08:00 - 09:00 - 10:00")) == Window("", "")
  {
    var a, b, c := "08:00", "09:00", "10:00";
    var r := a + Separator + b + Separator + c;
    assert r == "08:00 - 09:00 - 10:00";
    NoDashNoSeparator(a);
    NoDashNoSeparator(b);
    TwoSeparatorsDefeatSplit(a, b, c);
    assert LowerChar(r[0]) == '0';
  }

  /** A time of day holds only digits and a colon: no whitespace, no separator, no dash at its end. */
  lemma TimeOfDayHasNoSpace(s: string)
    requires IsTimeOfDay(s)
    ensures !Includes(s, Separator) && !HasEdgeWhitespace(s) && !EndsWithSpaceDash(s)
  {
    assert forall i :: 0 <= i < |s| ==> IsDigit(s[i]) || s[i] == ':';
    NoDashNoSeparator(s);
  }

  /**
   * Round trip with the "a - b" form: two bounds that hold no separator
   * and have no edge whitespace, where `desde` does not end in " -", are
   * read back unchanged from the text that joins them.
   */
  lemma RoundTrip(w: Window)
    requires !Includes(w.desde, Separator) && !Includes(w.hasta, Separator)
    requires !HasEdgeWhitespace(w.desde) && !HasEdgeWhitespace(w.hasta)
    requires !EndsWithSpaceDash(w.desde)
    ensures ParseRangoHorario(Some(FormatWindow(w))) == w
  {
    var r := FormatWindow(w);
    SplitAfter(w.desde, w.hasta);
    SplitWithout(w.hasta, Separator);
    assert Split(r, Separator) == [w.desde, w.hasta];
    SplitRule(r);
    TrimIdentity(w.desde);
    TrimIdentity(w.hasta);
  }

  /** The " -" condition is needed: "x -" and "y" come back as "x" and "- y". */
  lemma RoundTripNeedsNoTrailingDash()
    ensures FormatWindow(Window("x -", "y")) == "x - - y"
    ensures ParseRangoHorario(Some("x - - y")) == Window("x", "- y")
  {
    assert FormatWindow(Window("x -", "y")) == "x - - y";
    var w := Window("x", "- y");
    assert FormatWindow(w) == "x - - y";
    NoDashNoSeparator(w.desde);
    assert !Includes(w.hasta, Separator) by {
      if Includes(w.hasta, Separator) {
        IncludesIff(w.hasta, Separator);
        var i :| OccursAt(w.hasta, Separator, i);
        SeparatorChars(w.hasta, i);
      }
    }
    RoundTrip(w);
  }

  /**
   * Every window whose bounds are both valid times is read back exactly,
   * and the bounds read back pass the time-format check.
   */
  lemma TimesRoundTrip(a: string, b: string)
    requires IsTimeOfDay(a) && IsTimeOfDay(b)
    ensures ParseRangoHorario(Some(FormatWindow(Window(a, b)))) == Window(a, b)
    ensures TimeFieldIssues(Some(ParseRangoHorario(Some(FormatWindow(Window(a, b)))).desde), "rango_horario_desde") == []
    ensures TimeFieldIssues(Some(ParseRangoHorario(Some(FormatWindow(Window(a, b)))).hasta), "rango_horario_hasta") == []
  {
    TimeOfDayHasNoSpace(a);
    TimeOfDayHasNoSpace(b);
    RoundTrip(Window(a, b));
  }

  // ---------------------------------------------------------------------
  // The form's starting values

  /**
   * The values the drop-off point form starts from: the edited record's
   * fields with null texts as "", the window read by `ParseRangoHorario`
   * (an absent or empty window gives two empty bounds), and a null tariff
   * as an untouched (undefined) field. A new point starts from all-empty
   * values.
   */
  function DefaultFormValues(initial: Option<DeliveryClientInfo>): (v: DeliveryClientInfoInput)
    ensures initial.None? ==> v == DeliveryClientInfoInput("", "", Some(""), Some(""), Some(""), Undefined, Some(""))
  {
    var window :=
      if initial.Some? && initial.value.rangoHorario.Some? && initial.value.rangoHorario.value != ""
      then ParseRangoHorario(initial.value.rangoHorario)
      else Window("", "");
    var clienteId := if initial.Some? then initial.value.clienteId else "";
    var nombre := if initial.Some? then initial.value.nombreReparto else "";
    var direccion := if initial.Some? then OrEmpty(initial.value.direccionReparto) else "";
    var telefono := if initial.Some? then OrEmpty(initial.value.telefonoReparto) else "";
    var tarifa := if initial.Some? && initial.value.tarifa.Some? then Parsed(Finite(initial.value.tarifa.value)) else Undefined;
    DeliveryClientInfoInput(clienteId, nombre, Some(direccion), Some(window.desde), Some(window.hasta), tarifa, Some(telefono))
  }

  /**
   * Editing a stored point: the window fields are exactly what
   * `ParseRangoHorario` reads from the stored text (the guard before the
   * call changes nothing), and the tariff survives the form's numeric
   * preprocessing unchanged, null included.
   */
  lemma StoredPointDefaults(d: DeliveryClientInfo)
    ensures var v := DefaultFormValues(Some(d));
      && Window(v.rangoHorarioDesde.value, v.rangoHorarioHasta.value) == ParseRangoHorario(d.rangoHorario)
      && NormalizedAmount(v.tarifa) == d.tarifa
      && (AmountIssues(v.tarifa, [Key("tarifa")], TariffNotANumber, TariffNegative) == [] <==> (d.tarifa.None? || d.tarifa.value >= 0.0))
      && v.clienteId == d.clienteId && v.nombreReparto == d.nombreReparto
      && (d.direccionReparto.None? ==> v.direccionReparto == Some(""))
      && (d.telefonoReparto.None? ==> v.telefonoReparto == Some(""))
  {
  }

  /** A new point's empty form is rejected: it names no principal client and has no name. */
  lemma NewPointFormIsIncomplete()
    ensures var issues := ValidateDeliveryClientInfo(DefaultFormValues(None));
      && Issue([Key("cliente_id")], ClientInvalid) in issues
      && Issue([Key("nombre_reparto")], DropOffNameRequired) in issues
  {
    var v := DefaultFormValues(None);
    MissingClientAndName(v);
    var issues := ValidateDeliveryClientInfo(v);
    assert issues[0] in issues && issues[1] in issues;
  }
}
