/**
 * The input contracts of the forms: clients, drivers, drop-off points,
 * stops and routes. Each schema is a function from a well-typed form value
 * to the list of issues the validator reports, in field order; an empty
 * list means the value is accepted.
 *
 * Two behaviours of the validator library are modelled explicitly:
 * - a failing string or number check (length, pattern, minimum) records
 *   an issue and parsing goes on, so a cross-field `refine` still runs;
 * - a type error (NaN where a number is expected) or a value outside an
 *   enumeration aborts the object, and its `refine` is skipped.
 */
module Schema {
  import opened Wrappers
  import opened Text
  import opened Types

  /** One step of an issue path: a field name or an array position. */
  datatype PathSegment = Key(name: string) | Index(i: nat)

  /**
   * The messages the schemas attach to their checks. Two come from the
   * validator library itself (a string over its maximum without a message
   * of its own, a value outside an enumeration); `MessageText` gives the
   * text shown for each.
   */
  datatype Message =
    | NameRequired | NameTooLong | AddressRequired | AddressTooLong | PhoneTooLong
    | EmailInvalid | EmailTooLong | IdentificationTooLong | VehicleTooLong
    | ClientInvalid | DropOffNameRequired | DropOffAddressTooLong | TimeFormatInvalid
    | TariffNotANumber | TariffNegative | DropOffPhoneTooLong | WindowOutOfOrder
    | StopClientRequired | AmountNotANumber | AmountNegative | StopNoteTooLong
    | DateRequired | DriverInvalid | PrincipalClientInvalid | ZoneInvalid
    | ExpectedNumberReceivedNan | BatchBelowOne | RouteStatusInvalid | NotesTooLong | StopsRequired
    | StringTooLong(maximum: nat)
    | InvalidEnumValue(options: seq<string>, received: string)

  /** The options of an enumeration as the library lists them: quoted and separated by " | ". */
  function QuotedOptions(options: seq<string>): string {
    if options == [] then ""
    else if |options| == 1 then "'" + options[0] + "'"
    else "'" + options[0] + "' | " + QuotedOptions(options[1..])
  }

  /** The text shown for a message. */
  function MessageText(m: Message): string {
    match m
    case NameRequired => "El nombre es requerido"
    case NameTooLong => "El nombre debe tener 100 caracteres o menos"
    case AddressRequired => "La dirección es requerida"
    case AddressTooLong => "La dirección debe tener 200 caracteres o menos"
    case PhoneTooLong => "El teléfono debe tener 20 caracteres o menos"
    case EmailInvalid => "Email inválido"
    case EmailTooLong => "El email debe tener 100 caracteres o menos"
    case IdentificationTooLong => "La identificación debe tener 50 caracteres o menos"
    case VehicleTooLong => "El vehículo debe tener 100 caracteres o menos"
    case ClientInvalid => "Debe seleccionar un cliente válido."
    case DropOffNameRequired => "El nombre de reparto es requerido."
    case DropOffAddressTooLong => "La dirección de reparto debe tener 255 caracteres o menos"
    case TimeFormatInvalid => "Formato HH:MM inválido"
    case TariffNotANumber => "La tarifa debe ser un número."
    case TariffNegative => "La tarifa no puede ser negativa."
    case DropOffPhoneTooLong => "El teléfono de reparto debe tener 20 caracteres o menos"
    case WindowOutOfOrder => "La hora 'desde' no puede ser posterior a la hora 'hasta'."
    case StopClientRequired => "Debe seleccionar un cliente de reparto."
    case AmountNotANumber => "El valor debe ser un número."
    case AmountNegative => "El valor no puede ser negativo."
    case StopNoteTooLong => "El detalle no puede exceder los 500 caracteres."
    case DateRequired => "La fecha de reparto es requerida."
    case DriverInvalid => "Debe seleccionar un repartidor válido."
    case PrincipalClientInvalid => "Debe seleccionar un cliente principal válido."
    case ZoneInvalid => "Debe seleccionar una zona válida."
    case ExpectedNumberReceivedNan => "Expected number, received nan"
    case BatchBelowOne => "La tanda debe ser al menos 1."
    case RouteStatusInvalid => "Estado de reparto inválido."
    case NotesTooLong => "Las observaciones no pueden exceder los 500 caracteres."
    case StopsRequired => "Si selecciona un Cliente Principal, debe agregar al menos un Ítem de Entrega."
    case StringTooLong(maximum) => "String must contain at most " + IntString(maximum) + " character(s)"
    case InvalidEnumValue(options, received) =>
      "Invalid enum value. Expected " + QuotedOptions(options) + ", received '" + received + "'"
  }

  /** A validation issue: where it is, and the message shown there. */
  datatype Issue = Issue(path: seq<PathSegment>, message: Message)

  /** The issues reported at exactly `path`, in order. */
  function IssuesAt(issues: seq<Issue>, path: seq<PathSegment>): (r: seq<Issue>)
    ensures |r| <= |issues|
    ensures forall i | i in r :: i.path == path && i in issues
  {
    if issues == [] then []
    else (if issues[0].path == path then [issues[0]] else []) + IssuesAt(issues[1..], path)
  }

  lemma {:induction false} IssuesAtConcat(a: seq<Issue>, b: seq<Issue>, path: seq<PathSegment>)
    ensures IssuesAt(a + b, path) == IssuesAt(a, path) + IssuesAt(b, path)
  {
    if a == [] {
      assert a + b == b;
    } else {
      assert (a + b)[1..] == a[1..] + b;
      IssuesAtConcat(a[1..], b, path);
    }
  }

  lemma {:induction false} IssuesAtNone(issues: seq<Issue>, path: seq<PathSegment>)
    requires NoneAt(issues, path)
    ensures IssuesAt(issues, path) == []
  {
    if issues != [] {
      IssuesAtNone(issues[1..], path);
    }
  }

  /** No issue sits at exactly `path`. */
  predicate NoneAt(issues: seq<Issue>, path: seq<PathSegment>) {
    forall i | i in issues :: i.path != path
  }

  /** No issue carries `message`. */
  predicate NoneSays(issues: seq<Issue>, message: Message) {
    forall i | i in issues :: i.message != message
  }

  /** Every issue sits `n` steps deep. */
  predicate AtDepth(issues: seq<Issue>, n: nat) {
    forall i | i in issues :: |i.path| == n
  }

  lemma Concat(a: seq<Issue>, b: seq<Issue>, path: seq<PathSegment>, message: Message, n: nat)
    ensures NoneAt(a, path) && NoneAt(b, path) ==> NoneAt(a + b, path)
    ensures NoneSays(a, message) && NoneSays(b, message) ==> NoneSays(a + b, message)
    ensures AtDepth(a, n) && AtDepth(b, n) ==> AtDepth(a + b, n)
  {
  }

  // ---------------------------------------------------------------------
  // Field checks shared by the schemas

  /** `z.string().min(1, minMessage).max(max, maxMessage)` on a required text field. */
  function RequiredTextIssues(s: string, max: nat, key: string, minMessage: Message, maxMessage: Message): (r: seq<Issue>)
    ensures r == [] <==> 1 <= |s| <= max
    ensures forall i | i in r :: i.path == [Key(key)]
    ensures forall i | i in r :: i.message == minMessage || i.message == maxMessage
  {
    if |s| < 1 then [Issue([Key(key)], minMessage)]
    else if |s| > max then [Issue([Key(key)], maxMessage)]
    else []
  }

  /** `z.string().max(max, message).optional().nullable().or(z.literal(''))` */
  function OptionalTextIssues(f: Option<string>, max: nat, path: seq<PathSegment>, message: Message): (r: seq<Issue>)
    ensures r == [] <==> (f.None? || |f.value| <= max)
    ensures forall i | i in r :: i.path == path && i.message == message
  {
    if f.Some? && |f.value| > max then [Issue(path, message)] else []
  }

  /** A text field is filled when it is present and not empty (JavaScript truthiness of a string). */
  predicate Filled(f: Option<string>) {
    f.Some? && f.value != ""
  }

  /** JavaScript's `x || ''` on an optional text: the text, or '' when it is absent. */
  function OrEmpty(f: Option<string>): (r: string)
    ensures f.Some? ==> r == f.value
    ensures f.None? ==> r == ""
  {
    f.GetOr("")
  }

  // ---------------------------------------------------------------------
  // Identifiers: `z.string().uuid()`

  predicate IsHexDigit(c: char) {
    ('0' <= c <= '9') || ('a' <= c <= 'f') || ('A' <= c <= 'F')
  }

  /** Five groups of 8, 4, 4, 4 and 12 hexadecimal digits separated by dashes. */
  predicate IsUuid(s: string) {
    |s| == 36 &&
    forall i :: 0 <= i < 36 ==>
      if i == 8 || i == 13 || i == 18 || i == 23 then s[i] == '-' else IsHexDigit(s[i])
  }

  // ---------------------------------------------------------------------
  // Numbers: `z.preprocess(v => v === "" || v == null ? null : parseFloat(String(v)), z.number().min(0).optional().nullable())`

  /** What `parseFloat` produced from a non-empty form value. */
  datatype ParsedNumber = NotANumber | Finite(value: real)

  /** A numeric form value: the empty text, null, undefined, or text already read by `parseFloat`. */
  datatype NumericInput = EmptyText | NullValue | Undefined | Parsed(number: ParsedNumber)

  /** The preprocessing step: '', null and undefined all become null. */
  function Preprocess(v: NumericInput): (r: Option<ParsedNumber>)
    ensures r.None? <==> (v == EmptyText || v == NullValue || v == Undefined)
    ensures r.Some? ==> r.value == v.number
  {
    if v.Parsed? then Some(v.number) else None
  }

  /** A non-negative amount after preprocessing: null, or a number at least 0. */
  function AmountIssues(v: NumericInput, path: seq<PathSegment>, typeMessage: Message, minMessage: Message): (r: seq<Issue>)
    ensures |r| <= 1
    ensures forall i | i in r :: i.path == path
    ensures forall i | i in r :: i.message == typeMessage || i.message == minMessage
  {
    match Preprocess(v)
    case None => []
    case Some(NotANumber) => [Issue(path, typeMessage)]
    case Some(Finite(x)) => if x < 0.0 then [Issue(path, minMessage)] else []
  }

  /** The amount a validated numeric field carries: null, or the number. */
  function NormalizedAmount(v: NumericInput): Option<real> {
    match Preprocess(v)
    case Some(Finite(x)) => Some(x)
    case _ => None
  }

  /**
   * The amount rule: '' / null / undefined are accepted and become null;
   * anything else is accepted exactly when it is a number at least 0, and
   * then it is kept as is. NaN is the one input that aborts the object.
   */
  lemma AmountRule(v: NumericInput, path: seq<PathSegment>, typeMessage: Message, minMessage: Message)
    ensures !v.Parsed? ==> AmountIssues(v, path, typeMessage, minMessage) == [] && NormalizedAmount(v).None?
    ensures v.Parsed? ==>
      (AmountIssues(v, path, typeMessage, minMessage) == [] <==> v.number.Finite? && v.number.value >= 0.0)
    ensures AmountIssues(v, path, typeMessage, minMessage) == [] && v.Parsed? ==>
      NormalizedAmount(v) == Some(v.number.value)
    ensures v == Parsed(NotANumber) ==> AmountIssues(v, path, typeMessage, minMessage) == [Issue(path, typeMessage)]
  {
  }

  // ---------------------------------------------------------------------
  // Times of day: timeFormatRegex = /^([01]\d|2[0-3]):([0-5]\d)$/

  /** Matches the time pattern: hour 00-23, a colon, minute 00-59, nothing else. */
  predicate IsTimeOfDay(s: string) {
    && |s| == 5
    && s[2] == ':'
    && (((s[0] == '0' || s[0] == '1') && IsDigit(s[1])) || (s[0] == '2' && '0' <= s[1] <= '3'))
    && '0' <= s[3] <= '5'
    && IsDigit(s[4])
  }

  function Hour(s: string): (h: nat)
    requires IsTimeOfDay(s)
    ensures h < 24
  {
    DigitValue(s[0]) * 10 + DigitValue(s[1])
  }

  function Minute(s: string): (m: nat)
    requires IsTimeOfDay(s)
    ensures m < 60
  {
    DigitValue(s[3]) * 10 + DigitValue(s[4])
  }

  /** Minutes since midnight of a valid time: within one day. */
  function MinutesSinceMidnight(s: string): (m: nat)
    requires IsTimeOfDay(s)
    ensures m < 24 * 60
  {
    Hour(s) * 60 + Minute(s)
  }

  function TwoDigits(n: nat): string
    requires n < 100
  {
    [DigitChar(n / 10), DigitChar(n % 10)]
  }

  /** The zero-padded "HH:MM" text of an hour and a minute. */
  function TimeOfDay(h: nat, m: nat): string
    requires h < 24 && m < 60
  {
    TwoDigits(h) + ":" + TwoDigits(m)
  }

  /**
   * The pattern accepts exactly the zero-padded times of one day: every
   * hour and minute in range is written in a matching form and read back
   * unchanged, and every matching string is such a form.
   */
  lemma TimeOfDayRoundTrip(h: nat, m: nat)
    requires h < 24 && m < 60
    ensures IsTimeOfDay(TimeOfDay(h, m))
    ensures Hour(TimeOfDay(h, m)) == h && Minute(TimeOfDay(h, m)) == m
  {
    var s := TimeOfDay(h, m);
    assert s[0] == DigitChar(h / 10) && s[1] == DigitChar(h % 10);
    assert s[3] == DigitChar(m / 10) && s[4] == DigitChar(m % 10);
  }

  lemma TimeOfDayIsFormatted(s: string)
    requires IsTimeOfDay(s)
    ensures s == TimeOfDay(Hour(s), Minute(s))
  {
    var t := TimeOfDay(Hour(s), Minute(s));
    assert DigitChar(DigitValue(s[0])) == s[0] && DigitChar(DigitValue(s[1])) == s[1];
    assert DigitChar(DigitValue(s[3])) == s[3] && DigitChar(DigitValue(s[4])) == s[4];
    assert Hour(s) / 10 == DigitValue(s[0]) && Hour(s) % 10 == DigitValue(s[1]);
    assert Minute(s) / 10 == DigitValue(s[3]) && Minute(s) % 10 == DigitValue(s[4]);
    assert t[0] == s[0] && t[1] == s[1] && t[2] == s[2] && t[3] == s[3] && t[4] == s[4];
  }

  /** Whether `a` sorts before `b` in (hour, minute) order. */
  predicate EarlierTime(a: string, b: string)
    requires IsTimeOfDay(a) && IsTimeOfDay(b)
  {
    Hour(a) < Hour(b) || (Hour(a) == Hour(b) && Minute(a) < Minute(b))
  }

  /** On valid times, the string order `<` is the (hour, minute) order. */
  lemma LexLessIsEarlierTime(a: string, b: string)
    requires IsTimeOfDay(a) && IsTimeOfDay(b)
    ensures LexLess(a, b) <==> EarlierTime(a, b)
  {
    assert a[1..][1..][1..][1..] == a[4..] && b[1..][1..][1..][1..] == b[4..];
    assert a[1..][1..][1..] == a[3..] && b[1..][1..][1..] == b[3..];
    assert a[1..][1..] == a[2..] && b[1..][1..] == b[2..];
    assert LexLess(a, b) == (if a[0] != b[0] then a[0] < b[0] else LexLess(a[1..], b[1..]));
    assert LexLess(a[1..], b[1..]) == (if a[1] != b[1] then a[1] < b[1] else LexLess(a[2..], b[2..]));
    assert LexLess(a[2..], b[2..]) == LexLess(a[3..], b[3..]);
    assert LexLess(a[3..], b[3..]) == (if a[3] != b[3] then a[3] < b[3] else LexLess(a[4..], b[4..]));
    assert LexLess(a[4..], b[4..]) == (a[4] < b[4]) by {
      assert a[4..][1..] == [] && b[4..][1..] == [];
    }
  }

  /**
   * For valid times the string comparison `desde <= hasta` used by the
   * form agrees with comparing minutes since midnight.
   */
  lemma TimeOrderIsMinuteOrder(a: string, b: string)
    requires IsTimeOfDay(a) && IsTimeOfDay(b)
    ensures LexLessEq(a, b) <==> MinutesSinceMidnight(a) <= MinutesSinceMidnight(b)
  {
    LexLessIsEarlierTime(b, a);
  }

  /** A time field is accepted when it is absent, empty, or a valid time of day. */
  function TimeFieldIssues(f: Option<string>, key: string): (r: seq<Issue>)
    ensures r == [] <==> (f.None? || f.value == "" || IsTimeOfDay(f.value))
    ensures r != [] ==> r == [Issue([Key(key)], TimeFormatInvalid)]
  {
    if f.Some? && f.value != "" && !IsTimeOfDay(f.value) then [Issue([Key(key)], TimeFormatInvalid)] else []
  }

  // ---------------------------------------------------------------------
  // clientSchema and repartidorSchema

  datatype ClientInput = ClientInput(nombre: string, direccion: string, telefono: Option<string>, email: Option<string>)

  /**
   * The client form. The e-mail pattern belongs to the validator library
   * and is a parameter; a present, non-empty e-mail reports the pattern
   * failure and the length failure independently.
   */
  function ValidateClient(c: ClientInput, isEmail: string -> bool): (issues: seq<Issue>)
    ensures issues == [] <==>
      && 1 <= |c.nombre| <= 100
      && 1 <= |c.direccion| <= 200
      && (c.telefono.None? || |c.telefono.value| <= 20)
      && (c.email.None? || c.email.value == "" || (isEmail(c.email.value) && |c.email.value| <= 100))
  {
    RequiredTextIssues(c.nombre, 100, "nombre", NameRequired, NameTooLong)
    + RequiredTextIssues(c.direccion, 200, "direccion", AddressRequired, AddressTooLong)
    + OptionalTextIssues(c.telefono, 20, [Key("telefono")], PhoneTooLong)
    + (if Filled(c.email) then
         (if isEmail(c.email.value) then [] else [Issue([Key("email")], EmailInvalid)])
         + OptionalTextIssues(c.email, 100, [Key("email")], EmailTooLong)
       else [])
  }

  datatype RepartidorInput = RepartidorInput(nombre: string, identificacion: Option<string>, telefono: Option<string>, vehiculo: Option<string>)

  /** The driver form: a name of 1 to 100 characters and bounded optional fields. */
  function ValidateRepartidor(r: RepartidorInput): (issues: seq<Issue>)
    ensures issues == [] <==>
      && 1 <= |r.nombre| <= 100
      && (r.identificacion.None? || |r.identificacion.value| <= 50)
      && (r.telefono.None? || |r.telefono.value| <= 20)
      && (r.vehiculo.None? || |r.vehiculo.value| <= 100)
  {
    RequiredTextIssues(r.nombre, 100, "nombre", NameRequired, NameTooLong)
    + OptionalTextIssues(r.identificacion, 50, [Key("identificacion")], IdentificationTooLong)
    + OptionalTextIssues(r.telefono, 20, [Key("telefono")], PhoneTooLong)
    + OptionalTextIssues(r.vehiculo, 100, [Key("vehiculo")], VehicleTooLong)
  }

  // ---------------------------------------------------------------------
  // deliveryClientInfoSchema

  datatype DeliveryClientInfoInput = DeliveryClientInfoInput(
    clienteId: string,
    nombreReparto: string,
    direccionReparto: Option<string>,
    rangoHorarioDesde: Option<string>,
    rangoHorarioHasta: Option<string>,
    tarifa: NumericInput,
    telefonoReparto: Option<string>)

  /** The refine on the time window: when both bounds are filled, `desde <= hasta` as strings. */
  predicate WindowOrdered(desde: Option<string>, hasta: Option<string>) {
    Filled(desde) && Filled(hasta) ==> LexLessEq(desde.value, hasta.value)
  }

  function DeliveryClientInfoFieldIssues(d: DeliveryClientInfoInput): seq<Issue> {
    (if IsUuid(d.clienteId) then [] else [Issue([Key("cliente_id")], ClientInvalid)])
    + RequiredTextIssues(d.nombreReparto, 255, "nombre_reparto", DropOffNameRequired, StringTooLong(255))
    + OptionalTextIssues(d.direccionReparto, 255, [Key("direccion_reparto")], DropOffAddressTooLong)
    + TimeFieldIssues(d.rangoHorarioDesde, "rango_horario_desde")
    + TimeFieldIssues(d.rangoHorarioHasta, "rango_horario_hasta")
    + AmountIssues(d.tarifa, [Key("tarifa")], TariffNotANumber, TariffNegative)
    + OptionalTextIssues(d.telefonoReparto, 20, [Key("telefono_reparto")], DropOffPhoneTooLong)
  }

  /** No field check of the drop-off point speaks of the window order: that message belongs to the refine alone. */
  lemma FieldIssuesNeverMentionOrder(d: DeliveryClientInfoInput)
    ensures NoneSays(DeliveryClientInfoFieldIssues(d), WindowOutOfOrder)
  {
    var a := if IsUuid(d.clienteId) then [] else [Issue([Key("cliente_id")], ClientInvalid)];
    var b := RequiredTextIssues(d.nombreReparto, 255, "nombre_reparto", DropOffNameRequired, StringTooLong(255));
    var c := OptionalTextIssues(d.direccionReparto, 255, [Key("direccion_reparto")], DropOffAddressTooLong);
    var e := TimeFieldIssues(d.rangoHorarioDesde, "rango_horario_desde");
    var f := TimeFieldIssues(d.rangoHorarioHasta, "rango_horario_hasta");
    var g := AmountIssues(d.tarifa, [Key("tarifa")], TariffNotANumber, TariffNegative);
    var h := OptionalTextIssues(d.telefonoReparto, 20, [Key("telefono_reparto")], DropOffPhoneTooLong);
    var m, p, n := WindowOutOfOrder, [], 0;
    Concat(a, b, p, m, n); Concat(a + b, c, p, m, n); Concat(a + b + c, e, p, m, n);
    Concat(a + b + c + e, f, p, m, n); Concat(a + b + c + e + f, g, p, m, n); Concat(a + b + c + e + f + g, h, p, m, n);
  }

  /** A point without a principal client and without a name reports both. */
  lemma MissingClientAndName(d: DeliveryClientInfoInput)
    requires d.clienteId == "" && d.nombreReparto == ""
    ensures Issue([Key("cliente_id")], ClientInvalid) in ValidateDeliveryClientInfo(d)
    ensures Issue([Key("nombre_reparto")], DropOffNameRequired) in ValidateDeliveryClientInfo(d)
  {
    assert !IsUuid(d.clienteId);
    assert RequiredTextIssues(d.nombreReparto, 255, "nombre_reparto", DropOffNameRequired, StringTooLong(255))
      == [Issue([Key("nombre_reparto")], DropOffNameRequired)];
  }

  /** A tariff that is not a number aborts the object, so the window refine does not run. */
  predicate DeliveryClientInfoAborts(d: DeliveryClientInfoInput) {
    d.tarifa == Parsed(NotANumber)
  }

  /** The drop-off point form: field issues first, then the window-order issue when the refine runs and fails. */
  function ValidateDeliveryClientInfo(d: DeliveryClientInfoInput): (issues: seq<Issue>)
    ensures issues == [] <==>
      DeliveryClientInfoFieldIssues(d) == [] && WindowOrdered(d.rangoHorarioDesde, d.rangoHorarioHasta)
  {
    DeliveryClientInfoFieldIssues(d)
    + (if !DeliveryClientInfoAborts(d) && !WindowOrdered(d.rangoHorarioDesde, d.rangoHorarioHasta)
       then [Issue([Key("rango_horario_hasta")], WindowOutOfOrder)]
       else [])
  }

  /**
   * The window rule: the order issue is reported, on the `rango_horario_hasta`
   * path and as the last issue, exactly when both bounds are filled, the
   * object did not abort, and `desde` sorts after `hasta`. With either bound
   * empty the rule always passes.
   */
  lemma WindowRule(d: DeliveryClientInfoInput)
    ensures !Filled(d.rangoHorarioDesde) || !Filled(d.rangoHorarioHasta) ==>
      WindowOrdered(d.rangoHorarioDesde, d.rangoHorarioHasta)
    ensures Issue([Key("rango_horario_hasta")], WindowOutOfOrder) in ValidateDeliveryClientInfo(d) <==>
      && !DeliveryClientInfoAborts(d)
      && Filled(d.rangoHorarioDesde) && Filled(d.rangoHorarioHasta)
      && LexLess(d.rangoHorarioHasta.value, d.rangoHorarioDesde.value)
  {
    FieldIssuesNeverMentionOrder(d);
    var w := Issue([Key("rango_horario_hasta")], WindowOutOfOrder);
    assert w !in DeliveryClientInfoFieldIssues(d);
  }

  /**
   * For a drop-off point whose other fields are valid and whose bounds are
   * both valid times, the record is accepted exactly when `desde` is not
   * later than `hasta` in minutes since midnight.
   */
  lemma WindowAcceptedIffMinutesOrdered(d: DeliveryClientInfoInput)
    requires IsUuid(d.clienteId) && 1 <= |d.nombreReparto| <= 255
    requires d.direccionReparto.None? || |d.direccionReparto.value| <= 255
    requires d.tarifa.Parsed? ==> d.tarifa.number.Finite? && d.tarifa.number.value >= 0.0
    requires d.telefonoReparto.None? || |d.telefonoReparto.value| <= 20
    requires d.rangoHorarioDesde.Some? && IsTimeOfDay(d.rangoHorarioDesde.value)
    requires d.rangoHorarioHasta.Some? && IsTimeOfDay(d.rangoHorarioHasta.value)
    ensures ValidateDeliveryClientInfo(d) == [] <==>
      MinutesSinceMidnight(d.rangoHorarioDesde.value) <= MinutesSinceMidnight(d.rangoHorarioHasta.value)
  {
    assert DeliveryClientInfoFieldIssues(d) == [];
    TimeOrderIsMinuteOrder(d.rangoHorarioDesde.value, d.rangoHorarioHasta.value);
  }

  // ---------------------------------------------------------------------
  // detalleRepartoFormSchema

  datatype DetalleRepartoInput = DetalleRepartoInput(
    clienteRepartoId: string,
    valorEntrega: NumericInput,
    detalleEntrega: Option<string>,
    estadoEntrega: Option<string>)

  function StopPath(index: nat, key: string): seq<PathSegment> {
    [Key("detalles_reparto"), Index(index), Key(key)]
  }

  function StopClientIssues(d: DetalleRepartoInput, index: nat): (r: seq<Issue>)
    ensures AtDepth(r, 3)
    ensures r == [] <==> d.clienteRepartoId != ""
  {
    if d.clienteRepartoId == "" then [Issue(StopPath(index, "cliente_reparto_id"), StopClientRequired)] else []
  }

  function StopAmountIssues(d: DetalleRepartoInput, index: nat): (r: seq<Issue>)
    ensures AtDepth(r, 3)
    ensures r == [] <==> (d.valorEntrega.Parsed? ==> d.valorEntrega.number.Finite? && d.valorEntrega.number.value >= 0.0)
  {
    var path := StopPath(index, "valor_entrega");
    AmountRule(d.valorEntrega, path, AmountNotANumber, AmountNegative);
    AmountIssues(d.valorEntrega, path, AmountNotANumber, AmountNegative)
  }

  function StopNoteIssues(d: DetalleRepartoInput, index: nat): (r: seq<Issue>)
    ensures AtDepth(r, 3)
    ensures r == [] <==> (d.detalleEntrega.None? || |d.detalleEntrega.value| <= 500)
  {
    OptionalTextIssues(d.detalleEntrega, 500, StopPath(index, "detalle_entrega"), StopNoteTooLong)
  }

  function StopStatusIssues(d: DetalleRepartoInput, index: nat): (r: seq<Issue>)
    ensures AtDepth(r, 3)
    ensures r == [] <==> (d.estadoEntrega.Some? ==> d.estadoEntrega.value in StopStatusNames)
  {
    if d.estadoEntrega.Some? && ParseStopStatus(d.estadoEntrega.value).None?
    then [Issue(StopPath(index, "estado_entrega"), InvalidEnumValue(StopStatusNames, d.estadoEntrega.value))]
    else []
  }

  /** The issues of the stop at position `index` of the route's stop list. */
  function DetalleIssues(d: DetalleRepartoInput, index: nat): seq<Issue> {
    StopClientIssues(d, index) + StopAmountIssues(d, index) + StopNoteIssues(d, index) + StopStatusIssues(d, index)
  }

  /** A stop is clean exactly when each of its fields passes its own check. */
  lemma DetalleIssuesEmpty(d: DetalleRepartoInput, index: nat)
    ensures DetalleIssues(d, index) == [] <==>
      && d.clienteRepartoId != ""
      && (d.valorEntrega.Parsed? ==> d.valorEntrega.number.Finite? && d.valorEntrega.number.value >= 0.0)
      && (d.detalleEntrega.None? || |d.detalleEntrega.value| <= 500)
      && (d.estadoEntrega.Some? ==> d.estadoEntrega.value in StopStatusNames)
  {
    var a, b, c, e := StopClientIssues(d, index), StopAmountIssues(d, index), StopNoteIssues(d, index), StopStatusIssues(d, index);
    assert |a + b + c + e| == |a| + |b| + |c| + |e|;
  }

  /** A stop aborts on a non-numeric amount or a status outside the enumeration. */
  predicate DetalleAborts(d: DetalleRepartoInput) {
    d.valorEntrega == Parsed(NotANumber) || (d.estadoEntrega.Some? && ParseStopStatus(d.estadoEntrega.value).None?)
  }

  /** The issues of every stop, numbered from `from`. */
  function DetallesIssues(ds: seq<DetalleRepartoInput>, from: nat): seq<Issue> {
    if ds == [] then [] else DetalleIssues(ds[0], from) + DetallesIssues(ds[1..], from + 1)
  }

  /** Every issue of the stop list sits three steps deep: list, position, field. */
  lemma {:induction false} StopIssuesAreNested(ds: seq<DetalleRepartoInput>, from: nat)
    ensures AtDepth(DetallesIssues(ds, from), 3)
  {
    if ds != [] {
      var d := ds[0];
      var a, b, c, e := StopClientIssues(d, from), StopAmountIssues(d, from), StopNoteIssues(d, from), StopStatusIssues(d, from);
      Concat(a, b, [], StopsRequired, 3); Concat(a + b, c, [], StopsRequired, 3); Concat(a + b + c, e, [], StopsRequired, 3);
      StopIssuesAreNested(ds[1..], from + 1);
      Concat(DetalleIssues(d, from), DetallesIssues(ds[1..], from + 1), [], StopsRequired, 3);
    }
  }

  /** A stop with an issue makes the whole stop list report one. */
  lemma {:induction false} StopIssueSurfaces(ds: seq<DetalleRepartoInput>, from: nat, i: nat)
    requires i < |ds|
    ensures DetalleIssues(ds[i], from + i) != [] ==> DetallesIssues(ds, from) != []
    decreases i
  {
    var head, tail := DetalleIssues(ds[0], from), DetallesIssues(ds[1..], from + 1);
    assert DetallesIssues(ds, from) == head + tail;
    if i > 0 {
      StopIssueSurfaces(ds[1..], from + 1, i - 1);
      assert ds[1..][i - 1] == ds[i];
    }
  }

  /** A stop list whose every stop is clean reports nothing. */
  lemma {:induction false} CleanStopsReportNothing(ds: seq<DetalleRepartoInput>, from: nat)
    requires forall i :: 0 <= i < |ds| ==> DetalleIssues(ds[i], from + i) == []
    ensures DetallesIssues(ds, from) == []
  {
    if ds != [] {
      var rest := ds[1..];
      forall j | 0 <= j < |rest|
        ensures DetalleIssues(rest[j], from + 1 + j) == []
      {
        assert rest[j] == ds[j + 1];
      }
      CleanStopsReportNothing(rest, from + 1);
    }
  }

  // ---------------------------------------------------------------------
  // repartoSchema

  /**
   * A route submission. `tanda` is the text `String(v)` of whatever the form
   * holds, which the schema reads with `parseInt(_, 10)`; an absent stop
   * list is `None`.
   */
  datatype RepartoInput = RepartoInput(
    fechaReparto: string,
    repartidorId: string,
    clienteId: Option<string>,
    zonaId: string,
    tanda: string,
    estado: string,
    observaciones: Option<string>,
    detallesReparto: Option<seq<DetalleRepartoInput>>)

  /** The stop list after the schema's default: an absent list is empty. */
  function Detalles(r: RepartoInput): seq<DetalleRepartoInput> {
    r.detallesReparto.GetOr([])
  }

  /** The batch number: parsed as a base-10 integer, then at least 1. */
  function TandaIssues(t: string): (r: seq<Issue>)
    ensures r == [] <==> ParseInt10(t).Int? && ParseInt10(t).value >= 1
    ensures forall i | i in r :: i.path == [Key("tanda")]
  {
    match ParseInt10(t)
    case NaN => [Issue([Key("tanda")], ExpectedNumberReceivedNan)]
    case Int(v) => if v < 1 then [Issue([Key("tanda")], BatchBelowOne)] else []
  }

  /** A batch written as an integer is accepted exactly when it is at least 1. */
  lemma TandaOfInteger(n: int)
    ensures TandaIssues(IntString(n)) == [] <==> n >= 1
  {
    ParseIntRoundTrip(n);
  }

  /** `z.string().min(1, message)` on a required text field. */
  function NonEmptyIssues(s: string, key: string, message: Message): (r: seq<Issue>)
    ensures r == [] <==> s != ""
    ensures forall i | i in r :: i.path == [Key(key)]
  {
    if s == "" then [Issue([Key(key)], message)] else []
  }

  /** The issues of the route's scalar fields before `estado`. */
  function RepartoHeaderIssues(r: RepartoInput): (issues: seq<Issue>)
    ensures NoneAt(issues, [Key("detalles_reparto")])
  {
    var a := NonEmptyIssues(r.fechaReparto, "fecha_reparto", DateRequired);
    var b := if IsUuid(r.repartidorId) then [] else [Issue([Key("repartidor_id")], DriverInvalid)];
    var c := if r.clienteId.None? || IsUuid(r.clienteId.value) then [] else [Issue([Key("cliente_id")], PrincipalClientInvalid)];
    var d := NonEmptyIssues(r.zonaId, "zona_id", ZoneInvalid);
    var e := TandaIssues(r.tanda);
    var m, p, n := StopsRequired, [Key("detalles_reparto")], 0;
    Concat(a, b, p, m, n); Concat(a + b, c, p, m, n); Concat(a + b + c, d, p, m, n); Concat(a + b + c + d, e, p, m, n);
    a + b + c + d + e
  }

  /** `z.enum(ALL_REPARTO_STATUSES)` with its single message. */
  function EstadoIssues(estado: string): (r: seq<Issue>)
    ensures r == [] <==> estado in RouteStatusNames
    ensures r != [] ==> r == [Issue([Key("estado")], RouteStatusInvalid)]
  {
    if ParseRouteStatus(estado).Some? then [] else [Issue([Key("estado")], RouteStatusInvalid)]
  }

  function ObservacionesIssues(f: Option<string>): (r: seq<Issue>)
    ensures r == [] <==> (f.None? || |f.value| <= 500)
    ensures NoneAt(r, [Key("detalles_reparto")])
  {
    OptionalTextIssues(f, 500, [Key("observaciones")], NotesTooLong)
  }

  /** The issues of every field of the route, in field order. */
  function RepartoFieldIssues(r: RepartoInput): (issues: seq<Issue>)
    ensures NoneAt(issues, [Key("detalles_reparto")])
  {
    var a := RepartoHeaderIssues(r);
    var b := EstadoIssues(r.estado);
    var c := ObservacionesIssues(r.observaciones);
    var d := DetallesIssues(Detalles(r), 0);
    var m, p, n := StopsRequired, [Key("detalles_reparto")], 0;
    StopIssuesAreNested(Detalles(r), 0);
    Concat(a, b, p, m, n); Concat(a + b, c, p, m, n); Concat(a + b + c, d, p, m, n);
    a + b + c + d
  }

  /** The route aborts on a non-numeric batch, an unknown status, or an aborting stop. */
  predicate RepartoAborts(r: RepartoInput) {
    || ParseInt10(r.tanda).NaN?
    || ParseRouteStatus(r.estado).None?
    || exists i :: 0 <= i < |Detalles(r)| && DetalleAborts(Detalles(r)[i])
  }

  /** The route names a principal client (a non-empty `cliente_id`). */
  predicate HasPrincipalClient(r: RepartoInput) {
    Filled(r.clienteId)
  }

  /** The cross-field rule: a route with a principal client has at least one stop. */
  predicate StopsRuleHolds(r: RepartoInput) {
    HasPrincipalClient(r) ==> |Detalles(r)| > 0
  }

  /** The route form: field issues first, then the stops rule when the refine runs and fails. */
  function ValidateReparto(r: RepartoInput): (issues: seq<Issue>)
    ensures RepartoFieldIssues(r) <= issues
    ensures |issues| <= |RepartoFieldIssues(r)| + 1
  {
    RepartoFieldIssues(r)
    + (if !RepartoAborts(r) && !StopsRuleHolds(r) then [Issue([Key("detalles_reparto")], StopsRequired)] else [])
  }

  /** An aborting route always has a field issue, so the refine is never the only thing standing between it and acceptance. */
  lemma AbortsReportsIssue(r: RepartoInput)
    requires RepartoAborts(r)
    ensures RepartoFieldIssues(r) != []
  {
    if ParseInt10(r.tanda).NaN? {
      assert TandaIssues(r.tanda) != [];
    } else if ParseRouteStatus(r.estado).None? {
    } else {
      var i :| 0 <= i < |Detalles(r)| && DetalleAborts(Detalles(r)[i]);
      DetalleIssuesEmpty(Detalles(r)[i], i);
      StopIssueSurfaces(Detalles(r), 0, i);
    }
  }

  /** A route is accepted exactly when no field fails and the stops rule holds. */
  lemma RepartoAcceptedIff(r: RepartoInput)
    ensures ValidateReparto(r) == [] <==> RepartoFieldIssues(r) == [] && StopsRuleHolds(r)
  {
    if RepartoAborts(r) {
      AbortsReportsIssue(r);
    }
  }

  /**
   * A route with a principal client and no stops (absent or empty list) is
   * rejected; unless another field aborted the object, it carries exactly
   * one issue on the `detalles_reparto` path, and that issue is the
   * stops-required message.
   */
  lemma PrincipalClientNeedsStops(r: RepartoInput)
    requires HasPrincipalClient(r) && |Detalles(r)| == 0
    ensures ValidateReparto(r) != []
    ensures !RepartoAborts(r) ==>
      IssuesAt(ValidateReparto(r), [Key("detalles_reparto")]) == [Issue([Key("detalles_reparto")], StopsRequired)]
  {
    RepartoAcceptedIff(r);
    var p := [Key("detalles_reparto")];
    var tail := if !RepartoAborts(r) && !StopsRuleHolds(r) then [Issue(p, StopsRequired)] else [];
    IssuesAtConcat(RepartoFieldIssues(r), tail, p);
    IssuesAtNone(RepartoFieldIssues(r), p);
  }

  /**
   * A route without a principal client (none, or '') never reports the
   * stops rule, so an empty stop list is allowed.
   */
  lemma NoPrincipalClientAllowsNoStops(r: RepartoInput)
    requires !HasPrincipalClient(r)
    ensures IssuesAt(ValidateReparto(r), [Key("detalles_reparto")]) == []
    ensures RepartoFieldIssues(r) == [] ==> ValidateReparto(r) == []
  {
    IssuesAtNone(RepartoFieldIssues(r), [Key("detalles_reparto")]);
    IssuesAtConcat(RepartoFieldIssues(r), [], [Key("detalles_reparto")]);
  }

  /**
   * The route form's default status 'Asignado' is not a route status: a
   * submission that keeps it is rejected with the status issue.
   */
  lemma DefaultEstadoRejected(r: RepartoInput)
    requires r.estado == DefaultRepartoEstado
    ensures Issue([Key("estado")], RouteStatusInvalid) in ValidateReparto(r)
    ensures RepartoAborts(r)
  {
    var a := RepartoHeaderIssues(r);
    assert RepartoFieldIssues(r)[|a|] == Issue([Key("estado")], RouteStatusInvalid);
  }

  /** Every stop of an accepted route carries an amount that is null or at least 0. */
  lemma AcceptedAmountsAreNonNegative(r: RepartoInput, i: nat)
    requires ValidateReparto(r) == [] && i < |Detalles(r)|
    ensures NormalizedAmount(Detalles(r)[i].valorEntrega).Some? ==>
      NormalizedAmount(Detalles(r)[i].valorEntrega).value >= 0.0
  {
    RepartoAcceptedIff(r);
    var h := DetallesIssues(Detalles(r), 0);
    assert RepartoFieldIssues(r) == RepartoHeaderIssues(r) + EstadoIssues(r.estado) + ObservacionesIssues(r.observaciones) + h;
    assert h == [];
    StopIssueSurfaces(Detalles(r), 0, i);
    DetalleIssuesEmpty(Detalles(r)[i], i);
  }
}
