# Delivery route planner: a Dafny model of its core rules

Gestiorumbo plans delivery routes ("repartos") for a courier in Mar del Plata. A planner builds a route for a driver ("repartidor"). A route may name a principal client. Its stops ("detalles de reparto") are the recurring drop-off points ("clientes de reparto") of that client. The driver works through the stops on a phone. The server-side services that store routes are not part of this model. What it covers is the logic that runs around them:

- **Vocabulary** (`types.dfy`, module `Types`): the two five-valued status enumerations, the route, stop and drop-off point records, and the defaults the datastore applies to insert rows.
- **Input contracts** (`schema.dfy`, module `Schema`): the client, driver, drop-off point, stop and route schemas. Each is a function from a form value to the list of issues the validator reports, as a path plus a message. An empty list means the value is accepted. Two behaviours of the validator library are modelled:
  - a failing length, pattern or minimum check records its issue and parsing goes on, so a cross-field rule still runs;
  - a value that is not a number, or is outside an enumeration, aborts the object, and the cross-field rule is skipped.

  `MessageText` gives the exact text of every message.
- **Time windows** (`time_window.dfy`, module `TimeWindow`): `parseRangoHorario`, which reads a stored window text into the form's two bounds by an ordered cascade of rules. Also the values the drop-off point form starts from.
- **Route form** (`reparto_form.dfy`, module `RepartoForm`): the list of selected drop-off ids and the loading and submitting flags. The form state is a class whose methods are the form's handlers. The selection list is specified by functions and lemmas on sequences.
- **Route report** (`report.dfy`, module `Report`): the stop count, the total to collect as a fold proved equal to a reference sum, the "N/A" rule and the case-insensitive status badge.
- **Driver task card** (`task_card.dfy`, module `TaskCard`): the status changes the card offers, modelled as a transition relation; the status labels and badges; the "amount to collect" line; and the flag that disables the buttons while an update runs.
- **Address suggestions** (`address_validation.dfy`, module `AddressValidation`): the body of the address tool, from its guards through the Mar del Plata filter to the cut to five suggestions. The HTTP outcome is an input.
- **Helpers** (`text.dfy`, module `Text`, and `wrappers.dfy`): the JavaScript string operations the core relies on (trim, lower-case, split, includes, indexOf, `parseInt(_, 10)`, string `<`), specified and related by lemmas.

The model shows one disagreement between parts of the system. The route form opens a new route with status 'Asignado', which is also the datastore's column default. 'Asignado' is not one of the five route statuses, so the route schema rejects it (`Schema.DefaultEstadoRejected`, `RepartoForm.NewRouteStatusIsRejected`). The report shows it with the neutral outline badge (`Report.DefaultEstadoShowsOutline`).

## Model

| member | source | states |
|---|---|---|
| Text.Trim | src/components/clientes-reparto/DeliveryClientInfoForm.tsx:31 | the trimmed text has no leading or trailing whitespace and is no longer than the input |
| Text.TrimCutsEdges | src/components/clientes-reparto/DeliveryClientInfoForm.tsx:31 | the trimmed text is the piece of the input that starts after its leading whitespace, and every character outside that piece is whitespace |
| Text.TrimIdentity | src/components/clientes-reparto/DeliveryClientInfoForm.tsx:31 | trimming a text without edge whitespace gives it back unchanged |
| Text.Lower | src/components/repartos/RepartoReportView.tsx:48 | lower-casing keeps the length and lowers every character in place |
| Text.LowerIdempotent | src/components/repartos/RepartoReportView.tsx:48 | a lower-cased text is lower case, lower-casing twice is lower-casing once, and a lower-case text is left alone |
| Text.IndexOf | src/components/clientes-reparto/DeliveryClientInfoForm.tsx:29 | the result is the first occurrence at or after the start position, or -1 exactly when there is none |
| Text.IncludesIff | src/ai/flows/address-validation.ts:80 | `includes` holds exactly when `indexOf` finds the text, and exactly when some occurrence exists |
| Text.Split | src/components/clientes-reparto/DeliveryClientInfoForm.tsx:29 | splitting gives at least one piece, and no piece, the last included, contains the separator |
| Text.JoinSplit | src/components/clientes-reparto/DeliveryClientInfoForm.tsx:29 | joining the pieces of a split with the separator gives the text back |
| Text.SplitWithout | src/components/clientes-reparto/DeliveryClientInfoForm.tsx:29 | a text without the separator splits into itself alone |
| Text.SplitPair | src/components/clientes-reparto/DeliveryClientInfoForm.tsx:29-30 | `a + sep + b` splits into exactly `[a, b]` when the first separator is the middle one and `b` holds none |
| Text.ParseIntRoundTrip | src/lib/schema.ts:65 | `parseInt(_, 10)` reads back the decimal text of every integer (the text `String(i)` gives below 10^21) |
| Text.ParseInt10 | src/lib/schema.ts:65 | no contract of its own: optional leading whitespace and sign, then the longest run of digits, NaN when there is none; `Text.ParseIntRoundTrip` and `Schema.TandaOfInteger` state its behaviour |
| Text.LexLess | src/lib/schema.ts:39 | no contract of its own: JavaScript's `<` on strings, a proper prefix or a smaller character at the first difference; `Schema.LexLessIsEarlierTime` relates it to time order |
| Types.ParseStopStatus | src/types/index.ts:56-57 | a text is a stop status exactly when it is one of the five names, and the status read is written back as that name |
| Types.StopStatusesAreFive | src/types/index.ts:56-57 | every stop status has its name in the list, reads back to itself, and the list holds five distinct names |
| Types.ParseRouteStatus | src/types/index.ts:84-85 | a text is a route status exactly when it is one of the five names ("en curso" with a space), and it reads back |
| Types.RouteStatusesAreFive | src/types/index.ts:84-85 | every route status has its name in the list, reads back to itself, and the list holds five distinct names |
| Types.StoredDetalle | src/types/index.ts:211-221 | a stored stop keeps the route, the drop-off point and the required status of its insert row; an omitted visit order becomes 0 |
| Types.StoredRepartoEstado | src/types/index.ts:274-285 | an omitted `estado` is stored as 'Asignado'; a given one, null included, is stored as given |
| Types.DefaultEstadoIsNotARouteStatus | src/types/index.ts:282 | a route inserted without `estado` stores 'Asignado', which is not a route status |
| Schema.RequiredTextIssues | src/lib/schema.ts:7-8 | a required text is accepted exactly when its length is between 1 and its maximum; every issue is on that field with one of its two messages |
| Schema.OptionalTextIssues | src/lib/schema.ts:9 | an optional text is accepted exactly when it is absent or within its maximum; every issue carries the field's path and message |
| Schema.OrEmpty | src/components/clientes-reparto/DeliveryClientInfoForm.tsx:56 | the empty-text fallback gives the text when present and '' when absent |
| Schema.Preprocess | src/lib/schema.ts:33 | '', null and undefined become null; any other value is the number `parseFloat` read |
| Schema.AmountIssues | src/lib/schema.ts:32-35 | at most one issue, on the amount's own path, with its type or its minimum message |
| Schema.AmountRule | src/lib/schema.ts:32-35 | '', null and undefined are accepted as null; a number is accepted exactly when it is at least 0 and is then kept; NaN reports the type message |
| Schema.IsTimeOfDay | src/lib/schema.ts:24 | no contract of its own: the time pattern as five characters, an hour 00-23, a colon and a minute 00-59; `Schema.TimeOfDayRoundTrip` and `Schema.TimeOfDayIsFormatted` show it accepts exactly the zero-padded times of one day |
| Schema.TimeOfDayRoundTrip | src/lib/schema.ts:24 | every hour below 24 and minute below 60 has a zero-padded text that matches the pattern and reads back to the same hour and minute |
| Schema.TimeOfDayIsFormatted | src/lib/schema.ts:24 | every text that matches the pattern is the zero-padded form of its own hour and minute |
| Schema.LexLessIsEarlierTime | src/lib/schema.ts:39 | on valid times the string order `<` is the (hour, minute) order |
| Schema.TimeOrderIsMinuteOrder | src/lib/schema.ts:39 | on valid times `desde <= hasta` as strings holds exactly when `desde` is not later in minutes since midnight |
| Schema.TimeFieldIssues | src/lib/schema.ts:30-31 | a time field is accepted exactly when it is absent, empty or HH:MM with hour 00-23 and minute 00-59; otherwise its one issue is the format message on that field |
| Schema.ValidateClient | src/lib/schema.ts:6-11 | a client is accepted exactly when name and address have 1-100 and 1-200 characters, the phone is within 20, and a filled e-mail matches and is within 100 |
| Schema.ValidateRepartidor | src/lib/schema.ts:15-20 | a driver is accepted exactly when the name has 1-100 characters and identification, phone and vehicle are within 50, 20 and 100 |
| Schema.FieldIssuesNeverMentionOrder | src/lib/schema.ts:26-43 | no field check of a drop-off point reports the window-order message; only the cross-field rule does |
| Schema.MissingClientAndName | src/lib/schema.ts:27-28 | a point with no principal client and no name reports both the client issue and the name issue |
| Schema.ValidateDeliveryClientInfo | src/lib/schema.ts:26-45 | a drop-off point is accepted exactly when every field check passes and, if both bounds are filled, `desde <= hasta` |
| Schema.WindowRule | src/lib/schema.ts:37-45 | with either bound empty the order rule passes; the order issue, on `rango_horario_hasta`, is reported exactly when both bounds are filled, nothing aborted, and `hasta < desde` |
| Schema.WindowAcceptedIffMinutesOrdered | src/lib/schema.ts:37-41 | a point with valid other fields and two valid times is accepted exactly when `desde` is not later than `hasta` in minutes |
| Schema.StopClientIssues | src/lib/schema.ts:49 | a stop's drop-off reference is accepted exactly when it is not empty; its issues sit at list, position and field |
| Schema.StopAmountIssues | src/lib/schema.ts:50-53 | a stop's amount is accepted exactly when it is empty or null, or a number at least 0 |
| Schema.StopNoteIssues | src/lib/schema.ts:54 | a stop's note is accepted exactly when it is absent or within 500 characters |
| Schema.StopStatusIssues | src/lib/schema.ts:55 | a stop's status is accepted exactly when it is absent or one of the five stop statuses |
| Schema.DetalleIssuesEmpty | src/lib/schema.ts:48-56 | a stop is clean exactly when each of its four fields passes its own check |
| Schema.StopIssuesAreNested | src/lib/schema.ts:70 | every issue of the stop list sits three steps deep: list, position, field |
| Schema.StopIssueSurfaces | src/lib/schema.ts:70 | a stop with an issue makes the stop list report an issue |
| Schema.CleanStopsReportNothing | src/lib/schema.ts:70 | a stop list whose stops are all clean reports nothing |
| Schema.TandaIssues | src/lib/schema.ts:64-67 | the batch is accepted exactly when `parseInt(_, 10)` reads an integer of at least 1; its issues sit on `tanda` |
| Schema.TandaOfInteger | src/lib/schema.ts:64-67 | a batch given as an integer is accepted exactly when it is at least 1 |
| Schema.NonEmptyIssues | src/lib/schema.ts:63 | a required text with only a minimum is accepted exactly when it is not empty; its issues sit on that field |
| Schema.RepartoHeaderIssues | src/lib/schema.ts:60-67 | no issue of the date, driver, client, zone or batch sits on `detalles_reparto` |
| Schema.EstadoIssues | src/lib/schema.ts:68 | the route status is accepted exactly when it is one of the five route statuses; otherwise its one issue is the status message on `estado` |
| Schema.ObservacionesIssues | src/lib/schema.ts:69 | the notes are accepted exactly when absent or within 500 characters |
| Schema.RepartoFieldIssues | src/lib/schema.ts:59-70 | no field check of a route reports on `detalles_reparto` itself |
| Schema.ValidateReparto | src/lib/schema.ts:59-79 | the field issues come first and at most one issue follows them; `Schema.RepartoAcceptedIff` and `Schema.PrincipalClientNeedsStops` state when the route is accepted |
| Schema.AbortsReportsIssue | src/lib/schema.ts:59-70 | a route that aborts (NaN batch, unknown status, aborting stop) always has a field issue |
| Schema.RepartoAcceptedIff | src/lib/schema.ts:59-79 | a route is accepted exactly when every field check passes and a route with a principal client has at least one stop |
| Schema.PrincipalClientNeedsStops | src/lib/schema.ts:71-79 | a route with a principal client and no stops is rejected; unless it aborted, exactly one issue sits on `detalles_reparto`: the stops-required message |
| Schema.NoPrincipalClientAllowsNoStops | src/lib/schema.ts:71-75 | without a principal client, absent or '', nothing is reported on `detalles_reparto`, and valid fields are enough |
| Schema.DefaultEstadoRejected | src/lib/schema.ts:68 | a route submitted with status 'Asignado' reports the status issue and aborts |
| Schema.AcceptedAmountsAreNonNegative | src/lib/schema.ts:50-53 | every stop of an accepted route carries an amount that is null or at least 0 |
| TimeWindow.StartsWithIgnoringCaseIsLowerPrefix | src/components/clientes-reparto/DeliveryClientInfoForm.tsx:34 | the character-wise prefix test is `toLowerCase().startsWith(prefix)` |
| TimeWindow.ParseRangoHorario | src/components/clientes-reparto/DeliveryClientInfoForm.tsx:27-42 | no contract of its own: the ordered cascade (split, "desde ", "hasta ", nothing); the four rule lemmas below state each case |
| TimeWindow.ParseGivesTrimmedBounds | src/components/clientes-reparto/DeliveryClientInfoForm.tsx:27-42 | both bounds always come out trimmed; null or empty gives two empty bounds; a non-empty bound needs the split rule or a prefix |
| TimeWindow.SplitRule | src/components/clientes-reparto/DeliveryClientInfoForm.tsx:29-32 | with exactly two pieces the text is those pieces joined around the separator, neither piece contains the separator, and the bounds are the trimmed pieces |
| TimeWindow.DesdeRule | src/components/clientes-reparto/DeliveryClientInfoForm.tsx:34-36 | otherwise a "desde " prefix in any case fills only `desde`, with the trimmed rest of the text |
| TimeWindow.HastaRule | src/components/clientes-reparto/DeliveryClientInfoForm.tsx:37-39 | otherwise a "hasta " prefix in any case fills only `hasta`, with the trimmed rest of the text |
| TimeWindow.FallbackRule | src/components/clientes-reparto/DeliveryClientInfoForm.tsx:41 | any other text gives two empty bounds |
| TimeWindow.SplitTakesPriority | src/components/clientes-reparto/DeliveryClientInfoForm.tsx:29-36 | "desde 08:00 - 10:00" reads as `desde` "desde 08:00" and `hasta` "10:00" |
| TimeWindow.TwoSeparatorsDefeatSplit | src/components/clientes-reparto/DeliveryClientInfoForm.tsx:29-41 | with two separators the text splits into three or more pieces, so only a prefix can fill a bound |
| TimeWindow.ThreeTimesGiveNothing | src/components/clientes-reparto/DeliveryClientInfoForm.tsx:29-41 | "08:00 - 09:00 - 10:00" gives two empty bounds |
| TimeWindow.RoundTrip | src/components/clientes-reparto/DeliveryClientInfoForm.tsx:29-32 | bounds with no separator, no edge whitespace and a `desde` not ending in " -" are read back from `desde - hasta` |
| TimeWindow.RoundTripNeedsNoTrailingDash | src/components/clientes-reparto/DeliveryClientInfoForm.tsx:29-32 | "x -" and "y" are written as "x - - y" and read back as "x" and "- y" |
| TimeWindow.TimesRoundTrip | src/components/clientes-reparto/DeliveryClientInfoForm.tsx:29-32 | two valid times are read back exactly from their window text, and both pass the time-format check |
| TimeWindow.DefaultFormValues | src/components/clientes-reparto/DeliveryClientInfoForm.tsx:49-61 | a new point starts with every text empty and the tariff undefined |
| TimeWindow.StoredPointDefaults | src/components/clientes-reparto/DeliveryClientInfoForm.tsx:49-60 | an edited point starts from the parsed window, its client and name, '' for a null address or phone, and a tariff that keeps its value and null through preprocessing |
| TimeWindow.NewPointFormIsIncomplete | src/components/clientes-reparto/DeliveryClientInfoForm.tsx:53-61 | the empty form of a new point is rejected for its missing client and name |
| RepartoForm.Without | src/components/repartos/RepartoForm.tsx:251-255 | unchecking keeps exactly the ids other than the one unchecked, and never lengthens the list |
| RepartoForm.WithoutConcat | src/components/repartos/RepartoForm.tsx:251-255 | filtering distributes over concatenation, so the remaining ids keep their relative order |
| RepartoForm.WithoutCounts | src/components/repartos/RepartoForm.tsx:251-255 | unchecking removes every copy of the id and keeps the count of every other id |
| RepartoForm.WithoutAbsent | src/components/repartos/RepartoForm.tsx:251-255 | unchecking an id that is not in the list changes nothing |
| RepartoForm.WithoutIdempotent | src/components/repartos/RepartoForm.tsx:251-255 | unchecking twice is unchecking once |
| RepartoForm.Toggled | src/components/repartos/RepartoForm.tsx:249-255 | after a checkbox change the id is in the list exactly when it was checked; every other id keeps its membership |
| RepartoForm.CheckThenUncheck | src/components/repartos/RepartoForm.tsx:249-255 | checking an unchecked id and unchecking it again gives back the original list |
| RepartoForm.CheckAppends | src/components/repartos/RepartoForm.tsx:249-250 | checking keeps the earlier ids in place and puts the id last, once more than before |
| RepartoForm.InitialEstado | src/components/repartos/RepartoForm.tsx:42 | the starting status is never empty, and a new route starts with 'Asignado' |
| RepartoForm.RestoredSelection | src/components/repartos/RepartoForm.tsx:59-61 | after loading, the selection is the route's own assignment when the client is the route's client, and empty otherwise |
| RepartoForm.RepartoFormState.constructor | src/components/repartos/RepartoForm.tsx:30-43 | the form opens with the route's client (or ''), its assigned ids, its status (or 'Asignado'), no points and both flags off |
| RepartoForm.RepartoFormState.SetChecked | src/components/repartos/RepartoForm.tsx:247-255 | the selection becomes the toggled list, the box shows as asked, no other box changes, and nothing else in the form changes |
| RepartoForm.RepartoFormState.SelectClient | src/components/repartos/RepartoForm.tsx:203-206 | choosing a principal client sets it and empties the selection, and nothing else changes |
| RepartoForm.RepartoFormState.StartFetch | src/components/repartos/RepartoForm.tsx:48-54 | with no client, both lists are emptied; otherwise loading starts and the lists stay |
| RepartoForm.RepartoFormState.Reset | src/components/repartos/RepartoForm.tsx:84-106 | the reset puts the client, the selection and the status back to the values of the route being edited, or to the empty ones for a new route, whose offered points are emptied too; the flags stay |
| RepartoForm.RepartoFormState.FinishFetch | src/components/repartos/RepartoForm.tsx:55-70 | on success the points are offered and the selection is restored only for the route's own client; on failure both lists are emptied; loading stops either way |
| RepartoForm.RepartoFormState.BeginSubmit | src/components/repartos/RepartoForm.tsx:110 | submitting disables the submit button and changes nothing else |
| RepartoForm.RepartoFormState.EndSubmit | src/components/repartos/RepartoForm.tsx:143 | after submitting, the button is disabled exactly while a chosen client's points are loading |
| RepartoForm.ReloadOwnClient | src/components/repartos/RepartoForm.tsx:73-95 | opening the form runs the client effect, then the reset effect: a route edited with its own client keeps its assignment when the reload succeeds and ends with nothing selected when it fails; a route edited without a client keeps its assignment, as no load follows the reset; a new route ends with nothing selected |
| RepartoForm.NewRouteStatusIsRejected | src/components/repartos/RepartoForm.tsx:42 | a route submitted with the form's starting status for a new route reports the status issue |
| Report.TotalParadas | src/components/repartos/RepartoReportView.tsx:64 | the stop count is the length of the stop list, and 0 exactly when the list is absent or empty |
| Report.ValorTotal | src/components/repartos/RepartoReportView.tsx:65 | no contract of its own: the fold from 0, or 0 for an absent list; `Report.TotalIsSum` and `Report.TotalAppend` state what it computes |
| Report.ReduceIsSum | src/components/repartos/RepartoReportView.tsx:65 | the fold from an accumulator adds the sum of the amounts, a missing amount counting 0 |
| Report.SumAppend | src/components/repartos/RepartoReportView.tsx:65 | the sum over two lists joined is the sum of their sums |
| Report.TotalIsSum | src/components/repartos/RepartoReportView.tsx:65 | the report's total is the sum of the amounts, with missing amounts and an absent list as 0 |
| Report.TotalAppend | src/components/repartos/RepartoReportView.tsx:65 | appending one stop adds its amount, or 0, to the total |
| Report.TotalBounds | src/components/repartos/RepartoReportView.tsx:65 | with no negative amount the total is not negative and is at least each amount |
| Report.StopNumber | src/components/repartos/RepartoReportView.tsx:126 | no contract of its own: the visit order plus one; `Report.OmittedOrderShowsAsOne` ties it to the insert default |
| Report.OmittedOrderShowsAsOne | src/components/repartos/RepartoReportView.tsx:126 | a stop inserted without a visit order is shown as number 1 |
| Report.FormatCurrency | src/components/repartos/RepartoReportView.tsx:42-45 | "N/A" exactly for a missing amount; any present amount, 0 included, is formatted as itself |
| Report.TotalIsAlwaysFormatted | src/components/repartos/RepartoReportView.tsx:96 | the summary shows the total as an amount in pesos, never "N/A" |
| Report.StatusVariant | src/components/repartos/RepartoReportView.tsx:47-56 | null gives the outline badge; a text whose lower-case form is a route status gets that status's badge; anything else gets the outline |
| Report.StatusVariantIgnoresCase | src/components/repartos/RepartoReportView.tsx:48 | a status and its lower-case form get the same badge |
| Report.RouteStatusesGetTheirBadges | src/components/repartos/RepartoReportView.tsx:49-53 | each route status gets its own badge, not the outline, and the five badges differ |
| Report.OutlineOtherwise | src/components/repartos/RepartoReportView.tsx:47-56 | a badge other than the outline appears exactly for the route statuses, in any case |
| Report.DefaultEstadoShowsOutline | src/components/repartos/RepartoReportView.tsx:54 | a route stored with 'Asignado' shows the outline badge |
| TaskCard.AllowedNext | src/components/mobile-dashboard/MobileTaskCard.tsx:74-107 | no contract of its own: the transition relation, `pendiente` to `en_camino` and `en_camino` to `entregado` or `no_entregado`; `TaskCard.Offered` is proved to offer exactly its steps |
| TaskCard.Offered | src/components/mobile-dashboard/MobileTaskCard.tsx:74-107 | a status change is offered exactly when the stored status is a stop status and the change is an allowed step from it |
| TaskCard.OfferedByStatus | src/components/mobile-dashboard/MobileTaskCard.tsx:74-107 | `pendiente` offers only `en_camino`; `en_camino` offers `entregado` and `no_entregado`; exactly the finished and cancelled statuses offer nothing |
| TaskCard.NeverBackNorCancelled | src/components/mobile-dashboard/MobileTaskCard.tsx:74-107 | no offered change targets `pendiente` or `cancelado` |
| TaskCard.StepRaisesRank | src/components/mobile-dashboard/MobileTaskCard.tsx:74-107 | every offered change moves one step along pending, on the way, finished |
| TaskCard.PathRank | src/components/mobile-dashboard/MobileTaskCard.tsx:74-107 | along any chain of offered changes the rank (pending 0, on the way 1, finished 2) grows by one per change, so a chain from a status of rank k holds at most 3 - k statuses |
| TaskCard.PendingFinishesInTwoSteps | src/components/mobile-dashboard/MobileTaskCard.tsx:74-107 | from `pendiente`, a chain of offered changes ends within two changes, and two changes end in a finished status |
| TaskCard.StatusText | src/components/mobile-dashboard/MobileTaskCard.tsx:32-41 | a stop status gets its label; anything else, or none, gets 'Desconocido' |
| TaskCard.LabelsAreDistinct | src/components/mobile-dashboard/MobileTaskCard.tsx:32-41 | the five labels differ from one another and from 'Desconocido', and each status's name shows its label |
| TaskCard.StatusBadgeVariant | src/components/mobile-dashboard/MobileTaskCard.tsx:21-30 | a stop status gets its badge (`en_camino` the "en curso" badge, `no_entregado` the destructive one); anything else gets the outline |
| TaskCard.BadgesAreDistinct | src/components/mobile-dashboard/MobileTaskCard.tsx:21-30 | the five stop statuses get five different badges, none of them the outline |
| TaskCard.AmountLineAgreesWithReport | src/components/mobile-dashboard/MobileTaskCard.tsx:138 | a shown amount is positive, formatted by the report and counted in its total; an amount of 0 is hidden on the card but formatted in the report |
| TaskCard.ActionButtons | src/components/mobile-dashboard/MobileTaskCard.tsx:74-107 | a status with no change shows no buttons; otherwise navigation comes first, then one button per offered change, enabled only when no update is running |
| TaskCard.TaskCardState.constructor | src/components/mobile-dashboard/MobileTaskCard.tsx:45 | the card starts with no update running |
| TaskCard.TaskCardState.StartStatusUpdate | src/components/mobile-dashboard/MobileTaskCard.tsx:57-58 | once an update starts, no status button can be pressed |
| TaskCard.TaskCardState.FinishStatusUpdate | src/components/mobile-dashboard/MobileTaskCard.tsx:69-71 | once the update ends, whatever its outcome, exactly the offered changes can be pressed again |
| AddressValidation.IsMarDelPlata | src/ai/flows/address-validation.ts:78-81 | no contract of its own: a non-empty description that contains "mar del plata" in any case, or a term equal to it in any case; `AddressValidation.MdpKeepsMatches` states that the filter keeps exactly these |
| AddressValidation.MdpDescriptions | src/ai/flows/address-validation.ts:77-83 | the filter never keeps more descriptions than there are predictions |
| AddressValidation.MdpConcat | src/ai/flows/address-validation.ts:77-83 | filtering a concatenation filters each part, so the kept descriptions stay in the order of the answer |
| AddressValidation.MdpKeepsMatches | src/ai/flows/address-validation.ts:77-83 | every matching prediction contributes its description, every kept description comes from a match, and nothing is kept exactly when nothing matches |
| AddressValidation.Take | src/ai/flows/address-validation.ts:87 | `slice(0, n)` gives a prefix of at most `n` items, and the whole list when it is short enough |
| AddressValidation.GeocodeAddress | src/ai/flows/address-validation.ts:44-94 | a missing key gives one error message; a trimmed text under 3 characters gives nothing; never more than 5 suggestions; valid exactly when the guards pass, the answer is successful and some prediction matches |
| AddressValidation.GuardsMakeNoRequest | src/ai/flows/address-validation.ts:45-53 | when the key or length guard stops the tool, its answer does not depend on the request's outcome |
| AddressValidation.KeyCheckedFirst | src/ai/flows/address-validation.ts:45-53 | a missing key is reported even for a text too short to look up |
| AddressValidation.FailuresGiveOneMessage | src/ai/flows/address-validation.ts:62-93 | a network failure, an HTTP error or a failed API status gives no valid address and exactly one message, the default one when the API gives none |
| AddressValidation.SuccessfulAnswer | src/ai/flows/address-validation.ts:77-88 | on a successful answer the address is valid exactly when some prediction matches, and the suggestions are the first five matching descriptions |
| AddressValidation.NothingFound | src/ai/flows/address-validation.ts:77-88 | "ZERO_RESULTS", or an answer with no predictions, gives no valid address and no suggestion |

## Left out

- The server actions (`src/app/actions.ts`) and the route, stop and driver-task services the screens import are not part of this model. They are datastore I/O, and the route services' source is not available.
- Submitting the route form end to end is not modelled: the form sends a selection list that the route schema does not describe. The selection list and the schema are modelled separately.
- The status select of the route form lists `repartoEstados`, which `src/lib/schema.ts` does not export. What it offers is not modelled.
- The remaining effects of the route form are modelled only through `RepartoForm.ReloadOwnClient` (open the form, run the client effect and then the reset effect, in declaration order). Their re-runs after later changes and races between overlapping loads with different outcomes are not modelled: both loads in that method end with the same outcome.
- The loaded drop-off points, the HTTP outcome of the address tool and the API key are inputs of the model. Fetching, timers, toasts, navigation and `console` logging are left out.
- The LLM flow that wraps the address tool is left out. Its output is a model call, not a function of the tool's answer.
- Date formatting, `Intl.NumberFormat`, `toFixed` and `parseFloat` are left out. Amounts are `real` numbers, and a numeric form value arrives already read, as NaN or a finite number. The formatted amount is modelled as a `Pesos(amount)` value, not as text.
- Report.ValorTotal: a stored NaN amount cannot be represented, so the `|| 0` applied to a NaN total is not modelled.
- Report.StopNumber: `orden_visita + 1` is exact integer addition, with no float rounding.
- Schema.ValidateClient: the e-mail pattern of the validator library is a parameter (`isEmail`), not a definition.
- Schema.IsUuid: only the 8-4-4-4-12 hexadecimal layout is checked. The validator library's version and variant digits are not checked.
- Text.ParseInt10: reads arbitrarily long digit strings exactly, where JavaScript loses precision above 2^53.
- Text.ParseIntRoundTrip: holds for the decimal text of an integer. For integers of 10^21 or more in magnitude, JavaScript's `String(i)` writes an exponent ("1e+21"), and `parseInt` then reads a different number. That case is not modelled.
- Schema.TandaIssues: a batch text of 310 or more digits makes `parseInt` return Infinity, which the integer check rejects. The model reads it as a large integer and accepts it.
- Text.Lower: lowers ASCII letters only. The lower-cased texts themselves are arbitrary: prediction descriptions and terms from the address service, and stored route statuses. What is ASCII are the texts they are compared with: "mar del plata", "desde ", "hasta " and the five route status names. Only two non-ASCII characters lower-case into ASCII letters: U+212A becomes 'k', which none of those texts contains, and U+0130 becomes 'i' followed by a combining dot, which can never match them. So ASCII lower-casing gives the same comparison results.
- Lengths are counted in Unicode characters, where JavaScript counts UTF-16 code units. The two differ for characters outside the Basic Multilingual Plane.
- Text.LexLess: compares code points, where JavaScript's `<` compares UTF-16 code units. The two disagree when a character outside the Basic Multilingual Plane meets one at or above U+E000. They agree on valid HH:MM times, the only texts the window rule's result depends on for acceptance.
- Non-string values where a text is expected, such as a number passed as `rango_horario`, are excluded by the model's types. So are the type errors the validator would report for them.
- A term whose `value` is not a text would make the address filter throw, and the tool would then report the network message. Terms are texts in this model.
- TimeWindow.RoundTrip: needs one condition beyond "no separator and no edge whitespace": `desde` must not end in " -". `TimeWindow.RoundTripNeedsNoTrailingDash` shows the counterexample. Stored windows are written from HH:MM times, which always meet the condition (`TimeWindow.TimesRoundTrip`).
- `clientes_reparto_asignados` is read by the route form but is not a declared field of the route type. The model takes it as an optional input (`RepartoForm.RouteToEdit.asignados`).
- Presentation components, list pages and the duplicated status maps of other screens are left out.
