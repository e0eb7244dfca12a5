/**
 * The body of the address-suggestion tool: guards on the API key and the
 * typed text, then the Places autocomplete answer filtered down to the
 * predictions in Mar del Plata, at most five of them. The HTTP request is
 * not modelled: its outcome is an input of the model.
 */
module AddressValidation {
  import opened Wrappers
  import opened Text
  import Schema

  /** One term of a prediction (a component of the place name). */
  datatype Term = Term(value: string)

  /** A prediction as the JSON answer carries it; either field may be missing. */
  datatype Prediction = Prediction(description: Option<string>, terms: Option<seq<Term>>)

  /** What the request produced: it threw, it answered with a non-OK HTTP status, or it gave a JSON body. */
  datatype PlacesResponse =
    | NetworkFailure
    | HttpError(httpStatus: int)
    | Body(status: string, errorMessage: Option<string>, predictions: Option<seq<Prediction>>)

  /** The tool's output: whether any Mar del Plata address was found, and the texts to suggest. */
  datatype ToolOutput = ToolOutput(isValid: bool, suggestions: seq<string>)

  const MarDelPlata: string := "mar del plata"
  const MaxSuggestions: nat := 5
  const MissingKeyMessage: string := "Error: API key para Google Maps no configurada."
  const HttpErrorMessage: string := "Error al obtener sugerencias."
  const ApiErrorMessage: string := "Error desde la API de Google."
  const NetworkErrorMessage: string := "Error de red o problema con la API."

  /**
   * The filter: a non-empty description that mentions Mar del Plata in any
   * case, or that comes with a term equal to it in any case.
   */
  predicate IsMarDelPlata(p: Prediction) {
    && p.description.Some? && p.description.value != ""
    && (|| Includes(Lower(p.description.value), MarDelPlata)
        || (p.terms.Some? && exists t | t in p.terms.value :: Lower(t.value) == MarDelPlata))
  }

  /** What one prediction contributes to the list: its description when it passes the filter. */
  function Kept(p: Prediction): (r: seq<string>)
    ensures |r| <= 1
  {
    if IsMarDelPlata(p) then [p.description.value] else []
  }

  /** `predictions.filter(IsMarDelPlata).map(p => p.description)` */
  function MdpDescriptions(ps: seq<Prediction>): (r: seq<string>)
    ensures |r| <= |ps|
  {
    if ps == [] then [] else Kept(ps[0]) + MdpDescriptions(ps[1..])
  }

  /** Filtering a concatenation filters each part: the kept predictions stay in their order. */
  lemma {:induction false} MdpConcat(a: seq<Prediction>, b: seq<Prediction>)
    ensures MdpDescriptions(a + b) == MdpDescriptions(a) + MdpDescriptions(b)
  {
    if a == [] {
      assert a + b == b;
    } else {
      var h := Kept(a[0]);
      assert (a + b)[0] == a[0] && (a + b)[1..] == a[1..] + b;
      MdpConcat(a[1..], b);
      assert h + (MdpDescriptions(a[1..]) + MdpDescriptions(b)) == (h + MdpDescriptions(a[1..])) + MdpDescriptions(b);
    }
  }

  /**
   * Every matching prediction contributes its description, every kept
   * description comes from a matching prediction, and nothing is kept
   * exactly when nothing matches.
   */
  lemma {:induction false} MdpKeepsMatches(ps: seq<Prediction>)
    ensures forall i :: 0 <= i < |ps| && IsMarDelPlata(ps[i]) ==> ps[i].description.value in MdpDescriptions(ps)
    ensures forall s | s in MdpDescriptions(ps) ::
      exists i :: 0 <= i < |ps| && IsMarDelPlata(ps[i]) && ps[i].description.value == s
    ensures MdpDescriptions(ps) == [] <==> forall i :: 0 <= i < |ps| ==> !IsMarDelPlata(ps[i])
  {
    if ps != [] {
      var tail := ps[1..];
      MdpKeepsMatches(tail);
      assert forall i :: 1 <= i < |ps| ==> ps[i] == tail[i - 1];
      forall s | s in MdpDescriptions(ps)
        ensures exists i :: 0 <= i < |ps| && IsMarDelPlata(ps[i]) && ps[i].description.value == s
      {
        if s !in MdpDescriptions(tail) {
          assert IsMarDelPlata(ps[0]) && ps[0].description.value == s;
        } else {
          var j :| 0 <= j < |tail| && IsMarDelPlata(tail[j]) && tail[j].description.value == s;
          assert ps[j + 1] == tail[j];
        }
      }
    }
  }

  /** `list.slice(0, n)` */
  function Take(s: seq<string>, n: nat): (r: seq<string>)
    ensures |r| <= n && r <= s
    ensures |s| <= n ==> r == s
  {
    if |s| <= n then s else s[..n]
  }

  /** The answer statuses that carry predictions. */
  predicate IsSuccessStatus(status: string) {
    status == "OK" || status == "ZERO_RESULTS"
  }

  /** The predictions of a body, an absent list read as empty (`data.predictions || []`). */
  function PredictionsOf(response: PlacesResponse): seq<Prediction>
    requires response.Body?
  {
    response.predictions.GetOr([])
  }

  /**
   * The tool body. The key is checked before the text; a text shorter than
   * three characters once trimmed makes no request, so `response` is not
   * looked at; `isValid` counts the matches before the list is cut to five.
   */
  function GeocodeAddress(apiKey: Option<string>, address: string, response: PlacesResponse): (out: ToolOutput)
    ensures !Schema.Filled(apiKey) ==> out == ToolOutput(false, [MissingKeyMessage])
    ensures Schema.Filled(apiKey) && |Trim(address)| < 3 ==> out == ToolOutput(false, [])
    ensures |out.suggestions| <= MaxSuggestions
    ensures out.isValid <==>
      && Schema.Filled(apiKey) && |Trim(address)| >= 3
      && response.Body? && IsSuccessStatus(response.status) && MdpDescriptions(PredictionsOf(response)) != []
  {
    if !Schema.Filled(apiKey) then ToolOutput(false, [MissingKeyMessage])
    else if address == "" || |Trim(address)| < 3 then ToolOutput(false, [])
    else match response
      case NetworkFailure => ToolOutput(false, [NetworkErrorMessage])
      case HttpError(_) => ToolOutput(false, [HttpErrorMessage])
      case Body(status, errorMessage, predictions) =>
        if !IsSuccessStatus(status) then
          ToolOutput(false, [if errorMessage.Some? && errorMessage.value != "" then errorMessage.value else ApiErrorMessage])
        else
          var mdp := MdpDescriptions(predictions.GetOr([]));
          ToolOutput(|mdp| > 0, Take(mdp, MaxSuggestions))
  }

  /** When a guard stops the tool, the answer does not depend on the response: no request is made. */
  lemma GuardsMakeNoRequest(apiKey: Option<string>, address: string, r1: PlacesResponse, r2: PlacesResponse)
    requires !Schema.Filled(apiKey) || |Trim(address)| < 3
    ensures GeocodeAddress(apiKey, address, r1) == GeocodeAddress(apiKey, address, r2)
  {
  }

  /** A missing key is reported even for a text too short to look up. */
  lemma KeyCheckedFirst(address: string, response: PlacesResponse)
    requires |Trim(address)| < 3
    ensures GeocodeAddress(None, address, response).suggestions == [MissingKeyMessage]
  {
  }

  /** Each failure gives one message and no valid address. */
  lemma FailuresGiveOneMessage(apiKey: string, address: string, response: PlacesResponse)
    requires apiKey != "" && |Trim(address)| >= 3
    requires !response.Body? || !IsSuccessStatus(response.status)
    ensures !GeocodeAddress(Some(apiKey), address, response).isValid
    ensures response.NetworkFailure? ==> GeocodeAddress(Some(apiKey), address, response).suggestions == [NetworkErrorMessage]
    ensures response.HttpError? ==> GeocodeAddress(Some(apiKey), address, response).suggestions == [HttpErrorMessage]
    ensures response.Body? ==> |GeocodeAddress(Some(apiKey), address, response).suggestions| == 1
    ensures response.Body? && response.errorMessage.None? ==>
      GeocodeAddress(Some(apiKey), address, response).suggestions == [ApiErrorMessage]
  {
  }

  /**
   * A successful answer: the address is valid exactly when some prediction
   * is in Mar del Plata, and the suggestions are the first five matching
   * descriptions, in the order of the answer.
   */
  lemma SuccessfulAnswer(apiKey: string, address: string, response: PlacesResponse)
    requires apiKey != "" && |Trim(address)| >= 3
    requires response.Body? && IsSuccessStatus(response.status)
    ensures var out := GeocodeAddress(Some(apiKey), address, response);
      var ps := PredictionsOf(response);
      && (out.isValid <==> exists i :: 0 <= i < |ps| && IsMarDelPlata(ps[i]))
      && out.suggestions == Take(MdpDescriptions(ps), MaxSuggestions)
  {
    MdpKeepsMatches(PredictionsOf(response));
  }

  /** "ZERO_RESULTS", or an answer without predictions, gives no valid address and no suggestion. */
  lemma NothingFound(apiKey: string, address: string, errorMessage: Option<string>, predictions: Option<seq<Prediction>>)
    requires apiKey != "" && |Trim(address)| >= 3
    requires predictions.None? || predictions == Some([])
    ensures GeocodeAddress(Some(apiKey), address, Body("ZERO_RESULTS", errorMessage, predictions)) == ToolOutput(false, [])
    ensures GeocodeAddress(Some(apiKey), address, Body("OK", errorMessage, predictions)) == ToolOutput(false, [])
  {
  }
}
