/** The Google Places Autocomplete proxy: the typed text is trimmed and cut
    before it is sent, short inputs are answered locally, and Google's
    suggestions are reduced to the four fields the form shows. Google's
    answer is a parameter. */
module PlacesAutocomplete {
  import opened Common

  const MAX_INPUT: nat := 200
  const MIN_INPUT: nat := 3

  /** `input.trim().slice(0, 200)`. */
  function SanitizeInput(input: string): (r: string)
    ensures |r| <= MAX_INPUT && |r| <= |Trim(input)|
    ensures r == Trim(input)[..|r|]
    ensures |Trim(input)| <= MAX_INPUT ==> r == Trim(input)
  {
    Take(Trim(input), MAX_INPUT)
  }

  /** A `placePrediction` of the answer; absent text fields are None. */
  datatype PlacePrediction = PlacePrediction(placeId: string, text: Option<string>, mainText: Option<string>,
                                             secondaryText: Option<string>)

  datatype Suggestion = Suggestion(placePrediction: Option<PlacePrediction>)

  /** What the front end receives per prediction. */
  datatype Prediction = Prediction(placeId: string, description: string, mainText: string, secondaryText: string)

  /** The `map` step: a missing or empty text becomes ''. */
  function Shape(p: PlacePrediction): (r: Prediction)
    ensures r.placeId == p.placeId
    ensures r.description == OrElse(p.text, Some("")).value
    ensures r.mainText == OrElse(p.mainText, Some("")).value
    ensures r.secondaryText == OrElse(p.secondaryText, Some("")).value
  {
    Prediction(p.placeId, p.text.GetOr(""), p.mainText.GetOr(""), p.secondaryText.GetOr(""))
  }

  /** The number of suggestions that carry a prediction. */
  function CountPredictions(ss: seq<Suggestion>): nat {
    if |ss| == 0 then 0
    else (if ss[0].placePrediction.Some? then 1 else 0) + CountPredictions(ss[1..])
  }

  /** `suggestions.filter(s => s.placePrediction).map(...)`. */
  function Predictions(ss: seq<Suggestion>): (r: seq<Prediction>)
    ensures |r| == CountPredictions(ss)
  {
    if |ss| == 0 then []
    else
      var rest := Predictions(ss[1..]);
      if ss[0].placePrediction.Some? then [Shape(ss[0].placePrediction.value)] + rest
      else rest
  }

  /** `p` is the shape of one of the suggestions' predictions. */
  predicate ShapedFrom(ss: seq<Suggestion>, p: Prediction) {
    exists j :: 0 <= j < |ss| && ss[j].placePrediction.Some? && p == Shape(ss[j].placePrediction.value)
  }

  /** Every prediction is the shape of one of the suggestions' predictions. */
  lemma {:induction false} PredictionsFromSuggestions(ss: seq<Suggestion>)
    ensures forall i :: 0 <= i < |Predictions(ss)| ==> ShapedFrom(ss, Predictions(ss)[i])
  {
    if |ss| > 0 {
      var rest := ss[1..];
      PredictionsFromSuggestions(rest);
      var r := Predictions(ss);
      forall i | 0 <= i < |r|
        ensures ShapedFrom(ss, r[i])
      {
        if ss[0].placePrediction.Some? && i == 0 {
          assert r[0] == Shape(ss[0].placePrediction.value);
        } else {
          var i' := if ss[0].placePrediction.Some? then i - 1 else i;
          assert r[i] == Predictions(rest)[i'];
          assert ShapedFrom(rest, Predictions(rest)[i']);
          var j :| 0 <= j < |rest| && rest[j].placePrediction.Some? && Predictions(rest)[i'] == Shape(rest[j].placePrediction.value);
          assert ss[j + 1] == rest[j];
        }
      }
    }
  }

  /** Filtering and shaping keep the original order: the predictions of two
      runs of suggestions are the two runs of predictions. */
  lemma {:induction false} PredictionsAppend(a: seq<Suggestion>, b: seq<Suggestion>)
    ensures Predictions(a + b) == Predictions(a) + Predictions(b)
  {
    if |a| > 0 {
      assert (a + b)[0] == a[0] && (a + b)[1..] == a[1..] + b;
      PredictionsAppend(a[1..], b);
    } else {
      assert a + b == b;
    }
  }

  /** When every suggestion carries a prediction, none is dropped and the
      i-th prediction comes from the i-th suggestion. */
  lemma {:induction false} PredictionsAllKept(ss: seq<Suggestion>)
    requires forall j :: 0 <= j < |ss| ==> ss[j].placePrediction.Some?
    ensures |Predictions(ss)| == |ss|
    ensures forall i :: 0 <= i < |ss| ==> Predictions(ss)[i] == Shape(ss[i].placePrediction.value)
  {
    if |ss| > 0 {
      var rest := ss[1..];
      assert forall j :: 0 <= j < |rest| ==> rest[j] == ss[j + 1];
      PredictionsAllKept(rest);
      var r := Predictions(ss);
      assert r == [Shape(ss[0].placePrediction.value)] + Predictions(rest);
      forall i | 0 <= i < |ss|
        ensures r[i] == Shape(ss[i].placePrediction.value)
      {
        if i > 0 {
          assert r[i] == Predictions(rest)[i - 1];
        }
      }
    }
  }

  /** The body sent to Google. */
  datatype AutocompleteRequest = AutocompleteRequest(input: string, sessionToken: Option<string>)

  datatype Reply = Reply(status: int, predictions: seq<Prediction>, request: Option<AutocompleteRequest>)

  /** `POST`: `bodyOk` is false when the body is not JSON; `google` is None
      when Google's response is not ok, and holds `data.suggestions`
      (None when absent) otherwise. */
  function Autocomplete(apiKey: bool, bodyOk: bool, input: Value, sessionToken: Value,
                        google: Option<Option<seq<Suggestion>>>): (r: Reply)
    ensures !apiKey ==> r == Reply(503, [], None)
    ensures apiKey && !bodyOk ==> r == Reply(500, [], None)
    ensures apiKey && bodyOk && !(input.Text? && input.s != "") ==> r == Reply(400, [], None)
    ensures (apiKey && bodyOk && input.Text? && input.s != "" && |SanitizeInput(input.s)| < MIN_INPUT) ==>
              r == Reply(200, [], None)
    ensures r.request.Some? <==>
              apiKey && bodyOk && input.Text? && input.s != "" && |SanitizeInput(input.s)| >= MIN_INPUT
    ensures r.request.Some? ==>
              r.request.value.input == SanitizeInput(input.s) &&
              (r.request.value.sessionToken.Some? <==> sessionToken.Text? && sessionToken.s != "") &&
              (r.request.value.sessionToken.Some? ==> r.request.value.sessionToken.value == sessionToken.s)
    ensures r.request.Some? && google.None? ==> r.status == 502 && r.predictions == []
    ensures r.request.Some? && google.Some? ==>
              r.status == 200 && r.predictions == Predictions(google.value.GetOr([]))
  {
    if !apiKey then Reply(503, [], None)
    else if !bodyOk then Reply(500, [], None)
    else if !(input.Text? && input.s != "") then Reply(400, [], None)
    else
      var q := SanitizeInput(input.s);
      if |q| < MIN_INPUT then Reply(200, [], None)
      else
        var token := if sessionToken.Text? && sessionToken.s != "" then Some(sessionToken.s) else None;
        var req := AutocompleteRequest(q, token);
        match google
        case None => Reply(502, [], Some(req))
        case Some(ss) => Reply(200, Predictions(ss.GetOr([])), Some(req))
  }
}
