/**
  `DiagnosisResponse` and its tolerant decoder (derm_dx/Models/DiagnosisResponse.swift).
  The decoder reads a JSON value that the platform's JSON parser already
  produced; the two numeric fields accept a number or a numeric string and
  default to 0.0, and only the class label can make decoding throw.
*/
module Models {
  import opened Wrappers

  /** A parsed JSON value. */
  datatype Json =
    | JNull
    | JBool(b: bool)
    | JNumber(n: real)
    | JString(s: string)
    | JArray(items: seq<Json>)
    | JObject(fields: map<string, Json>)

  /** The decoded response; `predictedClass` is the Swift field `class`. */
  datatype DiagnosisResponse = DiagnosisResponse(prediction: real, predictedClass: string, confidence: real)

  /** The cases of Swift's `DecodingError` that this decoder can raise;
      `NullTopLevel` is the value-not-found error of a top-level `null`,
      `NotAnObject` the type mismatch of any other top level that is not an
      object, `DataCorrupted` a body that is not JSON at all. */
  datatype DecodeError =
    | DataCorrupted
    | NullTopLevel
    | NotAnObject
    | KeyNotFound(key: string)
    | ValueNotFound(key: string)
    | TypeMismatch(key: string)

  const PredictionKey: string := "prediction"
  const ClassKey: string := "class"
  const ConfidenceKey: string := "confidence"

  /** `container.decode(Float.self, forKey: key)`: only a JSON number is a Float. */
  function DecodeFloat(fields: map<string, Json>, key: string): (r: Result<real, DecodeError>)
    ensures r.Success? <==> key in fields && fields[key].JNumber?
    ensures r.Success? ==> r.value == fields[key].n
    ensures r.Failure? ==> r.error == MissingOrMismatched(fields, key)
  {
    if key !in fields then Failure(KeyNotFound(key))
    else match fields[key]
      case JNumber(n) => Success(n)
      case JNull => Failure(ValueNotFound(key))
      case _ => Failure(TypeMismatch(key))
  }

  /** `container.decode(String.self, forKey: key)`: only a JSON string is a String. */
  function DecodeString(fields: map<string, Json>, key: string): (r: Result<string, DecodeError>)
    ensures r.Success? <==> key in fields && fields[key].JString?
    ensures r.Success? ==> r.value == fields[key].s
    ensures r.Failure? ==> r.error == MissingOrMismatched(fields, key)
  {
    if key !in fields then Failure(KeyNotFound(key))
    else match fields[key]
      case JString(s) => Success(s)
      case JNull => Failure(ValueNotFound(key))
      case _ => Failure(TypeMismatch(key))
  }

  /** The error a keyed decode raises when the value is absent or of another type. */
  function MissingOrMismatched(fields: map<string, Json>, key: string): DecodeError {
    if key !in fields then KeyNotFound(key)
    else if fields[key].JNull? then ValueNotFound(key)
    else TypeMismatch(key)
  }

  /** The tolerant rule for `prediction` and `confidence`: the number if the
      value is a number, else the parse of the string if the value is a
      string that `parseFloat` (Swift's `Float(String)`) accepts, else 0.0. */
  function TolerantFloat(fields: map<string, Json>, key: string, parseFloat: string -> Option<real>): (r: real)
    ensures key in fields && fields[key].JNumber? ==> r == fields[key].n
    ensures key in fields && fields[key].JString? && parseFloat(fields[key].s).Some? ==>
              r == parseFloat(fields[key].s).value
    ensures !(key in fields && (fields[key].JNumber? || (fields[key].JString? && parseFloat(fields[key].s).Some?))) ==>
              r == 0.0
  {
    match DecodeFloat(fields, key)
    case Success(n) => n
    case Failure(_) =>
      match DecodeString(fields, key)
      case Success(s) =>
        (match parseFloat(s)
         case Some(x) => x
         case None => 0.0)
      case Failure(_) => 0.0
  }

  /** `DiagnosisResponse.init(from:)`. */
  function Decode(json: Json, parseFloat: string -> Option<real>): (r: Result<DiagnosisResponse, DecodeError>)
    ensures r.Success? <==> json.JObject? && ClassKey in json.fields && json.fields[ClassKey].JString?
    ensures r.Success? ==>
              && r.value.predictedClass == json.fields[ClassKey].s
              && r.value.prediction == TolerantFloat(json.fields, PredictionKey, parseFloat)
              && r.value.confidence == TolerantFloat(json.fields, ConfidenceKey, parseFloat)
    ensures r.Failure? ==>
              r.error == if json.JObject? then MissingOrMismatched(json.fields, ClassKey)
                         else if json.JNull? then NullTopLevel
                         else NotAnObject
  {
    if json.JNull? then Failure(NullTopLevel)
    else if !json.JObject? then Failure(NotAnObject)
    else
      var fields := json.fields;
      var prediction := TolerantFloat(fields, PredictionKey, parseFloat);
      match DecodeString(fields, ClassKey)
      case Failure(e) => Failure(e)
      case Success(predictedClass) =>
        var confidence := TolerantFloat(fields, ConfidenceKey, parseFloat);
        Success(DiagnosisResponse(prediction, predictedClass, confidence))
  }

  /** A numeric field sent as a string that parses to `x` decodes exactly as
      the same field sent as the number `x`. */
  lemma StringFormDecodesLikeNumber(fields: map<string, Json>, key: string, s: string, x: real,
                                    parseFloat: string -> Option<real>)
    requires key == PredictionKey || key == ConfidenceKey
    requires parseFloat(s) == Some(x)
    ensures Decode(JObject(fields[key := JString(s)]), parseFloat) ==
            Decode(JObject(fields[key := JNumber(x)]), parseFloat)
  {
    var withString := fields[key := JString(s)];
    var withNumber := fields[key := JNumber(x)];
    assert TolerantFloat(withString, key, parseFloat) == x == TolerantFloat(withNumber, key, parseFloat);
  }

  /** Whatever `prediction` and `confidence` hold, or whether they are there
      at all, decoding succeeds or fails exactly as it would without them. */
  lemma NumericFieldsNeverFail(fields: map<string, Json>, prediction: Option<Json>, confidence: Option<Json>,
                               parseFloat: string -> Option<real>)
    ensures Decode(JObject(WithField(WithField(fields, PredictionKey, prediction), ConfidenceKey, confidence)), parseFloat).Success? ==
            Decode(JObject(fields), parseFloat).Success?
  {
    assert ClassKey != PredictionKey && ClassKey != ConfidenceKey;
  }

  /** `fields` with `key` set to `v`, or removed when `v` is `None`. */
  function WithField(fields: map<string, Json>, key: string, v: Option<Json>): map<string, Json> {
    match v
    case Some(j) => fields[key := j]
    case None => fields - {key}
  }

  /** `confidence` is resolved independently of `prediction`: changing the
      one leaves the decoded other field and the label as they were. */
  lemma FieldsResolvedIndependently(fields: map<string, Json>, prediction: Json, parseFloat: string -> Option<real>)
    requires Decode(JObject(fields), parseFloat).Success?
    ensures var before := Decode(JObject(fields), parseFloat).value;
            var after := Decode(JObject(fields[PredictionKey := prediction]), parseFloat);
            && after.Success?
            && after.value.confidence == before.confidence
            && after.value.predictedClass == before.predictedClass
  {
    assert ClassKey != PredictionKey && ConfidenceKey != PredictionKey;
  }
}
