/**
 * The parameter handling of the fingerprint generation script: the decoded
 * `--params` JSON is checked for the required keys, in order, and
 * `browserVersion` is defaulted; the stdin path defaults without checking.
 * Decoding itself, loading the model and generating are outside the model:
 * the decoder's result is an argument and `Generate` carries the parameters
 * the model would be called with.
 */
module GenerateCli {
  import opened Wrappers
  import opened Json
  import opened Text

  const RequiredParams: seq<string> := ["country", "os", "browser"]
  const VersionKey: string := "browserVersion"
  const DefaultVersion: string := "120"

  /** How a run ends. */
  datatype Outcome =
    | InvalidJson           // the decoder failed: exit 1 before the model is loaded
    | MissingParam(name: string)  // a required key is absent: exit 1, naming it
    | TypeError             // `in` or item assignment is not defined on the decoded value
    | Generate(params: Json)      // the model is loaded and called with these parameters

  /**
   * Python's `key in params` on a decoded value: a key of an object, an
   * element of an array, a substring of a string; on other values it raises
   * (None).
   */
  function HasKey(params: Json, key: string): Option<bool> {
    match params
    case JObj(f) => Some(key in f)
    case JArr(items) => Some(JStr(key) in items)
    case JStr(s) => Some(Contains(s, key))
    case _ => None
  }

  /** The result of the required-key loop. */
  datatype Check = AllPresent | Missing(name: string) | Raised

  /** The required-key loop as a function of the keys still to check. */
  function CheckRequired(params: Json, keys: seq<string>): Check
    decreases |keys|
  {
    if keys == [] then AllPresent
    else match HasKey(params, keys[0])
      case None => Raised
      case Some(false) => Missing(keys[0])
      case Some(true) => CheckRequired(params, keys[1..])
  }

  /**
   * `if 'browserVersion' not in params: params['browserVersion'] = '120'`:
   * only an object can take the assignment, so an array or string lacking the
   * key raises, as does a value `in` is not defined on.
   */
  function WithDefaultVersion(params: Json): Option<Json> {
    match HasKey(params, VersionKey)
    case None => None
    case Some(true) => Some(params)
    case Some(false) =>
      if params.JObj? then Some(JObj(params.fields[VersionKey := JStr(DefaultVersion)])) else None
  }

  function Defaulted(params: Json): Outcome {
    match WithDefaultVersion(params)
    case None => TypeError
    case Some(p) => Generate(p)
  }

  /** What `main` does with the decoder's result. */
  function MainOutcome(parsed: Option<Json>): Outcome {
    match parsed
    case None => InvalidJson
    case Some(params) =>
      match CheckRequired(params, RequiredParams)
      case Raised => TypeError
      case Missing(k) => MissingParam(k)
      case AllPresent => Defaulted(params)
  }

  /** What the stdin path does: the same default, no required-key check. */
  function StdinOutcome(parsed: Option<Json>): Outcome {
    match parsed
    case None => InvalidJson
    case Some(params) => Defaulted(params)
  }

  /** `main`: the loop over the required keys with its early exits, then the default. */
  method RunWithParams(parsed: Option<Json>) returns (o: Outcome)
    ensures o == MainOutcome(parsed)
  {
    if parsed.None? {
      return InvalidJson;
    }
    var params := parsed.value;
    for i := 0 to |RequiredParams|
      invariant CheckRequired(params, RequiredParams) == CheckRequired(params, RequiredParams[i..])
    {
      var present := HasKey(params, RequiredParams[i]);
      if present.None? {
        return TypeError;
      }
      if !present.value {
        return MissingParam(RequiredParams[i]);
      }
      assert RequiredParams[i..][1..] == RequiredParams[i + 1..];
    }
    var withVersion := WithDefaultVersion(params);
    if withVersion.None? {
      return TypeError;
    }
    return Generate(withVersion.value);
  }

  /** The stdin path of the script. */
  method RunFromStdin(parsed: Option<Json>) returns (o: Outcome)
    ensures o == StdinOutcome(parsed)
  {
    if parsed.None? {
      return InvalidJson;
    }
    var withVersion := WithDefaultVersion(parsed.value);
    if withVersion.None? {
      return TypeError;
    }
    return Generate(withVersion.value);
  }

  /**
   * The loop reports the first missing key: it is one of the keys, it is
   * absent, and every key before it is present.
   */
  lemma {:induction false} CheckRequiredFindsFirstMissing(fields: map<string, Json>, keys: seq<string>)
    ensures CheckRequired(JObj(fields), keys) != Raised
    ensures CheckRequired(JObj(fields), keys) == AllPresent <==> forall k :: k in keys ==> k in fields
    ensures CheckRequired(JObj(fields), keys).Missing? ==>
              exists i :: 0 <= i < |keys| && keys[i] == CheckRequired(JObj(fields), keys).name
                          && keys[i] !in fields && forall j :: 0 <= j < i ==> keys[j] in fields
    decreases |keys|
  {
    if keys != [] {
      CheckRequiredFindsFirstMissing(fields, keys[1..]);
      if keys[0] in fields && CheckRequired(JObj(fields), keys[1..]).Missing? {
        var i :| 0 <= i < |keys[1..]| && keys[1..][i] == CheckRequired(JObj(fields), keys[1..]).name
                 && keys[1..][i] !in fields && forall j :: 0 <= j < i ==> keys[1..][j] in fields;
        assert keys[i + 1] == keys[1..][i];
        forall j | 0 <= j < i + 1
          ensures keys[j] in fields
        {
          if j > 0 {
            assert keys[j] == keys[1..][j - 1];
          }
        }
      }
    }
  }

  /** A decoding failure ends the run before anything else, on both paths. */
  lemma InvalidJsonStopsEarly()
    ensures MainOutcome(None) == InvalidJson && StdinOutcome(None) == InvalidJson
  {
  }

  /**
   * The default is added only when the key is absent, a present version is
   * kept, and no other key changes.
   */
  lemma DefaultOnlyWhenAbsent(fields: map<string, Json>)
    ensures WithDefaultVersion(JObj(fields)).Some?
    ensures var r := WithDefaultVersion(JObj(fields)).value;
            && r.JObj?
            && (VersionKey in fields ==> r == JObj(fields))
            && (VersionKey !in fields ==> VersionKey in r.fields && r.fields[VersionKey] == JStr(DefaultVersion))
            && (forall k :: k != VersionKey ==> (k in r.fields <==> k in fields))
            && (forall k :: k != VersionKey && k in fields ==> r.fields[k] == fields[k])
  {
  }

  /**
   * `main` on an object: a missing required key is reported, the first one
   * in order; with all three present the parameters are the defaulted object.
   */
  lemma MainOnObject(fields: map<string, Json>)
    ensures MainOutcome(Some(JObj(fields))) != TypeError
    ensures MainOutcome(Some(JObj(fields))).MissingParam? <==> exists k :: k in RequiredParams && k !in fields
    ensures MainOutcome(Some(JObj(fields))).Generate? ==>
              MainOutcome(Some(JObj(fields))) == StdinOutcome(Some(JObj(fields)))
  {
    CheckRequiredFindsFirstMissing(fields, RequiredParams);
    DefaultOnlyWhenAbsent(fields);
  }

  /** The stdin path generates from any object, even one lacking every required key. */
  lemma StdinSkipsRequiredCheck(fields: map<string, Json>)
    ensures StdinOutcome(Some(JObj(fields))).Generate?
    ensures (forall k :: k in RequiredParams ==> k !in fields) ==> StdinOutcome(Some(JObj(fields))) != MainOutcome(Some(JObj(fields)))
  {
    DefaultOnlyWhenAbsent(fields);
    CheckRequiredFindsFirstMissing(fields, RequiredParams);
    if forall k :: k in RequiredParams ==> k !in fields {
      assert RequiredParams[0] in RequiredParams;
    }
  }
}
