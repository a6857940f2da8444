/** `HelperObject`: status evaluation and the two string helpers. */
module CicHelpers {
  import opened PyJson

  predicate StartsWith(text: string, prefix: string) {
    |prefix| <= |text| && text[..|prefix|] == prefix
  }

  /** `removePrefix(text, prefix)`, written as `text[text.startswith(prefix) and len(prefix):]`:
      a slice from `len(prefix)` when the prefix is there, from `False`, that is 0, when not. */
  function RemovePrefix(text: string, prefix: string): (r: string)
    ensures StartsWith(text, prefix) ==> prefix + r == text
    ensures !StartsWith(text, prefix) ==> r == text
  {
    var start := if StartsWith(text, prefix) then |prefix| else 0;
    text[start..]
  }

  /** Removing a prefix undoes prepending it. */
  lemma RemovePrefixOfPrepended(prefix: string, s: string)
    ensures RemovePrefix(prefix + s, prefix) == s
  {
    assert (prefix + s)[..|prefix|] == prefix;
  }

  /** The host prefix `getCloudhost` strips: "https://" + name + hcpAccount + ".". */
  function CloudPrefix(name: string, hcpAccount: string): string {
    "https://" + name + hcpAccount + "."
  }

  /** `getCloudhost(systemObject)`: the root URL without the system's own
      host prefix. The prefix is built first ("name", then "hcpAccount", each
      concatenated as it is read), so a missing or non-string name wins over
      a missing account; then `rootUrl.startswith` needs a string. */
  function GetCloudhost(system: Json): (r: Result<string, PyError>)
    ensures !system.JObj? ==> r == Err(TypeError)
    ensures r.Ok? <==> system.JObj? && (forall key :: key in ["name", "hcpAccount", "rootUrl"] ==>
                                          key in system.fields && system.fields[key].JStr?)
    ensures r.Ok? ==> var f := system.fields;
                      var prefix := CloudPrefix(f["name"].s, f["hcpAccount"].s);
                      if StartsWith(f["rootUrl"].s, prefix) then prefix + r.value == f["rootUrl"].s
                      else r.value == f["rootUrl"].s
    ensures system.JObj? && "name" !in system.fields ==> r == Err(KeyError)
    ensures system.JObj? && "name" in system.fields && !system.fields["name"].JStr? ==> r == Err(TypeError)
    ensures (system.JObj? && "name" in system.fields && system.fields["name"].JStr?
             && "hcpAccount" !in system.fields) ==> r == Err(KeyError)
    ensures (system.JObj? && "name" in system.fields && system.fields["name"].JStr?
             && "hcpAccount" in system.fields && !system.fields["hcpAccount"].JStr?) ==> r == Err(TypeError)
    ensures (system.JObj? && (forall key :: key in ["name", "hcpAccount"] ==>
                                key in system.fields && system.fields[key].JStr?)
             && "rootUrl" !in system.fields) ==> r == Err(KeyError)
    ensures (system.JObj? && (forall key :: key in ["name", "hcpAccount"] ==>
                                key in system.fields && system.fields[key].JStr?)
             && "rootUrl" in system.fields && !system.fields["rootUrl"].JStr?) ==> r == Err(AttributeError)
  {
    match system
    case JObj(f) =>
      if "name" !in f then Err(KeyError)
      else if !f["name"].JStr? then Err(TypeError)
      else if "hcpAccount" !in f then Err(KeyError)
      else if !f["hcpAccount"].JStr? then Err(TypeError)
      else if "rootUrl" !in f then Err(KeyError)
      else if !f["rootUrl"].JStr? then Err(AttributeError)
      else Ok(RemovePrefix(f["rootUrl"].s, CloudPrefix(f["name"].s, f["hcpAccount"].s)))
    case _ => Err(TypeError)
  }

  /** For a system whose root URL is its own host prefix followed by the
      cloud host, the cloud host is recovered exactly. */
  lemma CloudhostRecovered(name: string, hcpAccount: string, host: string, rest: map<string, Json>)
    ensures GetCloudhost(JObj(rest["name" := JStr(name)]["hcpAccount" := JStr(hcpAccount)]
                                   ["rootUrl" := JStr(CloudPrefix(name, hcpAccount) + host)]))
            == Ok(host)
  {
    RemovePrefixOfPrepended(CloudPrefix(name, hcpAccount), host);
  }

  /** What `_evaluateHttpConnStatus` gives back: `False` when there is no
      response object, else the decoded body. */
  datatype ConnStatus = NoResponse | Decoded(body: Json)

  /** Its two failures: CIC_INVALID_UUID_ERR and CIC_UNHANDLED_ERR. */
  datatype StatusFailure = InvalidUuid(status: Json) | Unhandled(status: Json) | Raised(error: PyError)

  /** `_evaluateHttpConnStatus(statusCode, response)` AS WRITTEN. The status
      is whatever Python value the caller passes; 200, 201 and 202 are
      accepted, and the invalid-UUID failure is chosen by `statusCode == "500"`,
      a comparison with a string. `response` is None for "no response
      object", Some(None) for a body that is not JSON. The opening debug line
      formats the status, which raises for non-ASCII text. */
  function EvaluateHttpConnStatus(status: Json, response: Option<Option<Json>>): (r: Result<ConnStatus, StatusFailure>)
    ensures r.Ok? <==> status in [JInt(200), JInt(201), JInt(202)] && response != Some(None)
    ensures r == Ok(NoResponse) <==> status in [JInt(200), JInt(201), JInt(202)] && response.None?
    ensures r.Ok? && response.Some? ==> r.value == Decoded(response.value.value)
    ensures status in [JInt(200), JInt(201), JInt(202)] && response == Some(None) ==> r == Err(Raised(ValueError))
    ensures r == Err(InvalidUuid(status)) <==> status == JStr("500")
    ensures NotAsciiText(status) ==> r == Err(Raised(UnicodeEncodeError))
    ensures status !in [JInt(200), JInt(201), JInt(202)] && status != JStr("500") && !NotAsciiText(status) ==>
              r == Err(Unhandled(status))
  {
    if NotAsciiText(status) then
      Err(Raised(UnicodeEncodeError))
    else if status in [JInt(200), JInt(201), JInt(202)] then
      match response
      case None => Ok(NoResponse)
      case Some(None) => Err(Raised(ValueError))
      case Some(Some(body)) => Ok(Decoded(body))
    else if status == JStr("500") then
      Err(InvalidUuid(status))
    else
      Err(Unhandled(status))
  }

  /** The status passed in is `response.getcode()`, an int; an int never equals
      the string "500", so status 500 is reported as unhandled. */
  lemma StatusFiveHundredIsUnhandled(response: Option<Option<Json>>)
    ensures EvaluateHttpConnStatus(JInt(500), response) == Err(Unhandled(JInt(500)))
  {
  }

  /** The evaluation as evidently intended: the status is the int from
      `getcode()` and 500 is reported as an invalid UUID. */
  function EvaluateHttpStatus(status: int, response: Option<Option<Json>>): (r: Result<ConnStatus, StatusFailure>)
    ensures r.Ok? <==> status in {200, 201, 202} && response != Some(None)
    ensures r == Ok(NoResponse) <==> status in {200, 201, 202} && response.None?
    ensures r.Ok? && response.Some? ==> r.value == Decoded(response.value.value)
    ensures status in {200, 201, 202} && response == Some(None) ==> r == Err(Raised(ValueError))
    ensures r == Err(InvalidUuid(JInt(status))) <==> status == 500
    ensures r == Err(Unhandled(JInt(status))) <==> status !in {200, 201, 202, 500}
  {
    if status in {200, 201, 202} then
      match response
      case None => Ok(NoResponse)
      case Some(None) => Err(Raised(ValueError))
      case Some(Some(body)) => Ok(Decoded(body))
    else if status == 500 then
      Err(InvalidUuid(JInt(status)))
    else
      Err(Unhandled(JInt(status)))
  }

  /** Away from 500 the intended evaluation agrees with the code as written. */
  lemma IntendedAgreesAwayFromFiveHundred(status: int, response: Option<Option<Json>>)
    requires status != 500
    ensures EvaluateHttpStatus(status, response) == EvaluateHttpConnStatus(JInt(status), response)
  {
  }
}
