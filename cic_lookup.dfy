/** `_checkSystemNotFound` and its one caller, the 404 branch of
    `getSystemByName`: a 404 either means that the system does not exist, or
    hides a network/communication error that the server reports inside the
    nested `details` list of the error body. */
module CicLookup {
  import opened PyJson

  /** How the first `try` block of `_checkSystemNotFound` ends: with
      `jsonDict["details"][0]["details"]` read, with an exception it catches
      (TypeError, ValueError, KeyError), or with one it does not. */
  datatype Probe = Proceed(details: seq<Json>) | Caught | Escaped(error: PyError)

  /** The first `try` block, on the body as `json.loads` decodes it (None:
      the body is not JSON, a ValueError). Indexing an empty list or an empty
      string with 0 raises IndexError, which the block does not catch; the
      other failures are caught. */
  function ProbeDetails(parsed: Option<Json>): (p: Probe)
    ensures p.Proceed? <==>
              && parsed.Some? && parsed.value.JObj? && "details" in parsed.value.fields
              && parsed.value.fields["details"].JList?
              && |parsed.value.fields["details"].items| > 0
              && parsed.value.fields["details"].items[0].JObj?
              && "details" in parsed.value.fields["details"].items[0].fields
    ensures p.Proceed? ==> p.details == parsed.value.fields["details"].items
    ensures p.Escaped? <==> parsed.Some? && parsed.value.JObj? && "details" in parsed.value.fields
                            && parsed.value.fields["details"] in [JList([]), JStr("")]
    ensures p.Escaped? ==> p.error == IndexError
  {
    match parsed
    case Some(JObj(top)) =>
      if "details" !in top then Caught
      else
        (match top["details"]
         case JList(ds) =>
           if ds == [] then Escaped(IndexError)
           else if ds[0].JObj? && "details" in ds[0].fields then Proceed(ds)
           else Caught
         case JStr(s) => if s == "" then Escaped(IndexError) else Caught
         case _ => Caught)
    case _ => Caught
  }

  /** One turn of the loop: `details[i]["details"]["error"]`, where only a
      KeyError is caught (and means: go on). */
  datatype Step = Continue | FoundError | StepRaises(error: PyError)

  function EntryStep(entry: Json): (s: Step)
    ensures s == FoundError <==> entry.JObj? && "details" in entry.fields && entry.fields["details"].JObj?
                                 && "error" in entry.fields["details"].fields
    ensures s.StepRaises? <==> !entry.JObj? || ("details" in entry.fields && !entry.fields["details"].JObj?)
    ensures s.StepRaises? ==> s.error == TypeError
  {
    match entry
    case JObj(m) =>
      if "details" !in m then Continue
      else
        (match m["details"]
         case JObj(inner) => if "error" in inner then FoundError else Continue
         case _ => StepRaises(TypeError))
    case _ => StepRaises(TypeError)
  }

  /** The position of the first entry on which the loop stops, or the number
      of entries if it runs to the end. */
  function FirstStop(ds: seq<Json>): (k: nat)
    ensures k <= |ds|
    ensures forall j :: 0 <= j < k ==> EntryStep(ds[j]) == Continue
    ensures k < |ds| ==> EntryStep(ds[k]) != Continue
  {
    if ds == [] || EntryStep(ds[0]) != Continue then 0
    else
      var k := FirstStop(ds[1..]);
      assert forall j :: 0 < j < k + 1 ==> ds[j] == ds[1..][j - 1];
      k + 1
  }

  /** What `_checkSystemNotFound(body)` returns or raises. */
  function NotFoundCheck(parsed: Option<Json>): (r: Result<bool, PyError>)
    ensures ProbeDetails(parsed).Caught? ==> r == Ok(false)
    ensures ProbeDetails(parsed).Escaped? ==> r == Err(IndexError)
    ensures ProbeDetails(parsed).Proceed? ==>
              var ds := ProbeDetails(parsed).details;
              && (r == Ok(true) <==> forall i :: 0 <= i < |ds| ==> EntryStep(ds[i]) == Continue)
              && (r == Ok(false) <==> exists k :: 0 <= k < |ds| && EntryStep(ds[k]) == FoundError
                                                 && forall j :: 0 <= j < k ==> EntryStep(ds[j]) == Continue)
              && (r == Err(TypeError) <==> exists k :: 0 <= k < |ds| && EntryStep(ds[k]).StepRaises?
                                                       && forall j :: 0 <= j < k ==> EntryStep(ds[j]) == Continue)
    ensures r.Err? ==> r.error in {IndexError, TypeError}
  {
    match ProbeDetails(parsed)
    case Caught => Ok(false)
    case Escaped(e) => Err(e)
    case Proceed(ds) =>
      var k := FirstStop(ds);
      if k == |ds| then Ok(true)
      else if EntryStep(ds[k]) == FoundError then Ok(false)
      else Err(TypeError)
  }

  /** A body with some error entry never reads as "genuinely absent"; it reads
      as a communication error unless an earlier entry makes the loop raise. */
  lemma ErrorEntryMeansNotAbsent(parsed: Option<Json>, k: nat)
    requires ProbeDetails(parsed).Proceed?
    requires k < |ProbeDetails(parsed).details| && EntryStep(ProbeDetails(parsed).details[k]) == FoundError
    ensures NotFoundCheck(parsed) != Ok(true)
    ensures (forall j :: 0 <= j < |ProbeDetails(parsed).details| ==>
               !EntryStep(ProbeDetails(parsed).details[j]).StepRaises?) ==> NotFoundCheck(parsed) == Ok(false)
  {
    var ds := ProbeDetails(parsed).details;
    var s := FirstStop(ds);
    assert s <= k;
  }

  /** `_checkSystemNotFound(body)`: the loop walks `details` by index and
      returns False at the first entry whose `details` dictionary has an
      `error` key; an entry that is no dictionary, or whose `details` is no
      dictionary, raises a TypeError out of the loop. */
  method CheckSystemNotFound(parsed: Option<Json>) returns (r: Result<bool, PyError>)
    ensures r == NotFoundCheck(parsed)
  {
    var probe := ProbeDetails(parsed);
    if probe.Caught? {
      return Ok(false);
    }
    if probe.Escaped? {
      return Err(probe.error);
    }
    var details := probe.details;
    var i := 0;
    while i < |details|
      invariant 0 <= i <= |details|
      invariant forall j :: 0 <= j < i ==> EntryStep(details[j]) == Continue
    {
      var entry := details[i];
      if !entry.JObj? {
        return Err(TypeError);
      }
      if "details" in entry.fields {
        var inner := entry.fields["details"];
        if !inner.JObj? {
          return Err(TypeError);
        }
        if "error" in inner.fields {
          return Ok(false);
        }
      }
      i := i + 1;
    }
    r := Ok(true);
  }

  /** The failures of `getSystemByName`: CIC_SYSTEM_NOT_FOUND_ERR,
      CIC_SYSTEM_COMMUNICATION_NETWORK_ERR, CIC_NO_ACCESS, any other HTTP
      error re-raised, or an exception out of the check itself. */
  datatype LookupFailure =
    | SystemNotFound
    | CommunicationError
    | NoAccess
    | HttpError(code: int)
    | Raised(error: PyError)

  /** The HTTP-error branch of `getSystemByName`. */
  method SystemByNameFailure(code: int, errorBody: Option<Json>) returns (f: LookupFailure)
    ensures code == 404 ==> (f == SystemNotFound <==> NotFoundCheck(errorBody) == Ok(true))
    ensures code == 404 ==> (f == CommunicationError <==> NotFoundCheck(errorBody) == Ok(false))
    ensures code == 404 && NotFoundCheck(errorBody).Err? ==> f == Raised(NotFoundCheck(errorBody).error)
    ensures code == 403 ==> f == NoAccess
    ensures code != 403 && code != 404 ==> f == HttpError(code)
  {
    if code == 404 {
      var flag := CheckSystemNotFound(errorBody);
      match flag
      case Ok(absent) => f := if absent then SystemNotFound else CommunicationError;
      case Err(e) => f := Raised(e);
    } else if code == 403 {
      f := NoAccess;
    } else {
      f := HttpError(code);
    }
  }
}
