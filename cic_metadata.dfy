/** Metadata updates of `CicDaO`: the PATCH payloads, the check of the
    server's echo (`_validateResponse`) and how its return code becomes the
    result or the failure of `changeTenantMetadata`, `changeSystemMetadata`
    and `changeMultiFieldsTenantMetadata`. The record read before the update
    and the server's reply are inputs. */
module CicMetadata {
  import opened PyJson
  import opened CicHttp

  /** The return codes of `_validateResponse`: 0, 1, 2 and 3. */
  datatype Rc = Matched | EmptyValue | NotWritten | Mismatch

  function RcCode(rc: Rc): int {
    match rc
    case Matched => 0
    case EmptyValue => 1
    case NotWritten => 2
    case Mismatch => 3
  }

  /** The debug line that opens `_validateResponse` formats the echo and the
      value into a byte string before anything else is done; this is what it
      needs. Parameter names are byte strings and print as they are. */
  predicate Loggable(echo: Json, value: Json) {
    !NotAsciiText(echo) && !NotAsciiText(value)
  }

  /** `_validateResponse(returnDict, parameter, value)`. After the debug line,
      an empty intended value is accepted before the echo is looked at;
      otherwise the parameter must be a key of the echo (a KeyError gives 2;
      an echo that is no dictionary raises TypeError, which is not caught),
      and its value must have the same `str()` as the intended one. */
  function ValidateResponse(echo: Json, parameter: string, value: Json): (r: Result<Rc, PyError>)
    ensures !Loggable(echo, value) ==> r == Err(UnicodeEncodeError)
    ensures Loggable(echo, value) && value == JStr("") ==> r == Ok(EmptyValue)
    ensures Loggable(echo, value) && value != JStr("") && !echo.JObj? ==> r == Err(TypeError)
    ensures Loggable(echo, value) && value != JStr("") && echo.JObj? && parameter !in echo.fields ==> r == Ok(NotWritten)
    ensures Loggable(echo, value) && value != JStr("") && echo.JObj? && parameter in echo.fields ==>
              (r == Ok(Matched) <==> StrEquals(echo.fields[parameter], value) == Ok(true))
              && (r == Ok(Mismatch) <==> StrEquals(echo.fields[parameter], value) == Ok(false))
              && (r.Err? <==> StrEquals(echo.fields[parameter], value).Err?)
    ensures r == Ok(Mismatch) ==> echo.JObj? && parameter in echo.fields
    ensures r.Err? ==> r.error in {UnicodeEncodeError, TypeError}
  {
    if !Loggable(echo, value) then
      Err(UnicodeEncodeError)
    else if value == JStr("") then
      Ok(EmptyValue)
    else
      match echo
      case JObj(fields) =>
        if parameter !in fields then Ok(NotWritten)
        else
          (match StrEquals(fields[parameter], value)
           case Ok(same) => Ok(if same then Matched else Mismatch)
           case Err(e) => Err(e))
      case _ => Err(TypeError)
  }

  /** Non-ASCII text raises even where the value or the echo would otherwise
      not be looked at: an empty-looking check, or an echo without the field. */
  lemma ValidateRaisesEagerly(fields: map<string, Json>, parameter: string, text: string)
    requires !IsAscii(text)
    ensures ValidateResponse(JObj(fields), parameter, JStr(text)) == Err(UnicodeEncodeError)
    ensures ValidateResponse(JStr(text), parameter, JStr("")) == Err(UnicodeEncodeError)
  {
  }

  /** An echoed string is accepted exactly when it is the intended string. */
  lemma ValidateStringEcho(fields: map<string, Json>, parameter: string, sent: string)
    requires sent != "" && IsAscii(sent)
    requires parameter in fields && fields[parameter].JStr? && IsAscii(fields[parameter].s)
    ensures ValidateResponse(JObj(fields), parameter, JStr(sent))
            == Ok(if fields[parameter].s == sent then Matched else Mismatch)
  {
  }

  /** An echoed integer is accepted exactly when it is the intended integer. */
  lemma ValidateIntEcho(fields: map<string, Json>, parameter: string, sent: int)
    requires parameter in fields && fields[parameter].JInt?
    ensures ValidateResponse(JObj(fields), parameter, JInt(sent))
            == Ok(if fields[parameter].i == sent then Matched else Mismatch)
  {
    StrEqualsInts(fields[parameter].i, sent);
  }

  /** The comparison is on `str()`: an integer echoed for the string of its
      digits is accepted, while JSON `true` echoed for "true" is a mismatch,
      since Python prints it "True". */
  lemma ValidateComparesText(fields: map<string, Json>, parameter: string, n: int)
    requires parameter in fields
    ensures fields[parameter] == JInt(n) ==>
              ValidateResponse(JObj(fields), parameter, JStr(IntText(n))) == Ok(Matched)
    ensures fields[parameter] == JBool(true) ==>
              ValidateResponse(JObj(fields), parameter, JStr("true")) == Ok(Mismatch)
  {
    if fields[parameter] == JInt(n) {
      StrEqualsIntText(n);
      assert IntText(n) != "";
    }
    if fields[parameter] == JBool(true) {
      assert "True" != "true" by { assert "True"[0] != "true"[0]; }
    }
  }

  /** The failures surfaced by the updates, in place of the CIC_* tags:
      CIC_NO_ACCESS, *_METADATA_UPDATE_ERR, *_NOTWRITE, *_MISMATCH, and a Python
      exception that escapes. */
  datatype UpdateFailure =
    | NoAccess
    | UpdateHttpError(code: int)
    | FieldNotWritten(parameter: string)
    | FieldMismatch(parameter: string, value: Json, returned: Json)
    | Raised(error: PyError)

  /** What a return code means for the update: codes 0 and 1 return the
      echo, 2 fails as not written, 3 as a mismatch carrying the echoed value. */
  function RcOutcome(rc: Rc, echo: Json, parameter: string, value: Json): (r: Result<Json, UpdateFailure>)
    requires rc == Mismatch ==> echo.JObj? && parameter in echo.fields
    ensures r.Ok? <==> RcCode(rc) in {0, 1}
    ensures r.Ok? ==> r.value == echo
    ensures RcCode(rc) == 2 <==> r == Err(FieldNotWritten(parameter))
    ensures RcCode(rc) == 3 <==> r.Err? && r.error.FieldMismatch?
    ensures RcCode(rc) == 3 ==> r == Err(FieldMismatch(parameter, value, echo.fields[parameter]))
  {
    match rc
    case Matched => Ok(echo)
    case EmptyValue => Ok(echo)
    case NotWritten => Err(FieldNotWritten(parameter))
    case Mismatch => Err(FieldMismatch(parameter, value, echo.fields[parameter]))
  }

  /** One field validated and judged; an exception of the check escapes. */
  function Judge(echo: Json, parameter: string, value: Json): (r: Result<Json, UpdateFailure>)
    ensures r.Ok? <==> ValidateResponse(echo, parameter, value) in {Ok(Matched), Ok(EmptyValue)}
    ensures r.Ok? ==> r.value == echo
    ensures ValidateResponse(echo, parameter, value) == Ok(NotWritten) <==> r == Err(FieldNotWritten(parameter))
    ensures ValidateResponse(echo, parameter, value) == Ok(Mismatch) <==>
              r.Err? && r.error.FieldMismatch?
    ensures r.Err? && r.error.FieldMismatch? ==>
              r == Err(FieldMismatch(parameter, value, echo.fields[parameter]))
    ensures ValidateResponse(echo, parameter, value).Err? <==> r.Err? && r.error.Raised?
    ensures r.Err? && r.error.Raised? ==> r.error.error == ValidateResponse(echo, parameter, value).error
  {
    match ValidateResponse(echo, parameter, value)
    case Err(e) => Err(Raised(e))
    case Ok(rc) => RcOutcome(rc, echo, parameter, value)
  }

  /** The payload of a single-field update: the named fields of the record
      read beforehand (a KeyError if one is missing, a TypeError if the record
      is no dictionary), and then the parameter, which wins over a field of
      the same name as in a Python dict display. */
  function PatchPayload(record: Json, keys: seq<string>, parameter: string, value: Json): (r: Result<map<string, Json>, PyError>)
    ensures !record.JObj? ==> r == Err(TypeError)
    ensures record.JObj? ==> (r.Ok? <==> forall k :: k in keys ==> k in record.fields)
    ensures r.Err? && record.JObj? ==> r.error == KeyError
    ensures r.Ok? ==> r.value.Keys == (set k | k in keys) + {parameter}
    ensures r.Ok? ==> r.value[parameter] == value
    ensures r.Ok? ==> forall k :: k in keys && k != parameter ==> r.value[k] == record.fields[k]
  {
    match record
    case JObj(fields) =>
      if forall k :: k in keys ==> k in fields then
        Ok((map k | k in keys :: fields[k])[parameter := value])
      else
        Err(KeyError)
    case _ => Err(TypeError)
  }

  /** `changeTenantMetadata`: versionUuid and uuid of the tenant, plus the field. */
  function TenantPayload(tenant: Json, parameter: string, value: Json): (r: Result<map<string, Json>, PyError>)
    ensures r == PatchPayload(tenant, ["versionUuid", "uuid"], parameter, value)
    ensures r.Ok? ==> r.value.Keys == {"versionUuid", "uuid", parameter}
  {
    PatchPayload(tenant, ["versionUuid", "uuid"], parameter, value)
  }

  /** `changeSystemMetadata`: versionUuid, uuid and landscape of the system, plus the field. */
  function SystemPayload(system: Json, parameter: string, value: Json): (r: Result<map<string, Json>, PyError>)
    ensures r == PatchPayload(system, ["versionUuid", "uuid", "landscape"], parameter, value)
    ensures r.Ok? ==> r.value.Keys == {"versionUuid", "uuid", "landscape", parameter}
  {
    PatchPayload(system, ["versionUuid", "uuid", "landscape"], parameter, value)
  }

  /** `changeTenantMetadata` and `changeSystemMetadata` from the request on:
      the form encoding of the payload raises on non-ASCII text before anything
      is sent; then 403 is CIC_NO_ACCESS, every other HTTP error the update
      error, a body that is not JSON a ValueError, and a decoded echo is
      judged on the one field. (The debug line after decoding formats the echo
      as `_validateResponse` does first, with the same exception.) */
  function SingleFieldOutcome(payload: map<string, Json>, reply: Reply, parameter: string, value: Json): (r: Result<Json, UpdateFailure>)
    ensures !FormEncodable(payload) ==> r == Err(Raised(UnicodeEncodeError))
    ensures FormEncodable(payload) && reply.Refused? ==>
              r == Err(if reply.code == 403 then NoAccess else UpdateHttpError(reply.code))
    ensures FormEncodable(payload) && reply.Delivered? && reply.body.None? ==> r == Err(Raised(ValueError))
    ensures FormEncodable(payload) && reply.Delivered? && reply.body.Some? ==> r == Judge(reply.body.value, parameter, value)
  {
    if !FormEncodable(payload) then Err(Raised(UnicodeEncodeError))
    else
      match reply
      case Refused(code, _) => Err(if code == 403 then NoAccess else UpdateHttpError(code))
      case Delivered(_, None) => Err(Raised(ValueError))
      case Delivered(_, Some(echo)) => Judge(echo, parameter, value)
  }

  /** A successful update is one whose echo came back and validated. */
  predicate EchoAccepted(reply: Reply, parameter: string, value: Json, echo: Json) {
    reply.Delivered? && reply.body == Some(echo) && ValidateResponse(echo, parameter, value) in {Ok(Matched), Ok(EmptyValue)}
  }

  /** `changeTenantMetadata` from the tenant record on: the payload is built
      first (KeyError, TypeError), then the debug line formats the value, then
      the request is sent. */
  function TenantUpdate(tenant: Json, parameter: string, value: Json, reply: Reply): (r: Result<Json, UpdateFailure>)
    ensures !tenant.JObj? ==> r == Err(Raised(TypeError))
    ensures TenantPayload(tenant, parameter, value).Err? ==> r == Err(Raised(TenantPayload(tenant, parameter, value).error))
    ensures TenantPayload(tenant, parameter, value).Ok? && NotAsciiText(value) ==> r == Err(Raised(UnicodeEncodeError))
    ensures TenantPayload(tenant, parameter, value).Ok? ==>
              r == SingleFieldOutcome(TenantPayload(tenant, parameter, value).value, reply, parameter, value)
    ensures r.Ok? ==> EchoAccepted(reply, parameter, value, r.value)
  {
    match TenantPayload(tenant, parameter, value)
    case Err(e) => Err(Raised(e))
    case Ok(payload) =>
      if NotAsciiText(value) then Err(Raised(UnicodeEncodeError))
      else SingleFieldOutcome(payload, reply, parameter, value)
  }

  /** `changeSystemMetadata` from the system record on: its debug line comes
      before the record is read, so the value is formatted first. */
  function SystemUpdate(system: Json, parameter: string, value: Json, reply: Reply): (r: Result<Json, UpdateFailure>)
    ensures NotAsciiText(value) ==> r == Err(Raised(UnicodeEncodeError))
    ensures !NotAsciiText(value) && SystemPayload(system, parameter, value).Err? ==>
              r == Err(Raised(SystemPayload(system, parameter, value).error))
    ensures !NotAsciiText(value) && SystemPayload(system, parameter, value).Ok? ==>
              r == SingleFieldOutcome(SystemPayload(system, parameter, value).value, reply, parameter, value)
    ensures r.Ok? ==> EchoAccepted(reply, parameter, value, r.value)
  {
    if NotAsciiText(value) then Err(Raised(UnicodeEncodeError))
    else
      match SystemPayload(system, parameter, value)
      case Err(e) => Err(Raised(e))
      case Ok(payload) => SingleFieldOutcome(payload, reply, parameter, value)
  }

  /** A non-ASCII value fails before the PATCH is sent, so the reply makes no
      difference; the two updates differ only in whether a bad record or the
      value is noticed first. */
  lemma NonAsciiValueNeverSent(record: Json, parameter: string, value: Json, reply1: Reply, reply2: Reply)
    requires NotAsciiText(value)
    ensures TenantUpdate(record, parameter, value, reply1) == TenantUpdate(record, parameter, value, reply2)
    ensures TenantUpdate(record, parameter, value, reply1).Err?
    ensures SystemUpdate(record, parameter, value, reply1) == Err(Raised(UnicodeEncodeError))
    ensures !record.JObj? ==> TenantUpdate(record, parameter, value, reply1) == Err(Raised(TypeError))
  {
  }

  /** With an empty intended value the update succeeds on any decoded echo
      that prints, once the payload could be encoded. */
  lemma EmptyValueUpdateSucceeds(payload: map<string, Json>, status: int, echo: Json, parameter: string)
    requires FormEncodable(payload)
    ensures !NotAsciiText(echo) ==> SingleFieldOutcome(payload, Delivered(status, Some(echo)), parameter, JStr("")) == Ok(echo)
    ensures NotAsciiText(echo) ==>
              SingleFieldOutcome(payload, Delivered(status, Some(echo)), parameter, JStr("")) == Err(Raised(UnicodeEncodeError))
  {
  }

  /** A field absent from the echo is reported as not written, and an echoed
      value whose text differs as a mismatch carrying what came back. */
  lemma UpdateFailureKinds(payload: map<string, Json>, status: int, fields: map<string, Json>, parameter: string, value: Json)
    requires FormEncodable(payload) && value != JStr("") && !NotAsciiText(value)
    ensures parameter !in fields ==>
              SingleFieldOutcome(payload, Delivered(status, Some(JObj(fields))), parameter, value) == Err(FieldNotWritten(parameter))
    ensures parameter in fields && StrEquals(fields[parameter], value) == Ok(false) ==>
              SingleFieldOutcome(payload, Delivered(status, Some(JObj(fields))), parameter, value)
              == Err(FieldMismatch(parameter, value, fields[parameter]))
  {
  }

  /** One (parameter, value) pair of `dictParamValue`, in the dictionary's iteration order. */
  type Field = (string, Json)

  function Names(fs: seq<Field>): (names: set<string>)
    ensures forall k :: 0 <= k < |fs| ==> fs[k].0 in names
  {
    if fs == [] then {} else Names(fs[..|fs| - 1]) + {fs[|fs| - 1].0}
  }

  /** `payload.update(dictParamValue)`: the pairs are written in order, so a
      later pair with the same name wins. */
  function UpdateWith(m: map<string, Json>, fs: seq<Field>): (r: map<string, Json>)
    ensures r.Keys == m.Keys + Names(fs)
    ensures forall k :: 0 <= k < |fs| && (forall j :: k < j < |fs| ==> fs[j].0 != fs[k].0) ==> r[fs[k].0] == fs[k].1
    ensures forall key :: key in m && key !in Names(fs) ==> r[key] == m[key]
  {
    if fs == [] then m
    else
      UpdateWith(m, fs[..|fs| - 1])[fs[|fs| - 1].0 := fs[|fs| - 1].1]
  }

  /** The payload of `changeMultiFieldsTenantMetadata`: versionUuid and uuid,
      updated with the pairs unless `dictParamValue` is None. */
  function MultiFieldPayload(tenant: Json, fields: Option<seq<Field>>): (r: Result<map<string, Json>, PyError>)
    ensures !tenant.JObj? ==> r == Err(TypeError)
    ensures tenant.JObj? ==> (r.Ok? <==> "versionUuid" in tenant.fields && "uuid" in tenant.fields)
    ensures tenant.JObj? && r.Err? ==> r.error == KeyError
    ensures r.Ok? ==> r.value == UpdateWith(map["versionUuid" := tenant.fields["versionUuid"], "uuid" := tenant.fields["uuid"]],
                                            if fields.Some? then fields.value else [])
    ensures r.Ok? ==> r.value.Keys == {"versionUuid", "uuid"} + (if fields.Some? then Names(fields.value) else {})
  {
    match tenant
    case JObj(f) =>
      if "versionUuid" in f && "uuid" in f then
        var base := map["versionUuid" := f["versionUuid"], "uuid" := f["uuid"]];
        Ok(if fields.Some? then UpdateWith(base, fields.value) else base)
      else Err(KeyError)
    case _ => Err(TypeError)
  }

  /** A field that validates to 0 or 1. */
  predicate Passes(echo: Json, f: Field) {
    Judge(echo, f.0, f.1).Ok?
  }

  /** The position of the first field that does not validate to 0 or 1,
      or the number of fields if every one does. */
  function FirstFailing(echo: Json, fs: seq<Field>): (k: nat)
    ensures k <= |fs|
    ensures forall j :: 0 <= j < k ==> Passes(echo, fs[j])
    ensures k < |fs| ==> !Passes(echo, fs[k])
  {
    if fs == [] || !Passes(echo, fs[0]) then 0
    else
      var k := FirstFailing(echo, fs[1..]);
      assert forall j :: 0 < j < k + 1 ==> fs[j] == fs[1..][j - 1];
      k + 1
  }

  /** The result of checking the fields in order and stopping at the first
      one that fails: the failure of that field, or the echo if none fails. */
  function FieldsVerdict(echo: Json, fs: seq<Field>): (r: Result<Json, UpdateFailure>)
    ensures r.Ok? <==> forall k :: 0 <= k < |fs| ==> Passes(echo, fs[k])
    ensures r.Ok? ==> r.value == echo
    ensures r.Err? ==> exists k :: 0 <= k < |fs| && (forall j :: 0 <= j < k ==> Passes(echo, fs[j]))
                                   && r == Judge(echo, fs[k].0, fs[k].1)
  {
    var k := FirstFailing(echo, fs);
    if k == |fs| then Ok(echo) else Judge(echo, fs[k].0, fs[k].1)
  }

  /** The verdict is that of the first field that fails. */
  lemma FieldsVerdictAt(echo: Json, fs: seq<Field>, i: nat)
    requires i < |fs| && !Passes(echo, fs[i])
    requires forall j :: 0 <= j < i ==> Passes(echo, fs[j])
    ensures FieldsVerdict(echo, fs) == Judge(echo, fs[i].0, fs[i].1)
  {
    var k := FirstFailing(echo, fs);
    assert !(k < i) && !(i < k);
  }

  /** The validation loop of `changeMultiFieldsTenantMetadata`, with its `break`:
      None when no field was checked, so that `rc` was never assigned. */
  method CheckFields(echo: Json, fs: seq<Field>) returns (r: Option<Result<Json, UpdateFailure>>)
    ensures r.None? <==> fs == []
    ensures r.Some? ==> r.value == FieldsVerdict(echo, fs)
  {
    var i := 0;
    var rc: Option<Rc> := None;
    var parameter: string, value: Json := "", JNull;
    while i < |fs|
      invariant 0 <= i <= |fs|
      invariant rc.None? <==> i == 0
      invariant i > 0 ==> rc.value in {Matched, EmptyValue}
      invariant forall j :: 0 <= j < i ==> Passes(echo, fs[j])
    {
      parameter, value := fs[i].0, fs[i].1;
      var v := ValidateResponse(echo, parameter, value);
      if v.Err? {
        FieldsVerdictAt(echo, fs, i);
        return Some(Err(Raised(v.error)));
      }
      rc := Some(v.value);
      if rc.value == NotWritten || rc.value == Mismatch {
        break;
      }
      i := i + 1;
    }
    if rc.None? {
      return None;
    }
    if i < |fs| {
      FieldsVerdictAt(echo, fs, i);
    }
    r := Some(RcOutcome(rc.value, echo, parameter, value));
  }

  /** `changeMultiFieldsTenantMetadata` AS WRITTEN, from the reply on: every
      HTTP error is the multi-field update error (no 403 case); the debug line
      after decoding formats the echo; a `dictParamValue` of None then fails at
      `.iteritems()` and an empty one leaves `rc` unassigned, both after the
      PATCH was sent. */
  method MultiFieldOutcome(reply: Reply, fields: Option<seq<Field>>) returns (r: Result<Json, UpdateFailure>)
    ensures reply.Refused? ==> r == Err(UpdateHttpError(reply.code))
    ensures reply.Delivered? && reply.body.None? ==> r == Err(Raised(ValueError))
    ensures reply.Delivered? && reply.body.Some? && NotAsciiText(reply.body.value) ==> r == Err(Raised(UnicodeEncodeError))
    ensures reply.Delivered? && reply.body.Some? && !NotAsciiText(reply.body.value) ==>
              r == match fields
                   case None => Err(Raised(AttributeError))
                   case Some(fs) => if fs == [] then Err(Raised(NameError)) else FieldsVerdict(reply.body.value, fs)
  {
    match reply
    case Refused(code, _) =>
      r := Err(UpdateHttpError(code));
    case Delivered(_, body) =>
      if body.None? {
        return Err(Raised(ValueError));
      }
      if NotAsciiText(body.value) {
        return Err(Raised(UnicodeEncodeError));
      }
      if fields.None? {
        return Err(Raised(AttributeError));
      }
      var checked := CheckFields(body.value, fields.value);
      r := if checked.None? then Err(Raised(NameError)) else checked.value;
  }

  /** The multi-field update as evidently intended: with nothing to check the
      echo is returned, as for a field that validated. */
  method MultiFieldOutcomeIntended(reply: Reply, fields: Option<seq<Field>>) returns (r: Result<Json, UpdateFailure>)
    ensures reply.Refused? ==> r == Err(UpdateHttpError(reply.code))
    ensures reply.Delivered? && reply.body.None? ==> r == Err(Raised(ValueError))
    ensures reply.Delivered? && reply.body.Some? && NotAsciiText(reply.body.value) ==> r == Err(Raised(UnicodeEncodeError))
    ensures reply.Delivered? && reply.body.Some? && !NotAsciiText(reply.body.value) ==>
              r == FieldsVerdict(reply.body.value, if fields.Some? then fields.value else [])
    ensures reply.Delivered? && reply.body.Some? && !NotAsciiText(reply.body.value) && (fields.None? || fields == Some([])) ==>
              r == Ok(reply.body.value)
  {
    match reply
    case Refused(code, _) =>
      r := Err(UpdateHttpError(code));
    case Delivered(_, body) =>
      if body.None? {
        return Err(Raised(ValueError));
      }
      if NotAsciiText(body.value) {
        return Err(Raised(UnicodeEncodeError));
      }
      var checked := CheckFields(body.value, if fields.Some? then fields.value else []);
      r := if checked.None? then Ok(body.value) else checked.value;
  }

  /** The multi-field request goes out: the payload could be built, and
      the "uuid" query string and the payload can be encoded. */
  predicate MultiFieldSent(tenant: Json, fields: Option<seq<Field>>) {
    && MultiFieldPayload(tenant, fields).Ok?
    && !NotAsciiText(tenant.fields["uuid"])
    && FormEncodable(MultiFieldPayload(tenant, fields).value)
  }

  /** `changeMultiFieldsTenantMetadata` as written, from the tenant record
      on: the payload, the "uuid" query string (encoded from the record, even
      where a field named "uuid" replaces it in the payload) and the form
      encoding of the payload come before the request is sent. */
  method MultiFieldUpdate(tenant: Json, fields: Option<seq<Field>>, reply: Reply) returns (r: Result<Json, UpdateFailure>)
    ensures MultiFieldPayload(tenant, fields).Err? ==> r == Err(Raised(MultiFieldPayload(tenant, fields).error))
    ensures MultiFieldPayload(tenant, fields).Ok? &&
            (NotAsciiText(tenant.fields["uuid"]) || !FormEncodable(MultiFieldPayload(tenant, fields).value)) ==>
              r == Err(Raised(UnicodeEncodeError))
    ensures MultiFieldSent(tenant, fields) && reply.Refused? ==> r == Err(UpdateHttpError(reply.code))
    ensures MultiFieldSent(tenant, fields) && reply.Delivered? && reply.body.None? ==> r == Err(Raised(ValueError))
    ensures MultiFieldSent(tenant, fields) && reply.Delivered? && reply.body.Some? && NotAsciiText(reply.body.value) ==>
              r == Err(Raised(UnicodeEncodeError))
    ensures MultiFieldSent(tenant, fields) && reply.Delivered? && reply.body.Some? && !NotAsciiText(reply.body.value) ==>
              r == match fields
                   case None => Err(Raised(AttributeError))
                   case Some(fs) => if fs == [] then Err(Raised(NameError)) else FieldsVerdict(reply.body.value, fs)
    ensures reply.Delivered? && reply.body.Some? && r.Ok? ==> r.value == reply.body.value
    ensures r.Ok? ==> reply.Delivered? && reply.body.Some? && fields.Some?
                      && forall k :: 0 <= k < |fields.value| ==> Passes(reply.body.value, fields.value[k])
  {
    var payload := MultiFieldPayload(tenant, fields);
    if payload.Err? {
      return Err(Raised(payload.error));
    }
    if NotAsciiText(tenant.fields["uuid"]) || !FormEncodable(payload.value) {
      return Err(Raised(UnicodeEncodeError));
    }
    r := MultiFieldOutcome(reply, fields);
  }

  /** With no fields to check the update as written raises although the PATCH
      went through, where the intended one returns the echo. */
  method EmptyFieldsRaise(echo: Json) returns (written: Result<Json, UpdateFailure>, intended: Result<Json, UpdateFailure>)
    requires !NotAsciiText(echo)
    ensures written == Err(Raised(NameError))
    ensures intended == Ok(echo)
  {
    written := MultiFieldOutcome(Delivered(200, Some(echo)), Some([]));
    intended := MultiFieldOutcomeIntended(Delivered(200, Some(echo)), Some([]));
  }
}
