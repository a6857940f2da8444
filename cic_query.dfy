/** Query strings the CIC access object sends: the OData member filter of
    `getCicMemberList` (escaped with `urllib.pathname2url`, which on POSIX is
    `urllib.quote` with "/" safe), the member list read back from its reply,
    and the parameter dictionary `getSystemsByFilter` / `getTenantsByFilter`
    hand to `urllib.urlencode`. Python 2 `str` values are byte strings:
    every character is below 256. */
module CicQuery {
  import opened PyJson
  import opened CicHttp
  import CicLookup

  predicate IsByteText(s: string) {
    forall k :: 0 <= k < |s| ==> s[k] as int < 256
  }

  /** The characters `quote` leaves alone: letters, digits, "_.-" and the
      safe "/". */
  predicate SafeChar(c: char) {
    ('A' <= c <= 'Z') || ('a' <= c <= 'z') || ('0' <= c <= '9') || c == '_' || c == '.' || c == '-' || c == '/'
  }

  predicate IsHexChar(c: char) {
    ('0' <= c <= '9') || ('A' <= c <= 'F') || ('a' <= c <= 'f')
  }

  /** A hex digit as `'%%%02X'` writes it: a decimal digit or one of "ABCDEF". */
  predicate IsUpperHexChar(c: char) {
    ('0' <= c <= '9') || ('A' <= c <= 'F')
  }

  function HexDigit(d: nat): (c: char)
    requires d < 16
    ensures IsUpperHexChar(c) && IsHexChar(c) && SafeChar(c)
    ensures HexValue(c) == d
  {
    if d < 10 then ('0' as int + d) as char else ('A' as int + d - 10) as char
  }

  function HexValue(c: char): (d: nat)
    requires IsHexChar(c)
    ensures d < 16
  {
    if '0' <= c <= '9' then c as int - '0' as int
    else if 'A' <= c <= 'F' then c as int - 'A' as int + 10
    else c as int - 'a' as int + 10
  }

  function QuoteChar(c: char): (r: string)
    requires c as int < 256
    ensures SafeChar(c) ==> r == [c]
    ensures !SafeChar(c) ==> |r| == 3 && r[0] == '%' && IsUpperHexChar(r[1]) && IsUpperHexChar(r[2])
                             && IsHexChar(r[1]) && IsHexChar(r[2])
                             && 16 * HexValue(r[1]) + HexValue(r[2]) == c as int
  {
    if SafeChar(c) then [c] else ['%', HexDigit(c as int / 16), HexDigit(c as int % 16)]
  }

  /** `urllib.quote(s, "/")`: every unsafe byte becomes "%XX". */
  function Quote(s: string): (r: string)
    requires IsByteText(s)
    ensures forall k :: 0 <= k < |r| ==> SafeChar(r[k]) || r[k] == '%'
    ensures (forall k :: 0 <= k < |s| ==> SafeChar(s[k])) ==> r == s
    ensures |s| <= |r| <= 3 * |s|
  {
    if s == [] then [] else QuoteChar(s[0]) + Quote(s[1..])
  }

  /** `urllib.unquote`: a "%" followed by two hex digits (either case) is
      one character; anything else stands for itself. */
  function Unquote(r: string): string
    decreases |r|
  {
    if r == [] then []
    else if |r| >= 3 && r[0] == '%' && IsHexChar(r[1]) && IsHexChar(r[2]) then
      [(16 * HexValue(r[1]) + HexValue(r[2])) as char] + Unquote(r[3..])
    else [r[0]] + Unquote(r[1..])
  }

  /** One escaped character in front is read back as that character. */
  lemma UnquoteQuoteChar(c: char, rest: string)
    requires c as int < 256
    ensures Unquote(QuoteChar(c) + rest) == [c] + Unquote(rest)
  {
    var q := QuoteChar(c) + rest;
    if SafeChar(c) {
      assert q[0] == c && q[1..] == rest;
    } else {
      assert q[..3] == QuoteChar(c) && q[3..] == rest;
    }
  }

  /** The server reads back exactly the text that was escaped. */
  lemma {:induction false} UnquoteQuote(s: string)
    requires IsByteText(s)
    ensures Unquote(Quote(s)) == s
  {
    if s != [] {
      assert Quote(s) == QuoteChar(s[0]) + Quote(s[1..]);
      UnquoteQuoteChar(s[0], Quote(s[1..]));
      UnquoteQuote(s[1..]);
      assert s == [s[0]] + s[1..];
    }
  }

  /** Two texts escape alike only when they are the same text. */
  lemma QuoteInjective(a: string, b: string)
    requires IsByteText(a) && IsByteText(b)
    ensures Quote(a) == Quote(b) <==> a == b
  {
    if Quote(a) == Quote(b) {
      UnquoteQuote(a);
      UnquoteQuote(b);
    }
  }

  // ---------------------------------------------------------------- members

  const MemberQueryPrefix := "/odata/Users?$filter="

  /** One OData clause of the member filter. */
  function Clause(groupname: string, role: string): (r: string)
    ensures |r| > 0
    ensures IsByteText(groupname) && IsByteText(role) ==> IsByteText(r)
  {
    "groupname eq '" + groupname + "' and role eq '" + role + "'"
  }

  /** The clauses of all roles, in order, joined with " or ". */
  function RoleFilter(groupname: string, roles: seq<string>): (r: string)
    requires roles != []
    ensures |r| > 0
    ensures IsByteText(groupname) && (forall i :: 0 <= i < |roles| ==> IsByteText(roles[i])) ==> IsByteText(r)
  {
    if |roles| == 1 then Clause(groupname, roles[0])
    else RoleFilter(groupname, roles[..|roles| - 1]) + " or " + Clause(groupname, roles[|roles| - 1])
  }

  /** `t` occurs in `s` starting at position `p`. */
  predicate OccursAt(s: string, t: string, p: int) {
    0 <= p <= |s| - |t| && s[p..p + |t|] == t
  }

  predicate Contains(s: string, t: string) {
    exists p :: 0 <= p <= |s| && OccursAt(s, t, p)
  }

  lemma ContainsInLeft(a: string, b: string, t: string)
    requires Contains(a, t)
    ensures Contains(a + b, t)
  {
    var p :| 0 <= p <= |a| && OccursAt(a, t, p);
    assert (a + b)[p..p + |t|] == a[p..p + |t|];
    assert OccursAt(a + b, t, p);
  }

  lemma ContainsAtEnd(a: string, t: string)
    ensures Contains(a + t, t)
  {
    assert (a + t)[|a|..|a| + |t|] == t;
    assert OccursAt(a + t, t, |a|);
  }

  /** Every role of the list is asked for by a clause of its own. */
  lemma {:induction false} EveryRoleHasClause(groupname: string, roles: seq<string>)
    requires roles != []
    ensures forall i :: 0 <= i < |roles| ==> Contains(RoleFilter(groupname, roles), Clause(groupname, roles[i]))
  {
    var n := |roles|;
    if n == 1 {
      assert RoleFilter(groupname, roles) == "" + Clause(groupname, roles[0]);
      ContainsAtEnd("", Clause(groupname, roles[0]));
    } else {
      var front := roles[..n - 1];
      var prev := RoleFilter(groupname, front);
      var last := Clause(groupname, roles[n - 1]);
      EveryRoleHasClause(groupname, front);
      assert RoleFilter(groupname, roles) == prev + (" or " + last);
      forall i | 0 <= i < n
        ensures Contains(RoleFilter(groupname, roles), Clause(groupname, roles[i]))
      {
        if i < n - 1 {
          assert front[i] == roles[i];
          ContainsInLeft(prev, " or " + last, Clause(groupname, roles[i]));
        } else {
          ContainsAtEnd(prev + " or ", last);
        }
      }
    }
  }

  function SelectSuffix(fieldSelector: Option<string>): string {
    if fieldSelector.Some? then "&$select=" + fieldSelector.value else ""
  }

  /** The URL `getCicMemberList` requests. More than one role: the loop
      appends a clause per role, prefixing " or " once the string is
      non-empty. One role: its clause alone. No role: `listofroles[0]`
      raises an IndexError. The field selector is appended unescaped. */
  method MemberListUrl(groupname: string, roles: seq<string>, fieldSelector: Option<string>)
      returns (r: Result<string, PyError>)
    requires IsByteText(groupname) && forall i :: 0 <= i < |roles| ==> IsByteText(roles[i])
    ensures roles == [] <==> r == Err(IndexError)
    ensures roles != [] ==> r == Ok(MemberQueryPrefix + Quote(RoleFilter(groupname, roles)) + SelectSuffix(fieldSelector))
  {
    var queryString := "";
    if |roles| > 1 {
      var i := 0;
      while i < |roles|
        invariant 0 <= i <= |roles|
        invariant i == 0 ==> queryString == ""
        invariant i > 0 ==> queryString == RoleFilter(groupname, roles[..i])
      {
        if queryString == "" {
          queryString := queryString + Clause(groupname, roles[i]);
        } else {
          queryString := queryString + " or " + Clause(groupname, roles[i]);
        }
        assert roles[..i + 1][..i] == roles[..i];
        i := i + 1;
      }
      assert roles[..|roles|] == roles;
      queryString := Quote(queryString);
    } else {
      if roles == [] {
        return Err(IndexError);
      }
      queryString := Quote(Clause(groupname, roles[0]));
    }
    var urlComplete := MemberQueryPrefix + queryString + SelectSuffix(fieldSelector);
    r := Ok(urlComplete);
  }

  /** What the decoded query says: the filter is the " or " of the role
      clauses, for one role and for several alike. */
  lemma MemberFilterDecodes(groupname: string, roles: seq<string>)
    requires roles != []
    requires IsByteText(groupname) && forall i :: 0 <= i < |roles| ==> IsByteText(roles[i])
    ensures Unquote(Quote(RoleFilter(groupname, roles))) == RoleFilter(groupname, roles)
    ensures |roles| == 1 ==> RoleFilter(groupname, roles) == Clause(groupname, roles[0])
  {
    UnquoteQuote(RoleFilter(groupname, roles));
  }

  /** `unicode.encode("ascii", "ignore")`: the ASCII characters, in order. */
  function AsciiOnly(s: string): (r: string)
    ensures IsAscii(r)
    ensures |r| <= |s|
    ensures IsAscii(s) ==> r == s
    ensures forall c :: c in r <==> c in s && c as int < 128
  {
    if s == [] then []
    else (if s[0] as int < 128 then [s[0]] else []) + AsciiOnly(s[1..])
  }

  /** One character is kept exactly when it is ASCII. */
  lemma AsciiOnlyOfChar(c: char)
    ensures c as int < 128 ==> AsciiOnly([c]) == [c]
    ensures c as int >= 128 ==> AsciiOnly([c]) == []
  {
    assert [c][1..] == [];
  }

  /** The ASCII characters are kept in their order: dropping characters
      distributes over concatenation. */
  lemma {:induction false} AsciiOnlyAppend(a: string, b: string)
    ensures AsciiOnly(a + b) == AsciiOnly(a) + AsciiOnly(b)
    decreases |a|
  {
    if a != [] {
      assert (a + b)[0] == a[0];
      assert (a + b)[1..] == a[1..] + b;
      AsciiOnlyAppend(a[1..], b);
    } else {
      assert a + b == b;
    }
  }

  /** `item[fieldselector]` and its encoding: None for a technical user
      (null value), otherwise the ASCII part of the string value. */
  function ItemText(item: Json, field: string): (r: Result<Option<string>, PyError>)
    ensures r == Ok(None) <==> item.JObj? && field in item.fields && item.fields[field] == JNull
    ensures r.Ok? && r.value.Some? <==> item.JObj? && field in item.fields && item.fields[field].JStr?
    ensures r.Ok? && r.value.Some? ==> r.value.value == AsciiOnly(item.fields[field].s)
    ensures !item.JObj? ==> r == Err(TypeError)
    ensures item.JObj? && field !in item.fields ==> r == Err(KeyError)
    ensures item.JObj? && field in item.fields && !item.fields[field].JNull? && !item.fields[field].JStr? ==>
              r == Err(AttributeError)
  {
    match item
    case JObj(m) =>
      if field !in m then Err(KeyError)
      else
        (match m[field]
         case JNull => Ok(None)
         case JStr(s) => Ok(Some(AsciiOnly(s)))
         case _ => Err(AttributeError))
    case _ => Err(TypeError)
  }

  /** The member list after the loop over `items`: " " + text per member,
      in order; the first item that raises ends it. */
  function MemberText(items: seq<Json>, field: string): Result<string, PyError> {
    if items == [] then Ok("")
    else
      var prev := MemberText(items[..|items| - 1], field);
      var last := ItemText(items[|items| - 1], field);
      if prev.Err? then prev
      else if last.Err? then Err(last.error)
      else Ok(prev.value + Piece(last.value))
  }

  /** The member list is plain ASCII. */
  lemma {:induction false} MemberTextAscii(items: seq<Json>, field: string)
    ensures MemberText(items, field).Ok? ==> IsAscii(MemberText(items, field).value)
  {
    if items != [] && MemberText(items, field).Ok? {
      var front := items[..|items| - 1];
      MemberTextAscii(front, field);
      var prev, piece := MemberText(front, field).value, Piece(ItemText(items[|items| - 1], field).value);
      assert forall k :: 0 < k < |piece| ==> piece[k] == ItemText(items[|items| - 1], field).value.value[k - 1];
      assert forall k :: |prev| <= k < |prev + piece| ==> (prev + piece)[k] == piece[k - |prev|];
    }
  }

  /** What one item adds to the member list: nothing, or " " and its id. */
  function Piece(id: Option<string>): string {
    if id.Some? then " " + id.value else ""
  }

  /** Adding a piece is what the loop body does to the member list. */
  lemma PieceAppend(memberList: string, id: Option<string>)
    ensures memberList + Piece(id) == if id.Some? then memberList + " " + id.value else memberList
  {
    if id.Some? {
      assert memberList + (" " + id.value) == memberList + " " + id.value;
    } else {
      assert memberList + "" == memberList;
    }
  }

  /** One more item: the member text so far, then that item's piece. */
  lemma MemberTextSnoc(items: seq<Json>, field: string, x: Json)
    ensures MemberText(items + [x], field) ==
              if MemberText(items, field).Err? then MemberText(items, field)
              else if ItemText(x, field).Err? then Err(ItemText(x, field).error)
              else Ok(MemberText(items, field).value + Piece(ItemText(x, field).value))
  {
    var s := items + [x];
    assert s[..|s| - 1] == items && s[|s| - 1] == x;
  }

  /** MemberTextSnoc for the next prefix of a list. */
  lemma MemberTextStep(items: seq<Json>, field: string, i: nat)
    requires i < |items|
    ensures MemberText(items[..i + 1], field) ==
              if MemberText(items[..i], field).Err? then MemberText(items[..i], field)
              else if ItemText(items[i], field).Err? then Err(ItemText(items[i], field).error)
              else Ok(MemberText(items[..i], field).value + Piece(ItemText(items[i], field).value))
  {
    assert items[..i + 1] == items[..i] + [items[i]];
    MemberTextSnoc(items[..i], field, items[i]);
  }

  /** Once a prefix of the list raises, the whole list raises the same. */
  lemma {:induction false} MemberTextErrorSticks(items: seq<Json>, field: string, j: nat)
    requires j <= |items| && MemberText(items[..j], field).Err?
    ensures MemberText(items, field) == MemberText(items[..j], field)
    decreases |items| - j
  {
    if j < |items| {
      assert items[..j + 1][..j] == items[..j];
      MemberTextErrorSticks(items, field, j + 1);
    } else {
      assert items[..j] == items;
    }
  }

  /** A technical user (null value) leaves the list as it is; a user with an
      ASCII id adds " " and the id. */
  lemma MemberTextOfOne(prefix: seq<Json>, field: string, v: Json)
    requires MemberText(prefix, field).Ok?
    requires v == JNull || (v.JStr? && IsAscii(v.s))
    ensures MemberText(prefix + [JObj(map[field := v])], field)
            == Ok(MemberText(prefix, field).value + (if v.JStr? then " " + v.s else ""))
  {
    var item := JObj(map[field := v]);
    var items := prefix + [item];
    assert items[..|items| - 1] == prefix && items[|items| - 1] == item;
    assert ItemText(item, field) == if v.JStr? then Ok(Some(v.s)) else Ok(None);
    assert Piece(ItemText(item, field).value) == if v.JStr? then " " + v.s else "";
  }

  /** The loop of `getCicMemberList` over the reply's "value" list. */
  method CollectMembers(items: seq<Json>, field: string) returns (r: Result<string, PyError>)
    ensures r == MemberText(items, field)
  {
    var memberList := "";
    var i := 0;
    while i < |items|
      invariant 0 <= i <= |items|
      invariant MemberText(items[..i], field) == Ok(memberList)
    {
      MemberTextStep(items, field, i);
      var text := ItemText(items[i], field);
      if text.Err? {
        MemberTextErrorSticks(items, field, i + 1);
        return Err(text.error);
      }
      PieceAppend(memberList, text.value);
      if text.value.Some? {
        memberList := memberList + " " + text.value.value;
      }
      i := i + 1;
    }
    assert items[..|items|] == items;
    r := Ok(memberList);
  }

  /** What `getCicMemberList` gives back: None (an HTTP error was logged),
      the member text, or the whole decoded reply. */
  datatype MemberList = NoList | Members(text: string) | Whole(response: Json)

  /** The reply handling of `getCicMemberList`. An HTTP error falls off the
      end of the function (None). A 2xx status other than 200 reaches
      `e.read()` with `e` unbound, a NameError. */
  method MemberListOutcome(reply: Reply, fieldSelector: Option<string>) returns (r: Result<MemberList, PyError>)
    ensures reply.Refused? ==> r == Ok(NoList)
    ensures reply.Delivered? && reply.status != 200 ==> r == Err(NameError)
    ensures reply == Delivered(200, None) ==> r == Err(ValueError)
    ensures (reply.Delivered? && reply.status == 200 && reply.body.Some? && !reply.body.value.JObj?) ==> r == Err(TypeError)
    ensures (reply.Delivered? && reply.status == 200 && reply.body.Some? && reply.body.value.JObj?) ==>
              var top := reply.body.value.fields;
              && ("value" !in top ==> r == Err(KeyError))
              && ("value" in top && Falsy(top["value"]) ==> r == Ok(Members("")))
              && ("value" in top && !Falsy(top["value"]) && fieldSelector.None? ==> r == Ok(Whole(reply.body.value)))
              && ("value" in top && !Falsy(top["value"]) && fieldSelector.Some? && !top["value"].JList? ==> r == Err(TypeError))
              && ("value" in top && top["value"].JList? && |top["value"].items| > 0 && fieldSelector.Some? ==>
                    r == match MemberText(top["value"].items, fieldSelector.value)
                         case Ok(t) => Ok(Members(t))
                         case Err(e) => Err(e))
  {
    if reply.Refused? {
      return Ok(NoList);
    }
    if reply.status != 200 {
      return Err(NameError);
    }
    if reply.body.None? {
      return Err(ValueError);
    }
    var response := reply.body.value;
    if !response.JObj? {
      return Err(TypeError);
    }
    if "value" !in response.fields {
      return Err(KeyError);
    }
    var value := response.fields["value"];
    if Falsy(value) {
      return Ok(Members(""));
    }
    if fieldSelector.None? {
      return Ok(Whole(response));
    }
    if !value.JList? {
      // a non-empty dict or string iterates into strings, which cannot be
      // indexed by a key; other values are not iterable
      return Err(TypeError);
    }
    var members := CollectMembers(value.items, fieldSelector.value);
    r := match members
         case Ok(t) => Ok(Members(t))
         case Err(e) => Err(e);
  }

  // ---------------------------------------------------------------- filters

  const SystemEndpoint := "/TMS/systems"
  const TenantEndpoint := "/TMS/tenants"
  const DetailsKey := "details[]"
  const EnforceKey := "enforce_complete_results"

  /** A value of the parameter dictionary: a string, or a list that
      `urlencode(..., True)` spreads into one pair per element. */
  datatype QueryValue = Text(s: string) | Many(items: seq<string>)

  /** The request of a filter lookup: the endpoint and the dictionary that
      `urlencode` turns into its query (none when the dictionary is empty). */
  datatype FilterRequest = FilterRequest(endpoint: string, params: map<string, QueryValue>)

  /** `urlencode(params, True)` emits the pair `key=value`. */
  predicate Emits(params: map<string, QueryValue>, key: string, value: string) {
    key in params && match params[key]
                     case Text(s) => value == s
                     case Many(vs) => value in vs
  }

  /** The dictionary after the updates of `getSystemsByFilter`: the filters,
      then the detail names under "details[]", then, when anything is set,
      "enforce_complete_results" = "true"; a later update overwrites. */
  function FilterParams(filterSet: Option<map<string, QueryValue>>, detailsNames: Option<seq<string>>)
      : (p: map<string, QueryValue>)
    ensures p == map[] <==> (filterSet.None? || filterSet.value == map[]) && detailsNames.None?
    ensures p != map[] ==> EnforceKey in p && p[EnforceKey] == Text("true")
    ensures detailsNames.Some? ==> DetailsKey in p && p[DetailsKey] == Many(detailsNames.value)
    ensures p != map[] ==> p.Keys == (if filterSet.Some? then filterSet.value.Keys else {})
                                     + (if detailsNames.Some? then {DetailsKey} else {}) + {EnforceKey}
    ensures filterSet.Some? ==> forall k :: (k in filterSet.value && k != EnforceKey
                                             && (k != DetailsKey || detailsNames.None?)) ==> k in p && p[k] == filterSet.value[k]
  {
    var base := if filterSet.Some? then filterSet.value else map[];
    var withDetails := if detailsNames.Some? then base[DetailsKey := Many(detailsNames.value)] else base;
    assert detailsNames.Some? ==> DetailsKey in withDetails;
    assert base.Keys <= withDetails.Keys;
    if withDetails == map[] then withDetails else withDetails[EnforceKey := Text("true")]
  }

  /** The pairs urlencode emits for "details[]" are the detail names, and the
      completeness flag is always "true". An empty list of names emits no
      "details[]" pair but still switches the flag on. */
  lemma EmittedPairs(filterSet: Option<map<string, QueryValue>>, names: seq<string>, key: string, value: string)
    ensures Emits(FilterParams(filterSet, Some(names)), DetailsKey, value) <==> value in names
    ensures Emits(FilterParams(filterSet, Some(names)), EnforceKey, value) <==> value == "true"
    ensures names == [] && filterSet.None? ==>
              (Emits(FilterParams(filterSet, Some(names)), key, value) <==> key == EnforceKey && value == "true")
  {
    var p := FilterParams(filterSet, Some(names));
    assert DetailsKey != EnforceKey;
    if names == [] && filterSet.None? {
      assert p.Keys == {DetailsKey, EnforceKey};
    }
  }

  /** `getSystemsByFilter` / `getTenantsByFilter`: `paramDict` is updated in
      place, and then either encoded after "?" or left out. */
  method FilterQuery(endpoint: string, filterSet: Option<map<string, QueryValue>>, detailsNames: Option<seq<string>>)
      returns (req: FilterRequest)
    ensures req == FilterRequest(endpoint, FilterParams(filterSet, detailsNames))
  {
    var paramDict: map<string, QueryValue> := map[];
    if filterSet.Some? {
      paramDict := paramDict + filterSet.value;
    }
    if detailsNames.Some? {
      paramDict := paramDict[DetailsKey := Many(detailsNames.value)];
    }
    if |paramDict| > 0 {
      paramDict := paramDict[EnforceKey := Text("true")];
    } else {
      assert paramDict == map[];
    }
    req := FilterRequest(endpoint, paramDict);
  }

  /** The reply handling of both filter lookups: a 403 is CIC_NO_ACCESS,
      any other HTTP error is re-raised, a delivered body is decoded. */
  function FilterOutcome(reply: Reply): (r: Result<Json, CicLookup.LookupFailure>)
    ensures r.Ok? <==> reply.Delivered? && reply.body.Some?
    ensures r.Ok? ==> r.value == reply.body.value
    ensures reply.Refused? ==> r.Err? && (r.error == CicLookup.NoAccess <==> reply.code == 403)
    ensures reply.Refused? && reply.code != 403 ==> r == Err(CicLookup.HttpError(reply.code))
    ensures reply.Delivered? && reply.body.None? ==> r == Err(CicLookup.Raised(ValueError))
  {
    match reply
    case Refused(code, _) => Err(if code == 403 then CicLookup.NoAccess else CicLookup.HttpError(code))
    case Delivered(_, None) => Err(CicLookup.Raised(ValueError))
    case Delivered(_, Some(j)) => Ok(j)
  }
}
