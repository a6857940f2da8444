# Wave-Update-Stats in Dafny

This project models two Python 2 scripts.

- `cic.py` is a client for the CIC/TMS inventory service. It builds
  requests, checks the service's echo after a metadata PATCH, and tells a
  "system does not exist" 404 apart from a 404 caused by a network problem.
  It also builds OData and filter query strings, and strips the host prefix
  from a system's root URL.
- `getWaveUpdateTime.py` measures how long a wave update took. It cleans
  Jenkins build records (`pre_process_data`), selects builds by system or
  update group and by version, groups instances by update group, and takes
  the time from the earliest EPM build start to the latest FPA build finish,
  in minutes rounded up.

Modules, one per concern:

- `PyJson` has the decoded JSON values, the Python exceptions that escape,
  and Python 2's `str()` comparison.
- `CicHttp` covers `createHttpRequest` and the reply as callers see it.
- `CicHelpers` covers `removePrefix`, `getCloudhost` and `_evaluateHttpConnStatus`.
- `CicMetadata` covers `_validateResponse` and the three metadata updates.
- `CicLookup` covers `_checkSystemNotFound` and the error branch of `getSystemByName`.
- `CicQuery` covers `pathname2url` escaping, the member query and member
  list of `getCicMemberList`, and the parameter dictionary of the two
  filter lookups.
- `Builds` covers the build records and `pre_process_data`.
- `BuildFilters` covers the two build filters and `build_group_info`.
- `WaveTiming` covers the minimum and maximum loops, the elapsed minutes,
  and the two update-time drivers.

Loops in the source become methods with loop invariants. The array of
builds cleaned in place becomes an `array<Build>`. Each method is proved
equal to a specification function, and the lemmas state properties of
those functions.

A reply from the service is an input value. It is either a delivered
response whose body went through `json.loads` (None when the body is not
JSON) or a refusal with its HTTP code, because urllib2 raises `HTTPError`
for every status outside 2xx. Python exceptions are modelled as `Err` values.

A build's `version` comes from the earliest EPM_VERSION or FPA_DU_DIR
parameter, in action then parameter order, because the parameter loops run
backwards; an EPM_VERSION has no precedence over an FPA_DU_DIR.
`Builds.SanitizedKey` states this.

## Model

| member | source | states |
|---|---|---|
| PyJson.ScalarText | cic.py:760 | `str()` of None, a bool, an int or a unicode string; a non-ASCII string raises UnicodeEncodeError |
| PyJson.StrEquals | cic.py:760 | `str(a) == str(b)` raises UnicodeEncodeError exactly when either side is non-ASCII unicode text, whatever the other side is; otherwise, for scalars, it is the equality of their `str()` texts, and equal values compare equal |
| PyJson.StrEqualsInts | cic.py:760 | for two ints, `str()` equality is exactly int equality |
| PyJson.StrEqualsIntText | cic.py:760 | an int compares equal to the string of its digits |
| PyJson.IntTextInjective | cic.py:760 | two ints print alike exactly when they are equal |
| PyJson.NatTextInjective | cic.py:760 | equal decimal texts come from equal naturals |
| CicHttp.CreateHttpRequest | cic.py:946-983 | a missing endpoint raises TypeError; a GET exactly when there is no payload; a JSON POST with the JSON content type exactly when the method is "POST"; otherwise a form-encoded PATCH, and UnicodeEncodeError exactly when a payload value is non-ASCII text; a depth header exactly when xDepth is non-empty; the URL is cicUrl + endpoint |
| CicHttp.PayloadWithGetIsPatched | cic.py:974-978 | a payload sent with method "GET" becomes a PATCH, whose encoding raises on non-ASCII text |
| CicHelpers.RemovePrefix | cic.py:884-889 | with the prefix present, prefix + result is the text; otherwise the text is unchanged |
| CicHelpers.RemovePrefixOfPrepended | cic.py:884-889 | removing a prefix undoes prepending it |
| CicHelpers.GetCloudhost | cic.py:891-898 | succeeds exactly when name, hcpAccount and rootUrl are strings; the result is rootUrl without "https://"+name+hcpAccount+"."; in the order the keys are read, a missing name or hcpAccount raises KeyError, a non-string one TypeError, a missing rootUrl KeyError and a non-string rootUrl AttributeError; a record that is not a dict raises TypeError |
| CicHelpers.CloudhostRecovered | cic.py:891-898 | a root URL made of the system's prefix and a host gives back that host |
| CicHelpers.EvaluateHttpConnStatus | cic.py:854-882 | as written: Ok exactly for 200/201/202 with a decodable or absent response; False for an absent one; ValueError for a body that is not JSON; the invalid-UUID failure exactly for the string "500"; unhandled for every other status; UnicodeEncodeError when the status is non-ASCII text |
| CicHelpers.StatusFiveHundredIsUnhandled | cic.py:879-882 | the int status 500 is reported as unhandled, not as an invalid UUID |
| CicHelpers.EvaluateHttpStatus | cic.py:854-882 | corrected: the invalid-UUID failure exactly for 500, unhandled exactly for codes outside 200/201/202/500, ValueError for a body that is not JSON |
| CicHelpers.IntendedAgreesAwayFromFiveHundred | cic.py:854-882 | for every other int status the corrected and as-written evaluations agree |
| CicMetadata.ValidateResponse | cic.py:749-765 | the opening debug line raises UnicodeEncodeError when the echo or the value is non-ASCII text; then an empty value gives 1; a missing key gives 2; a non-dict echo raises TypeError; otherwise 0 exactly when the `str()` texts agree, 3 exactly when they differ, and the exception of `str()` otherwise |
| CicMetadata.ValidateRaisesEagerly | cic.py:750-753 | non-ASCII text raises even when the value is "" or the field is absent |
| CicMetadata.ValidateStringEcho | cic.py:749-765 | an echoed ASCII string is accepted exactly when it equals the sent one |
| CicMetadata.ValidateIntEcho | cic.py:749-765 | an echoed int is accepted exactly when it equals the sent int |
| CicMetadata.ValidateComparesText | cic.py:760 | an int echoed for its digits is accepted; JSON true echoed for "true" is a mismatch |
| CicMetadata.RcOutcome | cic.py:610-624 | codes 0 and 1 return the echo, 2 is "not written", 3 is a mismatch carrying the echoed value |
| CicMetadata.Judge | cic.py:609-624 | the update succeeds exactly when validation gives 0 or 1; 2 and 3 fail as not-written and mismatch; an exception of the check escapes |
| CicMetadata.PatchPayload | cic.py:569-573 | the payload has exactly the record's named keys plus the parameter; the parameter's value wins; a missing key raises KeyError and a non-dict record TypeError |
| CicMetadata.TenantPayload | cic.py:569-573 | the tenant payload's keys are versionUuid, uuid and the parameter |
| CicMetadata.SystemPayload | cic.py:694-699 | the system payload's keys are versionUuid, uuid, landscape and the parameter |
| CicMetadata.SingleFieldOutcome | cic.py:578-624 | a payload with non-ASCII text raises UnicodeEncodeError before sending; then 403 is CIC_NO_ACCESS; other HTTP errors are the update error; a non-JSON body raises ValueError; a decoded echo is judged on the field |
| CicMetadata.TenantUpdate | cic.py:566-624 | a bad tenant record raises KeyError or TypeError first; then a non-ASCII value raises UnicodeEncodeError; then the request and reply as SingleFieldOutcome; success means the echo came back and validated |
| CicMetadata.SystemUpdate | cic.py:688-740 | a non-ASCII value raises UnicodeEncodeError first; then a bad system record raises; then the request and reply as SingleFieldOutcome; success means the echo came back and validated |
| CicMetadata.NonAsciiValueNeverSent | cic.py:574 | a non-ASCII value fails whatever the reply; the system update reports it even for a bad record, where the tenant update reports the record |
| CicMetadata.EmptyValueUpdateSucceeds | cic.py:750-753 | with "" as the value the update succeeds on every echo that prints, and raises on an echo of non-ASCII text |
| CicMetadata.UpdateFailureKinds | cic.py:613-624 | an absent field is "not written"; a differing one is a mismatch carrying the echoed value |
| CicMetadata.UpdateWith | cic.py:632-633 | `dict.update`: the keys are the union, the last pair for a name wins, and other keys are kept |
| CicMetadata.MultiFieldPayload | cic.py:628-633 | versionUuid and uuid of the record, updated with the pairs when they are not None; a missing key raises KeyError and a non-dict record TypeError |
| CicMetadata.FirstFailing | cic.py:653-656 | the index of the first field that does not validate to 0 or 1 |
| CicMetadata.FieldsVerdict | cic.py:653-671 | succeeds exactly when every field validates to 0 or 1; otherwise it is the failure of the first field that does not |
| CicMetadata.FieldsVerdictAt | cic.py:653-656 | the verdict is that of the first failing field |
| CicMetadata.CheckFields | cic.py:653-671 | the loop with `break` and the `rc` mapping after it give FieldsVerdict; no result exactly when there are no fields (`rc` unbound) |
| CicMetadata.MultiFieldOutcome | cic.py:642-671 | as written: every HTTP error is the multi-field error; an echo of non-ASCII text raises at the debug line; a None dict raises AttributeError and an empty one NameError, both after the PATCH; otherwise FieldsVerdict |
| CicMetadata.MultiFieldUpdate | cic.py:626-671 | a bad tenant record raises first; a non-ASCII uuid or payload value raises UnicodeEncodeError before sending; once sent, every HTTP error is the multi-field error, a non-JSON body raises ValueError, an echo of non-ASCII text raises UnicodeEncodeError, None fields raise AttributeError, no fields NameError, and otherwise the result is the verdict of the first failing field or the echo |
| CicMetadata.MultiFieldOutcomeIntended | cic.py:642-671 | corrected: no fields to check returns the echo |
| CicMetadata.EmptyFieldsRaise | cic.py:653-658 | with no fields and an echo that prints, the as-written update raises NameError while the corrected one returns the echo |
| CicLookup.ProbeDetails | cic.py:1059-1063 | reading `details[0]["details"]` proceeds exactly when that path exists; an empty list or empty string escapes as IndexError; every other failure is caught |
| CicLookup.EntryStep | cic.py:1066-1071 | an entry stops the loop with "found" exactly when its details dict has "error"; it raises TypeError exactly when the entry, or its details, is no dict |
| CicLookup.FirstStop | cic.py:1065-1071 | the first entry where the loop does not continue |
| CicLookup.NotFoundCheck | cic.py:1056-1073 | True exactly when every entry continues; False when the probe is caught or the first stopping entry has an error; TypeError when that entry raises; IndexError from the probe |
| CicLookup.ErrorEntryMeansNotAbsent | cic.py:1065-1071 | a body with an error entry is never read as "does not exist", and is read as a communication error when no entry raises |
| CicLookup.CheckSystemNotFound | cic.py:1056-1073 | the index loop with early returns computes NotFoundCheck |
| CicLookup.SystemByNameFailure | cic.py:266-294 | a 404 is "not found" exactly when the check says True and a communication error exactly when it says False; 403 is CIC_NO_ACCESS; other codes are re-raised |
| CicQuery.QuoteChar | cic.py:164-168 | a safe character stays itself; any other becomes "%" and two upper-case hex digits |
| CicQuery.Quote | cic.py:164-168 | only safe characters and "%" appear; all-safe text is unchanged; the length grows at most threefold |
| CicQuery.UnquoteQuoteChar | cic.py:164-168 | one escaped character is read back as itself |
| CicQuery.UnquoteQuote | cic.py:164-168 | unquoting the escaped filter gives back the filter |
| CicQuery.QuoteInjective | cic.py:164-168 | two filters escape alike exactly when they are equal |
| CicQuery.Clause | cic.py:161-163 | a role clause is non-empty and escapable when its parts are |
| CicQuery.RoleFilter | cic.py:157-163 | the joined clauses of a role list are non-empty |
| CicQuery.EveryRoleHasClause | cic.py:157-163 | every role of the list has its clause in the filter |
| CicQuery.MemberListUrl | cic.py:152-176 | no roles raises IndexError; otherwise the endpoint, the escaped " or " join of the role clauses, and "&$select=" + field when a selector is given |
| CicQuery.MemberFilterDecodes | cic.py:157-168 | the decoded query is the role filter, for one role and for several |
| CicQuery.AsciiOnly | cic.py:199 | `encode("ascii", "ignore")` gives ASCII text containing exactly the ASCII characters of the input, and ASCII text unchanged |
| CicQuery.AsciiOnlyOfChar | cic.py:199 | one character is kept exactly when it is ASCII |
| CicQuery.AsciiOnlyAppend | cic.py:199 | dropping characters distributes over concatenation, so the kept ones stay in order |
| CicQuery.ItemText | cic.py:198-199 | a null value gives no text; a string gives its ASCII part; a missing key raises KeyError, a non-dict item TypeError, and any other value AttributeError at `.encode` |
| CicQuery.MemberTextAscii | cic.py:196-200 | the member list is ASCII |
| CicQuery.MemberTextErrorSticks | cic.py:196-200 | once an item raises, the whole loop raises the same |
| CicQuery.MemberTextOfOne | cic.py:198-199 | a technical user adds nothing; a user with an ASCII id adds " " and the id |
| CicQuery.CollectMembers | cic.py:196-200 | the loop computes MemberText |
| CicQuery.MemberListOutcome | cic.py:178-207 | an HTTP error returns None; a non-200 2xx raises NameError; an empty "value" gives ""; with a selector, the member text; without one, the whole reply |
| CicQuery.FilterParams | cic.py:470-480 | filters, then "details[]", then the completeness flag when anything is set; the dictionary is empty exactly when nothing is given |
| CicQuery.EmittedPairs | cic.py:476-480 | urlencode's "details[]" pairs are the names; the flag is "true" even for an empty list of names |
| CicQuery.FilterQuery | cic.py:466-483 | the request is the endpoint with the FilterParams dictionary |
| CicQuery.FilterOutcome | cic.py:485-505 | 403 is CIC_NO_ACCESS; other HTTP errors are re-raised; a body is decoded |
| Builds.RFind | getWaveUpdateTime.py:100-101 | the last position of the character, or -1 when it does not occur |
| Builds.AfterLastSlash | getWaveUpdateTime.py:100-102 | a slash-free suffix that follows a slash, or the whole value when there is none |
| Builds.LiftedKey | getWaveUpdateTime.py:96-97 | the lower-cased key of a copied parameter is never "version" |
| Builds.LiftOneWrites | getWaveUpdateTime.py:96-102 | one parameter's step changes exactly the keys it writes |
| Builds.FirstWrite | getWaveUpdateTime.py:89-102 | there is a value for a key exactly when some parameter writes that key |
| Builds.KeptParams | getWaveUpdateTime.py:94-95 | no password parameter is left |
| Builds.KeptParamsMembers | getWaveUpdateTime.py:94-95 | every other parameter is kept, and a list without passwords is unchanged |
| Builds.CleanActions | getWaveUpdateTime.py:89-104 | every remaining action has parameters and none of them is a password |
| Builds.CleanActionsKeepsAll | getWaveUpdateTime.py:89-104 | when every action has a parameter list, even an empty one, none is deleted |
| Builds.CleanActionsOfOne | getWaveUpdateTime.py:91-104 | an action is kept, cleaned, exactly when it has a parameter list, even an empty one |
| Builds.CleanActionsAppend | getWaveUpdateTime.py:89-104 | cleaning distributes over concatenation, so the kept actions stay in order |
| Builds.Sanitize | getWaveUpdateTime.py:87-104 | number, timestamp and duration are kept; every action has parameters; no password is left |
| Builds.LiftParamsAppend | getWaveUpdateTime.py:92-102 | the backward walk over a concatenation walks the second part first |
| Builds.LiftActionsFlatten | getWaveUpdateTime.py:89-102 | walking actions backwards is walking all their parameters backwards |
| Builds.FirstWriteWins | getWaveUpdateTime.py:92-102 | after the backward walk, each key holds the first writer's value, or its old value |
| Builds.KeptParamsAppend | getWaveUpdateTime.py:92-95 | deleting passwords distributes over concatenation |
| Builds.FlattenClean | getWaveUpdateTime.py:89-104 | the parameters of the cleaned actions are the kept parameters |
| Builds.FirstWriteKept | getWaveUpdateTime.py:94-102 | deleting passwords changes no copied value |
| Builds.SanitizedKey | getWaveUpdateTime.py:87-104 | instance, fpa_du_dir, epm_version and version hold the earliest writer's value; other keys are kept |
| Builds.VersionFromFirstParam | getWaveUpdateTime.py:96-102 | a leading EPM_VERSION sets version to its value; a leading FPA_DU_DIR sets it to the text after the last slash |
| Builds.SanitizeIdempotent | getWaveUpdateTime.py:85-109 | preprocessing a preprocessed build changes nothing |
| Builds.CleanIdempotent | getWaveUpdateTime.py:89-104 | cleaning cleaned actions changes nothing |
| Builds.LiftParam | getWaveUpdateTime.py:96-102 | the copy step for one parameter is LiftOne |
| Builds.CleanParameters | getWaveUpdateTime.py:92-102 | the backward loop that deletes and copies gives KeptParams and LiftParams |
| Builds.SanitizeBuild | getWaveUpdateTime.py:88-104 | the backward loop over actions gives Sanitize |
| Builds.PreProcess | getWaveUpdateTime.py:85-104 | every build of the array becomes Sanitize of its old value |
| BuildFilters.Select | getWaveUpdateTime.py:112-139 | a filter returns no more builds than it is given |
| BuildFilters.SelectKeeps | getWaveUpdateTime.py:114-117 | every selected build satisfies the criterion |
| BuildFilters.SelectAppend | getWaveUpdateTime.py:114-117 | selecting from a concatenation selects from each part, so order is kept |
| BuildFilters.SelectMembers | getWaveUpdateTime.py:114-117 | a build is selected exactly when it is in the list and satisfies the criterion |
| BuildFilters.SelectAgrees | getWaveUpdateTime.py:112-139 | criteria that agree on every build select the same builds |
| BuildFilters.GroupSplitDisjoint | getWaveUpdateTime.py:128-132 | no build is both matched and invalid, and together they are no larger than the input |
| BuildFilters.FilterBySystemVersion | getWaveUpdateTime.py:112-120 | KeyError exactly when some build lacks "instance", or matches the instance but lacks "version"; otherwise the builds of that instance and version, in order |
| BuildFilters.FilterByGroupVersion | getWaveUpdateTime.py:123-139 | KeyError exactly when the group is unknown; otherwise the builds of that version whose instance is a group member, and the builds missing a key |
| BuildFilters.SingleMemberGroup | getWaveUpdateTime.py:112-132 | on keyed builds, a one-instance group selects what the system filter selects, and the system filter does not raise |
| BuildFilters.EntryGroup | getWaveUpdateTime.py:159-161 | a non-dict entry or details raises TypeError; a missing "details", "updateGroup" or (for a wave group) "name" raises KeyError; a group that is not a wave group gives nothing; a wave group with a name is reported with that name |
| BuildFilters.MembersOfListsEntry | getWaveUpdateTime.py:159-161 | an entry that names a wave group is among that group's members |
| BuildFilters.WaveEntryReported | getWaveUpdateTime.py:147-161 | when the loop completes, every entry with a wave group and a name is listed under its group |
| BuildFilters.AddMember | getWaveUpdateTime.py:161 | `setdefault(group, []).append(name)` adds the group and appends the name; other groups are unchanged |
| BuildFilters.GroupInfoMembers | getWaveUpdateTime.py:147-161 | a group is in the table exactly when it has members; it lists exactly its members, in order; and it is a wave group |
| BuildFilters.GroupInfoErrorSticks | getWaveUpdateTime.py:159-161 | once an entry raises, the whole loop raises the same |
| BuildFilters.BuildGroupInfo | getWaveUpdateTime.py:147-161 | the loop computes GroupInfoOf |
| WaveTiming.EarliestStart | getWaveUpdateTime.py:189-193 | at most sys.maxint and no later than every start; either sys.maxint or the start of some build |
| WaveTiming.LatestFinish | getWaveUpdateTime.py:206-209 | at least 0 and no earlier than every finish; either 0 or the finish of some build |
| WaveTiming.EarliestStartAttained | getWaveUpdateTime.py:189-193 | when some start is within sys.maxint, the minimum is a build's start |
| WaveTiming.FirstStarted | getWaveUpdateTime.py:187-193 | the loop computes EarliestStart |
| WaveTiming.LastFinished | getWaveUpdateTime.py:204-209 | the loop computes LatestFinish |
| WaveTiming.CeilMinutes | getWaveUpdateTime.py:225 | the least number of whole minutes that covers the seconds |
| WaveTiming.CeilMinutesUnique | getWaveUpdateTime.py:225 | that number is unique |
| WaveTiming.MinutesAsWritten | getWaveUpdateTime.py:217-225 | as written: ValueError when a bound cannot become a date (before year 1 or from year 10000); otherwise the ceiling of the span in minutes |
| WaveTiming.AsWrittenEmptyEpmRaises | getWaveUpdateTime.py:189-196 | no EPM build: the date conversion of sys.maxint raises |
| WaveTiming.AsWrittenEmptyFpa | getWaveUpdateTime.py:206-225 | no FPA build: a zero or negative duration is reported instead of an error |
| WaveTiming.AsWrittenNegativeExample | getWaveUpdateTime.py:217-225 | one EPM build of May 2017 and no FPA build give -24916666 minutes |
| WaveTiming.UpdateMinutes | getWaveUpdateTime.py:217-225 | corrected: NoBuilds exactly when a set is empty; otherwise the ceiling of the span, from a real EPM start |
| WaveTiming.UpdateWindow | getWaveUpdateTime.py:217-225 | the minutes span from an EPM start no later than any other to an FPA finish no earlier than any other |
| WaveTiming.IntendedAgreesOnNonEmpty | getWaveUpdateTime.py:217-225 | on non-empty sets the corrected and as-written values agree |
| WaveTiming.Measure | getWaveUpdateTime.py:220-225 | corrected: the loops together compute UpdateMinutes; NoBuilds exactly when a set is empty; on non-empty sets the result is the as-written MinutesAsWritten |
| WaveTiming.GroupUpdateTime | getWaveUpdateTime.py:217-225 | corrected: an unknown group raises KeyError; otherwise UpdateMinutes of the group-filtered FPA and EPM builds, which is NoBuilds exactly when a filtered set is empty and the as-written MinutesAsWritten when neither is |
| WaveTiming.SystemUpdateTime | getWaveUpdateTime.py:228-236 | corrected: KeyError exactly when either system filter raises; otherwise UpdateMinutes of the system-filtered builds, which is NoBuilds exactly when a filtered set is empty and the as-written MinutesAsWritten when neither is |

## Findings

| source | as written | input that shows it | evidently intended | confidence | as-written member | corrected member |
|---|---|---|---|---|---|---|
| cic.py:879-882 | `statusCode == "500"` compares the int status with a string | status 500 | status 500 reports CIC_INVALID_UUID_ERR | not executed | CicHelpers.StatusFiveHundredIsUnhandled | CicHelpers.EvaluateHttpStatus |
| cic.py:653-658 | `dictParamValue.iteritems()` runs on None, and `rc` is unbound after an empty dict, both after the PATCH was sent | `dictParamValue = {}` with a delivered echo | with nothing to check, return the echo | not executed | CicMetadata.EmptyFieldsRaise | CicMetadata.MultiFieldOutcomeIntended |
| getWaveUpdateTime.py:220-225 | an empty filtered set only prints "Cannot find any build", and the computation goes on | no FPA build and one EPM build with timestamp 1495000000000 | an empty set is an error, not a duration | not executed | WaveTiming.AsWrittenNegativeExample | WaveTiming.UpdateMinutes, WaveTiming.Measure, WaveTiming.GroupUpdateTime, WaveTiming.SystemUpdateTime |

## Left out

- I/O: reading and writing the JSON log files, the Jenkins and CIC downloads, authentication, logging, prints and timing prints are not modelled. Each filter returns its list instead of writing it to a file. The one effect of logging that is modelled is the UnicodeEncodeError that an eagerly formatted debug line raises on non-ASCII unicode text (`CicMetadata.ValidateResponse`, `TenantUpdate`, `SystemUpdate`, `MultiFieldOutcome`, `CicHelpers.EvaluateHttpConnStatus`).
- Parameter names, system names and tenant descriptions are taken as byte strings, which format without error. A unicode name with non-ASCII characters, which would raise as a value does, is not modelled.
- The unwrapping of `json_data['allBuilds']` and `build_list['allBuilds']`: the functions take the list of builds directly.
- `sendHttpRequest`, the cookie login and urllib2 itself are not modelled. A reply is an input value, and only its status, body and error code are modelled.
- The byte encodings of `json.dumps` and `urllib.urlencode` are not modelled. `CicHttp.CreateHttpRequest` records which encoding is used, and `CicQuery.FilterParams` records the dictionary that is encoded.
- JSON floats, and Python's `repr` and hash-order rendering of lists and dicts inside `str()`, are not modelled. `PyJson.StrEquals` compares containers structurally.
- Dictionary iteration order: `dictParamValue` is a sequence of pairs in the order it is iterated.
- PyJson.ScalarText: unicode strings are modelled as text, so only "ASCII or not" is decided, not a byte encoding.
- Builds.Sanitize: parameter values are strings. A non-string FPA_DU_DIR value, which raises AttributeError at `rfind`, is not modelled, and neither is a parameter without "name" or "value".
- `datetime.datetime.fromtimestamp` is time-zone dependent, and so is the subtraction of local dates across a daylight-saving change. Times are integer epoch seconds; WaveTiming.DatetimeLimit takes the range end in UTC.
- WaveTiming.CeilMinutes: `total_seconds() / 60` and `math.ceil` work on floats and print a float. The model uses the exact integer ceiling, which agrees for spans below 2^53 seconds.
- WaveTiming.FirstStarted: the `first_build` it tracks is never used, so it is not modelled.
- `get_group_list` and `get_fpa_dir` are not modelled: the source marks both as unused.
- `getInstanceList`, which `build_group_info` calls, is not modelled. BuildGroupInfo takes the decoded instance list, so a reply that is not a list is not covered.
- `sys.maxint` is taken as 2^63 - 1, as on a 64-bit Python 2.
- Platform: `urllib.pathname2url` is modelled as on POSIX, where it is `urllib.quote(s, "/")`, and Python 2 `str` values as byte strings. The script's own paths are Windows paths (getWaveUpdateTime.py:15). On Windows, `pathname2url` turns a backslash into "/" and raises IOError for a text with a ":" it cannot read as a drive; neither is modelled. `WaveTiming.Representable` takes the date range of a POSIX C library (years 1 to 9999); on Windows, `localtime` fails outside 1970 to 3000, so `fromtimestamp` raises ValueError on a wider range there.
- GroupUpdateTime: on an empty filtered set it returns the corrected NoBuilds. As written, get_group_update_time prints "Cannot find any build" and goes on, raising ValueError without an EPM build or printing a non-positive number without an FPA build; that result is MinutesAsWritten (AsWrittenEmptyEpmRaises, AsWrittenEmptyFpa), not what the method returns.
- SystemUpdateTime: the same corrected NoBuilds, where get_system_update_time goes on to the MinutesAsWritten result.
- Builds.Action: a "parameters" key holding JSON null, which raises TypeError at `len(parameters)`, is not modelled; a present list is a sequence and a missing key is None.
- CicMetadata.TenantUpdate and CicMetadata.SystemUpdate: update values are taken as decoded unicode text, so a non-ASCII value raises before sending. A Python 2 byte-string value with non-ASCII bytes, which would be encoded, sent and fail only at the `str()` of the echo, is not modelled.
- Builds.Sanitize: a build without "actions" raises KeyError in `pre_process_data`; the model's builds always carry their action list, so this case is not modelled.
