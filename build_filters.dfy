/** Selecting preprocessed builds: by system and version
    (`filter_builds_by_system_version`), by update group and version
    (`filter_builds_by_group_version`), and the group → instance names table
    that `build_group_info` builds from the CIC instance list. */
module BuildFilters {
  import opened PyJson
  import opened Builds

  /** The condition a filter keeps a build by. */
  datatype Criterion =
    | SystemVersion(ins: string, ver: string)
    | GroupVersion(members: seq<Json>, ver: string)
    | MissingKeys

  /** The build carries both keys the group filter reads. */
  predicate Keyed(b: Build) {
    VersionKey in b.attrs && InstanceKey in b.attrs
  }

  predicate Keeps(c: Criterion, b: Build) {
    match c
    case SystemVersion(ins, ver) =>
      InstanceKey in b.attrs && b.attrs[InstanceKey] == ins && VersionKey in b.attrs && b.attrs[VersionKey] == ver
    case GroupVersion(members, ver) =>
      Keyed(b) && b.attrs[VersionKey] == ver && JStr(b.attrs[InstanceKey]) in members
    case MissingKeys => !Keyed(b)
  }

  /** The builds that satisfy `c`, in their original order. */
  function Select(builds: seq<Build>, c: Criterion): (r: seq<Build>)
    ensures |r| <= |builds|
  {
    if builds == [] then []
    else
      var n := |builds|;
      Select(builds[..n - 1], c) + (if Keeps(c, builds[n - 1]) then [builds[n - 1]] else [])
  }

  lemma SelectSnoc(builds: seq<Build>, c: Criterion, b: Build)
    ensures Select(builds + [b], c) == Select(builds, c) + (if Keeps(c, b) then [b] else [])
  {
    var s := builds + [b];
    assert s[..|s| - 1] == builds && s[|s| - 1] == b;
  }

  /** Every selected build satisfies the criterion. */
  lemma {:induction false} SelectKeeps(builds: seq<Build>, c: Criterion)
    ensures forall i :: 0 <= i < |Select(builds, c)| ==> Keeps(c, Select(builds, c)[i])
  {
    if builds != [] {
      SelectKeeps(builds[..|builds| - 1], c);
    }
  }

  /** Selecting from a concatenation selects from each part. */
  lemma {:induction false} SelectAppend(a: seq<Build>, b: seq<Build>, c: Criterion)
    ensures Select(a + b, c) == Select(a, c) + Select(b, c)
    decreases |b|
  {
    if b == [] {
      assert a + b == a;
      assert Select(a, c) + [] == Select(a, c);
    } else {
      var front, x := b[..|b| - 1], b[|b| - 1];
      assert b == front + [x];
      SelectAppend(a, front, c);
      SelectAppendStep(a, front, x, c);
    }
  }

  /** The step of the induction: one more build at the end of the second list. */
  lemma SelectAppendStep(a: seq<Build>, front: seq<Build>, x: Build, c: Criterion)
    requires Select(a + front, c) == Select(a, c) + Select(front, c)
    ensures Select(a + (front + [x]), c) == Select(a, c) + Select(front + [x], c)
  {
    var af := a + front;
    assert a + (front + [x]) == af + [x];
    SelectSnoc(af, c, x);
    SelectSnoc(front, c, x);
    var tail := if Keeps(c, x) then [x] else [];
    assert (Select(a, c) + Select(front, c)) + tail == Select(a, c) + (Select(front, c) + tail);
  }

  /** A build is selected exactly when it is in the list and satisfies `c`. */
  lemma {:induction false} SelectMembers(builds: seq<Build>, c: Criterion, b: Build)
    ensures b in Select(builds, c) <==> b in builds && Keeps(c, b)
  {
    if builds != [] {
      var n := |builds|;
      SelectMembers(builds[..n - 1], c, b);
      assert builds == builds[..n - 1] + [builds[n - 1]];
    }
  }

  /** Two criteria that agree on every build select the same builds. */
  lemma {:induction false} SelectAgrees(builds: seq<Build>, c1: Criterion, c2: Criterion)
    requires forall i :: 0 <= i < |builds| ==> (Keeps(c1, builds[i]) <==> Keeps(c2, builds[i]))
    ensures Select(builds, c1) == Select(builds, c2)
  {
    if builds != [] {
      SelectAgrees(builds[..|builds| - 1], c1, c2);
    }
  }

  /** No build is both matched and invalid, and together they are no more
      than the input. */
  lemma GroupSplitDisjoint(builds: seq<Build>, members: seq<Json>, ver: string)
    ensures forall i, j :: 0 <= i < |Select(builds, GroupVersion(members, ver))| && 0 <= j < |Select(builds, MissingKeys)|
                           ==> Select(builds, GroupVersion(members, ver))[i] != Select(builds, MissingKeys)[j]
    ensures |Select(builds, GroupVersion(members, ver))| + |Select(builds, MissingKeys)| <= |builds|
  {
    SelectKeeps(builds, GroupVersion(members, ver));
    SelectKeeps(builds, MissingKeys);
    GroupSplitCount(builds, members, ver);
  }

  lemma {:induction false} GroupSplitCount(builds: seq<Build>, members: seq<Json>, ver: string)
    ensures |Select(builds, GroupVersion(members, ver))| + |Select(builds, MissingKeys)| <= |builds|
  {
    if builds != [] {
      GroupSplitCount(builds[..|builds| - 1], members, ver);
    }
  }

  // ---------------------------------------------------------------- by system

  /** `build['instance'] == ins and build['version'] == ver` raises a
      KeyError: "instance" is read first, "version" only when it matches. */
  predicate RaisesOnSystem(b: Build, ins: string) {
    InstanceKey !in b.attrs || (b.attrs[InstanceKey] == ins && VersionKey !in b.attrs)
  }

  /** `filter_builds_by_system_version`. Writing the result to a file is not
      modelled. */
  method FilterBySystemVersion(builds: seq<Build>, ins: string, ver: string) returns (r: Result<seq<Build>, PyError>)
    ensures r.Err? <==> exists k :: 0 <= k < |builds| && RaisesOnSystem(builds[k], ins)
    ensures r.Err? ==> r.error == KeyError
    ensures r.Ok? ==> r.value == Select(builds, SystemVersion(ins, ver))
  {
    var selected := [];
    var i := 0;
    while i < |builds|
      invariant 0 <= i <= |builds|
      invariant forall k :: 0 <= k < i ==> !RaisesOnSystem(builds[k], ins)
      invariant selected == Select(builds[..i], SystemVersion(ins, ver))
    {
      var build := builds[i];
      SelectSnoc(builds[..i], SystemVersion(ins, ver), build);
      assert builds[..i + 1] == builds[..i] + [build];
      if InstanceKey !in build.attrs {
        return Err(KeyError);
      }
      if build.attrs[InstanceKey] == ins {
        if VersionKey !in build.attrs {
          return Err(KeyError);
        }
        if build.attrs[VersionKey] == ver {
          selected := selected + [build];
        }
      }
      i := i + 1;
    }
    assert builds[..i] == builds;
    r := Ok(selected);
  }

  // ---------------------------------------------------------------- by group

  datatype GroupSplit = GroupSplit(matched: seq<Build>, invalid: seq<Build>)

  /** `filter_builds_by_group_version`: `group_info[group]` raises a
      KeyError for an unknown group; builds without "version" or "instance"
      go to the invalid list (which the source writes to a file), the others
      are matched on version and membership. */
  method FilterByGroupVersion(builds: seq<Build>, groupInfo: map<string, seq<Json>>, group: string, ver: string)
      returns (r: Result<GroupSplit, PyError>)
    ensures r.Err? <==> group !in groupInfo
    ensures r.Err? ==> r.error == KeyError
    ensures r.Ok? ==> r.value == GroupSplit(Select(builds, GroupVersion(groupInfo[group], ver)), Select(builds, MissingKeys))
  {
    if group !in groupInfo {
      return Err(KeyError);
    }
    var instances := groupInfo[group];
    var selected, invalid := [], [];
    var i := 0;
    while i < |builds|
      invariant 0 <= i <= |builds|
      invariant selected == Select(builds[..i], GroupVersion(instances, ver))
      invariant invalid == Select(builds[..i], MissingKeys)
    {
      var build := builds[i];
      SelectSnoc(builds[..i], GroupVersion(instances, ver), build);
      SelectSnoc(builds[..i], MissingKeys, build);
      assert builds[..i + 1] == builds[..i] + [build];
      if VersionKey !in build.attrs || InstanceKey !in build.attrs {
        invalid := invalid + [build];
      } else if build.attrs[VersionKey] == ver && JStr(build.attrs[InstanceKey]) in instances {
        selected := selected + [build];
      }
      i := i + 1;
    }
    assert builds[..i] == builds;
    r := Ok(GroupSplit(selected, invalid));
  }

  /** On builds that all carry both keys, a group of one instance selects
      what the system filter selects, and the system filter does not raise. */
  lemma SingleMemberGroup(builds: seq<Build>, ins: string, ver: string)
    requires forall k :: 0 <= k < |builds| ==> Keyed(builds[k])
    ensures Select(builds, GroupVersion([JStr(ins)], ver)) == Select(builds, SystemVersion(ins, ver))
    ensures forall k :: 0 <= k < |builds| ==> !RaisesOnSystem(builds[k], ins)
  {
    SelectAgrees(builds, GroupVersion([JStr(ins)], ver), SystemVersion(ins, ver));
  }

  // ---------------------------------------------------------------- groups

  /** The update groups `build_group_info` keeps, in its order. */
  const WaveGroups := ["Group1-EU", "Group1-AP", "Group1-US", "Group2-EU", "Group2-AP", "Group2-US",
                       "Group3-EU", "Group3-AP", "Group3-US"]

  /** An entry whose "details" can be read as a dictionary. */
  predicate HasDetails(entry: Json) {
    entry.JObj? && "details" in entry.fields && entry.fields["details"].JObj?
  }

  /** `group in groups`: equal to one of the wave group names; a value that is
      no string equals none of them. */
  predicate InWaveGroups(group: Json) {
    group.JStr? && group.s in WaveGroups
  }

  /** One entry of the instance list: its update group and name when the
      group is one of the wave groups, None when it is not; reading
      `i["details"]["updateGroup"]` and then `["name"]` may raise. */
  function EntryGroup(entry: Json): (r: Result<Option<(string, Json)>, PyError>)
    ensures r.Ok? && r.value.Some? ==> r.value.value.0 in WaveGroups
    ensures !entry.JObj? ==> r == Err(TypeError)
    ensures entry.JObj? && "details" !in entry.fields ==> r == Err(KeyError)
    ensures entry.JObj? && "details" in entry.fields && !entry.fields["details"].JObj? ==> r == Err(TypeError)
    ensures HasDetails(entry) ==>
              var d := entry.fields["details"].fields;
              && ("updateGroup" !in d ==> r == Err(KeyError))
              && ("updateGroup" in d && !InWaveGroups(d["updateGroup"]) ==> r == Ok(None))
              && ("updateGroup" in d && InWaveGroups(d["updateGroup"]) && "name" !in d ==> r == Err(KeyError))
              && ("updateGroup" in d && InWaveGroups(d["updateGroup"]) && "name" in d ==>
                    r == Ok(Some((d["updateGroup"].s, d["name"]))))
  {
    match entry
    case JObj(top) =>
      if "details" !in top then Err(KeyError)
      else
        (match top["details"]
         case JObj(details) =>
           if "updateGroup" !in details then Err(KeyError)
           else if !InWaveGroups(details["updateGroup"]) then Ok(None)
           else if "name" !in details then Err(KeyError)
           else Ok(Some((details["updateGroup"].s, details["name"])))
         case _ => Err(TypeError))
    case _ => Err(TypeError)
  }

  /** `group_information.setdefault(group, []).append(name)`. */
  function AddMember(info: map<string, seq<Json>>, group: string, name: Json): (r: map<string, seq<Json>>)
    ensures r.Keys == info.Keys + {group}
    ensures r[group] == (if group in info then info[group] else []) + [name]
    ensures forall g :: g in info && g != group ==> r[g] == info[g]
  {
    info[group := (if group in info then info[group] else []) + [name]]
  }

  /** The table after the loop over the entries; the first entry that raises
      ends it. */
  function GroupInfoOf(entries: seq<Json>): Result<map<string, seq<Json>>, PyError> {
    if entries == [] then Ok(map[])
    else
      var prev := GroupInfoOf(entries[..|entries| - 1]);
      var last := EntryGroup(entries[|entries| - 1]);
      if prev.Err? then prev
      else if last.Err? then Err(last.error)
      else if last.value.None? then prev
      else Ok(AddMember(prev.value, last.value.value.0, last.value.value.1))
  }

  /** The reference reading: the names of the entries in `group`, in order. */
  function MembersOf(entries: seq<Json>, group: string): seq<Json> {
    if entries == [] then []
    else
      var last := EntryGroup(entries[|entries| - 1]);
      MembersOf(entries[..|entries| - 1], group)
      + (if last.Ok? && last.value.Some? && last.value.value.0 == group then [last.value.value.1] else [])
  }

  /** Each group of the table lists exactly its members in input order, and
      only wave groups with at least one member appear. */
  lemma {:induction false} GroupInfoMembers(entries: seq<Json>, group: string)
    requires GroupInfoOf(entries).Ok?
    ensures group in GroupInfoOf(entries).value <==> MembersOf(entries, group) != []
    ensures group in GroupInfoOf(entries).value ==> group in WaveGroups && GroupInfoOf(entries).value[group] == MembersOf(entries, group)
  {
    if entries != [] {
      GroupInfoMembers(entries[..|entries| - 1], group);
    }
  }

  /** An entry that names a wave group is among that group's members. */
  lemma {:induction false} MembersOfListsEntry(entries: seq<Json>, k: nat)
    requires k < |entries| && EntryGroup(entries[k]).Ok? && EntryGroup(entries[k]).value.Some?
    ensures EntryGroup(entries[k]).value.value.1 in MembersOf(entries, EntryGroup(entries[k]).value.value.0)
    decreases |entries|
  {
    if k < |entries| - 1 {
      var init := entries[..|entries| - 1];
      assert init[k] == entries[k];
      MembersOfListsEntry(init, k);
    }
  }

  /** When the loop completes, every entry whose details hold a wave group
      and a name has that name listed under its group. */
  lemma WaveEntryReported(entries: seq<Json>, k: nat)
    requires GroupInfoOf(entries).Ok? && k < |entries| && HasDetails(entries[k])
    requires "updateGroup" in entries[k].fields["details"].fields && "name" in entries[k].fields["details"].fields
    requires InWaveGroups(entries[k].fields["details"].fields["updateGroup"])
    ensures var d := entries[k].fields["details"].fields;
            d["updateGroup"].s in GroupInfoOf(entries).value && d["name"] in GroupInfoOf(entries).value[d["updateGroup"].s]
  {
    var d := entries[k].fields["details"].fields;
    MembersOfListsEntry(entries, k);
    GroupInfoMembers(entries, d["updateGroup"].s);
  }

  lemma GroupInfoSnoc(entries: seq<Json>, e: Json)
    ensures GroupInfoOf(entries + [e]) ==
              var prev := GroupInfoOf(entries);
              var last := EntryGroup(e);
              if prev.Err? then prev
              else if last.Err? then Err(last.error)
              else if last.value.None? then prev
              else Ok(AddMember(prev.value, last.value.value.0, last.value.value.1))
  {
    var s := entries + [e];
    assert s[..|s| - 1] == entries && s[|s| - 1] == e;
  }

  /** Once a prefix raises, the whole list raises the same. */
  lemma {:induction false} GroupInfoErrorSticks(entries: seq<Json>, j: nat)
    requires j <= |entries| && GroupInfoOf(entries[..j]).Err?
    ensures GroupInfoOf(entries) == GroupInfoOf(entries[..j])
    decreases |entries| - j
  {
    if j < |entries| {
      assert entries[..j + 1][..j] == entries[..j];
      GroupInfoErrorSticks(entries, j + 1);
    } else {
      assert entries[..j] == entries;
    }
  }

  /** The loop of `build_group_info` over the instance list (the CIC lookup
      and the file write are not modelled). */
  method BuildGroupInfo(entries: seq<Json>) returns (r: Result<map<string, seq<Json>>, PyError>)
    ensures r == GroupInfoOf(entries)
  {
    var groupInformation: map<string, seq<Json>> := map[];
    var i := 0;
    while i < |entries|
      invariant 0 <= i <= |entries|
      invariant GroupInfoOf(entries[..i]) == Ok(groupInformation)
    {
      assert entries[..i + 1] == entries[..i] + [entries[i]];
      GroupInfoSnoc(entries[..i], entries[i]);
      var entry := EntryGroup(entries[i]);
      if entry.Err? {
        GroupInfoErrorSticks(entries, i + 1);
        return Err(entry.error);
      }
      if entry.value.Some? {
        var (group, name) := entry.value.value;
        var members := if group in groupInformation then groupInformation[group] else [];
        groupInformation := groupInformation[group := members + [name]];
      }
      i := i + 1;
    }
    assert entries[..i] == entries;
    r := Ok(groupInformation);
  }
}
