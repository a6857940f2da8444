/** Jenkins build records and `pre_process_data`, which cleans each build in
    place: it drops password parameters and actions without parameters, and
    copies the INSTANCE, FPA_DU_DIR and EPM_VERSION parameters to top-level
    keys of the build, deriving its `version` from them. */
module Builds {
  import opened PyJson

  /** One `{name, value}` entry of an action's `parameters` list. */
  datatype Param = Param(name: string, value: string)

  /** An entry of a build's `actions` list; `parameters` is None when the
      action has no such key (Jenkins reports many empty actions). */
  datatype Action = Action(parameters: Option<seq<Param>>)

  /** A build as the Jenkins tree query returns it, plus the string keys that
      preprocessing adds at the top level (`attrs`). */
  datatype Build = Build(number: int, timestamp: int, duration: int, actions: seq<Action>, attrs: map<string, string>)

  const SapPassword := "SAP_PASSWORD"
  const HanaPassword := "HANA_PASSWORD"
  const InstanceParam := "INSTANCE"
  const FpaDirParam := "FPA_DU_DIR"
  const EpmVersionParam := "EPM_VERSION"
  const VersionKey := "version"
  const InstanceKey := "instance"

  /** What the preprocessing loop makes of a parameter name. */
  datatype ParamKind = Secret | InstanceKind | FpaDirKind | EpmVersionKind | Other

  function KindOf(name: string): ParamKind {
    if name == SapPassword || name == HanaPassword then Secret
    else if name == InstanceParam then InstanceKind
    else if name == FpaDirParam then FpaDirKind
    else if name == EpmVersionParam then EpmVersionKind
    else Other
  }

  predicate IsSecret(name: string) {
    KindOf(name) == Secret
  }

  /** The parameters whose value is copied to the build. */
  predicate IsLifted(name: string) {
    KindOf(name) in {InstanceKind, FpaDirKind, EpmVersionKind}
  }

  /** `name.lower()` for the three lifted names: the key the value is
      copied to. */
  function LiftedKey(kind: ParamKind): (key: string)
    ensures key != VersionKey
  {
    match kind
    case InstanceKind => InstanceKey
    case FpaDirKind => "fpa_du_dir"
    case _ => "epm_version"
  }

  /** `s.rfind(c)`: the last position of `c`, or -1. */
  function RFind(s: string, c: char): (r: int)
    ensures -1 <= r < |s|
    ensures r >= 0 ==> s[r] == c
    ensures forall k :: r < k < |s| ==> s[k] != c
  {
    if s == [] then -1
    else if s[|s| - 1] == c then |s| - 1
    else RFind(s[..|s| - 1], c)
  }

  /** `value[value.rfind('/') + 1:]`: the text after the last slash, all of
      it when there is none. */
  function AfterLastSlash(s: string): (r: string)
    ensures '/' !in r
    ensures |r| <= |s| && s[|s| - |r|..] == r
    ensures |r| < |s| ==> s[|s| - |r| - 1] == '/'
    ensures '/' !in s ==> r == s
  {
    s[RFind(s, '/') + 1..]
  }

  /** The value one parameter writes under `key`, if it writes one:
      its own lower-cased name, and for EPM_VERSION and FPA_DU_DIR also
      "version". */
  function Writes(p: Param, key: string): Option<string> {
    var kind := KindOf(p.name);
    if !(kind in {InstanceKind, FpaDirKind, EpmVersionKind}) then None
    else if key == LiftedKey(kind) then Some(p.value)
    else if key == VersionKey && kind == EpmVersionKind then Some(p.value)
    else if key == VersionKey && kind == FpaDirKind then Some(AfterLastSlash(p.value))
    else None
  }

  /** The writes of the loop body for one parameter. */
  function LiftOne(attrs: map<string, string>, p: Param): map<string, string> {
    match KindOf(p.name)
    case EpmVersionKind => attrs[LiftedKey(EpmVersionKind) := p.value][VersionKey := p.value]
    case FpaDirKind => attrs[LiftedKey(FpaDirKind) := p.value][VersionKey := AfterLastSlash(p.value)]
    case InstanceKind => attrs[LiftedKey(InstanceKind) := p.value]
    case _ => attrs
  }

  /** One parameter's step changes exactly the keys it writes. */
  lemma LiftOneWrites(attrs: map<string, string>, p: Param, key: string)
    ensures key in LiftOne(attrs, p) <==> key in attrs || Writes(p, key).Some?
    ensures key in LiftOne(attrs, p) ==>
              LiftOne(attrs, p)[key] == if Writes(p, key).Some? then Writes(p, key).value else attrs[key]
  {
    var kind := KindOf(p.name);
    var lifted := LiftedKey(kind);
    match kind
    case EpmVersionKind =>
      assert LiftOne(attrs, p) == attrs[lifted := p.value][VersionKey := p.value];
    case FpaDirKind =>
      assert LiftOne(attrs, p) == attrs[lifted := p.value][VersionKey := AfterLastSlash(p.value)];
    case InstanceKind =>
      assert LiftOne(attrs, p) == attrs[lifted := p.value];
      assert Writes(p, key).Some? <==> key == lifted;
    case _ =>
      assert LiftOne(attrs, p) == attrs && Writes(p, key).None?;
  }

  /** The writes for a whole parameter list, walked from the last entry to
      the first: the first entry is written last. */
  function LiftParams(attrs: map<string, string>, ps: seq<Param>): map<string, string> {
    if ps == [] then attrs else LiftOne(LiftParams(attrs, ps[1..]), ps[0])
  }

  function ParamsOf(a: Action): seq<Param> {
    if a.parameters.Some? then a.parameters.value else []
  }

  /** The writes for a whole action list, walked from the last action. */
  function LiftActions(attrs: map<string, string>, acts: seq<Action>): map<string, string> {
    if acts == [] then attrs else LiftParams(LiftActions(attrs, acts[1..]), ParamsOf(acts[0]))
  }

  /** All parameters of all actions, in order. */
  function Flatten(acts: seq<Action>): seq<Param> {
    if acts == [] then [] else ParamsOf(acts[0]) + Flatten(acts[1..])
  }

  /** The reference reading: the value of the first parameter, in action
      then parameter order, that writes `key`. */
  function FirstWrite(ps: seq<Param>, key: string): (w: Option<string>)
    ensures w.Some? <==> exists j :: 0 <= j < |ps| && Writes(ps[j], key).Some?
  {
    if ps == [] then None
    else if Writes(ps[0], key).Some? then Writes(ps[0], key)
    else
      var w := FirstWrite(ps[1..], key);
      assert forall j :: 1 <= j < |ps| ==> ps[j] == ps[1..][j - 1];
      w
  }

  /** The params with the passwords deleted, in order. */
  function KeptParams(ps: seq<Param>): (r: seq<Param>)
    ensures forall i :: 0 <= i < |r| ==> !IsSecret(r[i].name)
  {
    if ps == [] then []
    else (if IsSecret(ps[0].name) then [] else [ps[0]]) + KeptParams(ps[1..])
  }

  /** Deleting the passwords keeps every other parameter, and a list without
      passwords is left as it is. */
  lemma {:induction false} KeptParamsMembers(ps: seq<Param>)
    ensures forall p :: p in KeptParams(ps) <==> p in ps && !IsSecret(p.name)
    ensures (forall i :: 0 <= i < |ps| ==> !IsSecret(ps[i].name)) ==> KeptParams(ps) == ps
  {
    if ps != [] {
      var rest := ps[1..];
      KeptParamsMembers(rest);
      var head := if IsSecret(ps[0].name) then [] else [ps[0]];
      assert KeptParams(ps) == head + KeptParams(rest);
      assert ps == [ps[0]] + rest;
      forall p
        ensures p in KeptParams(ps) <==> p in ps && !IsSecret(p.name)
      {
        assert p in ps <==> p == ps[0] || p in rest;
      }
      if forall i :: 0 <= i < |ps| ==> !IsSecret(ps[i].name) {
        assert forall i :: 0 <= i < |rest| ==> rest[i] == ps[i + 1];
      }
    }
  }

  /** The actions that have parameters, each with its passwords deleted. */
  function CleanActions(acts: seq<Action>): (r: seq<Action>)
    ensures |r| <= |acts|
    ensures forall i :: 0 <= i < |r| ==> r[i].parameters.Some?
    ensures forall i, j :: 0 <= i < |r| && 0 <= j < |r[i].parameters.value| ==> !IsSecret(r[i].parameters.value[j].name)
  {
    if acts == [] then []
    else
      (if acts[0].parameters.Some? then [Action(Some(KeptParams(acts[0].parameters.value)))] else [])
      + CleanActions(acts[1..])
  }

  /** What `pre_process_data` makes of one build. */
  function Sanitize(b: Build): (r: Build)
    ensures r.number == b.number && r.timestamp == b.timestamp && r.duration == b.duration
    ensures forall i :: 0 <= i < |r.actions| ==> r.actions[i].parameters.Some?
    ensures forall i, j :: 0 <= i < |r.actions| && 0 <= j < |r.actions[i].parameters.value| ==>
                             !IsSecret(r.actions[i].parameters.value[j].name)
  {
    b.(actions := CleanActions(b.actions), attrs := LiftActions(b.attrs, b.actions))
  }

  // ---------------------------------------------------------------- lemmas

  /** An action is kept, cleaned, exactly when it has a parameter list, even
      an empty one; the others are deleted. */
  lemma CleanActionsOfOne(act: Action)
    ensures act.parameters.Some? ==> CleanActions([act]) == [Action(Some(KeptParams(act.parameters.value)))]
    ensures act.parameters.None? ==> CleanActions([act]) == []
  {
    assert [act][1..] == [];
  }

  /** When every action has a parameter list, even an empty one, none is
      deleted. */
  lemma {:induction false} CleanActionsKeepsAll(acts: seq<Action>)
    requires forall i :: 0 <= i < |acts| ==> acts[i].parameters.Some?
    ensures |CleanActions(acts)| == |acts|
  {
    if acts != [] {
      assert forall i :: 0 <= i < |acts[1..]| ==> acts[1..][i] == acts[i + 1];
      CleanActionsKeepsAll(acts[1..]);
    }
  }

  /** The kept actions stay in their order: cleaning distributes over
      concatenation. */
  lemma {:induction false} CleanActionsAppend(a: seq<Action>, b: seq<Action>)
    ensures CleanActions(a + b) == CleanActions(a) + CleanActions(b)
    decreases |a|
  {
    if a == [] {
      assert a + b == b;
    } else {
      assert (a + b)[0] == a[0];
      assert (a + b)[1..] == a[1..] + b;
      CleanActionsAppend(a[1..], b);
    }
  }

  lemma {:induction false} LiftParamsAppend(attrs: map<string, string>, a: seq<Param>, b: seq<Param>)
    ensures LiftParams(attrs, a + b) == LiftParams(LiftParams(attrs, b), a)
    decreases |a|
  {
    if a == [] {
      assert a + b == b;
    } else {
      assert (a + b)[1..] == a[1..] + b;
      LiftParamsAppend(attrs, a[1..], b);
    }
  }

  /** Walking the actions backwards is walking all their parameters
      backwards. */
  lemma {:induction false} LiftActionsFlatten(attrs: map<string, string>, acts: seq<Action>)
    ensures LiftActions(attrs, acts) == LiftParams(attrs, Flatten(acts))
  {
    if acts != [] {
      LiftActionsFlatten(attrs, acts[1..]);
      LiftParamsAppend(attrs, ParamsOf(acts[0]), Flatten(acts[1..]));
    }
  }

  /** After the backward walk each key holds the value of the FIRST parameter
      that writes it, or its old value when none does. */
  lemma {:induction false} FirstWriteWins(attrs: map<string, string>, ps: seq<Param>, key: string)
    ensures key in LiftParams(attrs, ps) <==> key in attrs || FirstWrite(ps, key).Some?
    ensures key in LiftParams(attrs, ps) ==>
              LiftParams(attrs, ps)[key] == if FirstWrite(ps, key).Some? then FirstWrite(ps, key).value else attrs[key]
  {
    if ps != [] {
      FirstWriteWins(attrs, ps[1..], key);
      LiftOneWrites(LiftParams(attrs, ps[1..]), ps[0], key);
    }
  }

  lemma {:induction false} KeptParamsAppend(a: seq<Param>, b: seq<Param>)
    ensures KeptParams(a + b) == KeptParams(a) + KeptParams(b)
    decreases |a|
  {
    if a == [] {
      assert a + b == b;
    } else {
      assert (a + b)[1..] == a[1..] + b;
      KeptParamsAppend(a[1..], b);
    }
  }

  /** The parameters of the cleaned actions are the kept parameters. */
  lemma {:induction false} FlattenClean(acts: seq<Action>)
    ensures Flatten(CleanActions(acts)) == KeptParams(Flatten(acts))
  {
    if acts != [] {
      FlattenClean(acts[1..]);
      KeptParamsAppend(ParamsOf(acts[0]), Flatten(acts[1..]));
      var head := if acts[0].parameters.Some? then [Action(Some(KeptParams(acts[0].parameters.value)))] else [];
      var rest := CleanActions(acts[1..]);
      assert CleanActions(acts) == head + rest;
      if head == [] {
        assert head + rest == rest;
      } else {
        assert (head + rest)[0] == head[0] && (head + rest)[1..] == rest;
      }
    }
  }

  /** Passwords are never lifted, so deleting them changes no write. */
  lemma {:induction false} FirstWriteKept(ps: seq<Param>, key: string)
    ensures FirstWrite(KeptParams(ps), key) == FirstWrite(ps, key)
  {
    if ps != [] {
      FirstWriteKept(ps[1..], key);
      var head := if IsSecret(ps[0].name) then [] else [ps[0]];
      var rest := KeptParams(ps[1..]);
      if head != [] {
        assert (head + rest)[0] == ps[0] && (head + rest)[1..] == rest;
      } else {
        assert head + rest == rest;
      }
    }
  }

  /** The copied keys of a preprocessed build: "instance", "fpa_du_dir" and
      "epm_version" hold the first parameter of that name and "version" the
      first EPM_VERSION or FPA_DU_DIR, whichever comes first (the latter cut
      after its last slash); other keys are kept. */
  lemma SanitizedKey(b: Build, key: string)
    ensures var w := FirstWrite(Flatten(b.actions), key);
            && (key in Sanitize(b).attrs <==> key in b.attrs || w.Some?)
            && (key in Sanitize(b).attrs ==> Sanitize(b).attrs[key] == if w.Some? then w.value else b.attrs[key])
  {
    LiftActionsFlatten(b.attrs, b.actions);
    FirstWriteWins(b.attrs, Flatten(b.actions), key);
  }

  /** An EPM_VERSION parameter that comes first sets "version" to its value;
      an FPA_DU_DIR that comes first sets it to the text after its last slash. */
  lemma VersionFromFirstParam(b: Build, p: Param, rest: seq<Action>)
    requires KindOf(p.name) in {FpaDirKind, EpmVersionKind}
    requires b.actions == [Action(Some([p]))] + rest
    ensures VersionKey in Sanitize(b).attrs
    ensures Sanitize(b).attrs[VersionKey] == if KindOf(p.name) == EpmVersionKind then p.value else AfterLastSlash(p.value)
    ensures Sanitize(b).attrs[LiftedKey(KindOf(p.name))] == p.value
  {
    assert b.actions[1..] == rest;
    assert Flatten(b.actions) == [p] + Flatten(rest);
    SanitizedKey(b, VersionKey);
    SanitizedKey(b, LiftedKey(KindOf(p.name)));
  }

  /** Preprocessing an already preprocessed build changes nothing. */
  lemma SanitizeIdempotent(b: Build)
    ensures Sanitize(Sanitize(b)) == Sanitize(b)
  {
    var once := Sanitize(b);
    var twice := Sanitize(once);
    CleanIdempotent(b.actions);
    forall key
      ensures (key in twice.attrs <==> key in once.attrs)
      ensures key in twice.attrs ==> twice.attrs[key] == once.attrs[key]
    {
      SanitizedKey(b, key);
      SanitizedKey(once, key);
      FlattenClean(b.actions);
      FirstWriteKept(Flatten(b.actions), key);
    }
    assert twice.attrs == once.attrs;
  }

  lemma {:induction false} CleanIdempotent(acts: seq<Action>)
    ensures CleanActions(CleanActions(acts)) == CleanActions(acts)
  {
    if acts != [] {
      CleanIdempotent(acts[1..]);
      if acts[0].parameters.Some? {
        KeptParamsMembers(KeptParams(acts[0].parameters.value));
      }
      var head := if acts[0].parameters.Some? then [Action(Some(KeptParams(acts[0].parameters.value)))] else [];
      var rest := CleanActions(acts[1..]);
      if head == [] {
        assert head + rest == rest;
      } else {
        assert (head + rest)[0] == head[0] && (head + rest)[1..] == rest;
      }
    }
  }

  // ---------------------------------------------------------------- methods

  /** The copy step of the inner loop for one parameter. */
  method LiftParam(attrs0: map<string, string>, param: Param) returns (attrs: map<string, string>)
    ensures attrs == LiftOne(attrs0, param)
  {
    attrs := attrs0;
    var kind := KindOf(param.name);
    if kind == InstanceKind || kind == FpaDirKind || kind == EpmVersionKind {
      attrs := attrs[LiftedKey(kind) := param.value];
      if kind == EpmVersionKind {
        attrs := attrs[VersionKey := param.value];
      } else if kind == FpaDirKind {
        var index := RFind(param.value, '/');
        var version := param.value[index + 1..];
        assert version == AfterLastSlash(param.value);
        attrs := attrs[VersionKey := version];
      }
    }
  }

  /** One backward step over a parameter list. */
  lemma ParamsStep(attrs: map<string, string>, ps: seq<Param>, j: nat)
    requires j < |ps|
    ensures KeptParams(ps[j..]) == (if IsSecret(ps[j].name) then [] else [ps[j]]) + KeptParams(ps[j + 1..])
    ensures LiftParams(attrs, ps[j..]) == LiftOne(LiftParams(attrs, ps[j + 1..]), ps[j])
  {
    assert ps[j..][0] == ps[j] && ps[j..][1..] == ps[j + 1..];
  }

  /** The list as the backward loop holds it before and after position `j`:
      deleting a password there, or keeping any other parameter, gives the
      list for `j`. */
  lemma DeleteStep(ps: seq<Param>, j: nat)
    requires j < |ps|
    ensures var cur := ps[..j + 1] + KeptParams(ps[j + 1..]);
            && cur[j] == ps[j]
            && (IsSecret(ps[j].name) ==> cur[..j] + cur[j + 1..] == ps[..j] + KeptParams(ps[j..]))
            && (!IsSecret(ps[j].name) ==> cur == ps[..j] + KeptParams(ps[j..]))
  {
    var cur := ps[..j + 1] + KeptParams(ps[j + 1..]);
    ParamsStep(map[], ps, j);
    assert cur[j] == ps[..j + 1][j];
    assert cur[..j] == ps[..j] && cur[j + 1..] == KeptParams(ps[j + 1..]);
    assert ps[..j + 1] == ps[..j] + [ps[j]];
  }

  /** One backward step over an action list. */
  lemma ActionsStep(attrs: map<string, string>, acts: seq<Action>, i: nat)
    requires i < |acts|
    ensures CleanActions(acts[i..]) ==
              (if acts[i].parameters.Some? then [Action(Some(KeptParams(acts[i].parameters.value)))] else [])
              + CleanActions(acts[i + 1..])
    ensures LiftActions(attrs, acts[i..]) == LiftParams(LiftActions(attrs, acts[i + 1..]), ParamsOf(acts[i]))
  {
    assert acts[i..][0] == acts[i] && acts[i..][1..] == acts[i + 1..];
  }

  /** The inner loop for one action: walks `parameters` from the end,
      deleting passwords where they stand and lifting the copied keys. */
  method CleanParameters(ps: seq<Param>, attrs0: map<string, string>)
      returns (parameters: seq<Param>, attrs: map<string, string>)
    ensures parameters == KeptParams(ps)
    ensures attrs == LiftParams(attrs0, ps)
  {
    parameters, attrs := ps, attrs0;
    var j := |ps|;
    while j > 0
      invariant 0 <= j <= |ps|
      invariant parameters == ps[..j] + KeptParams(ps[j..])
      invariant attrs == LiftParams(attrs0, ps[j..])
    {
      j := j - 1;
      ParamsStep(attrs0, ps, j);
      DeleteStep(ps, j);
      var param := parameters[j];
      if IsSecret(param.name) {
        parameters := parameters[..j] + parameters[j + 1..];
      }
      attrs := LiftParam(attrs, param);
    }
    assert ps[..0] == [] && ps[0..] == ps;
  }

  /** The loop body of `pre_process_data` for one build: walks `actions`
      from the end, deleting those without parameters. */
  method SanitizeBuild(b: Build) returns (r: Build)
    ensures r == Sanitize(b)
  {
    var actions := b.actions;
    var attrs := b.attrs;
    var i := |actions|;
    while i > 0
      invariant 0 <= i <= |b.actions|
      invariant actions == b.actions[..i] + CleanActions(b.actions[i..])
      invariant attrs == LiftActions(b.attrs, b.actions[i..])
    {
      i := i - 1;
      ActionsStep(b.attrs, b.actions, i);
      assert actions[i] == b.actions[i] by {
        assert (b.actions[..i + 1] + CleanActions(b.actions[i + 1..]))[i] == b.actions[..i + 1][i];
      }
      if actions[i].parameters.Some? {
        var parameters, lifted := CleanParameters(actions[i].parameters.value, attrs);
        attrs := lifted;
        actions := actions[i := Action(Some(parameters))];
        assert actions == b.actions[..i] + ([Action(Some(parameters))] + CleanActions(b.actions[i + 1..]));
      } else {
        actions := actions[..i] + actions[i + 1..];
        assert actions == b.actions[..i] + CleanActions(b.actions[i + 1..]);
      }
    }
    assert b.actions[..0] == [] && b.actions[0..] == b.actions;
    r := b.(actions := actions, attrs := attrs);
  }

  /** `pre_process_data`: every build of the list is cleaned in place. */
  method PreProcess(builds: array<Build>)
    modifies builds
    ensures forall k :: 0 <= k < builds.Length ==> builds[k] == Sanitize(old(builds[k]))
  {
    for k := 0 to builds.Length
      invariant forall m :: 0 <= m < k ==> builds[m] == Sanitize(old(builds[m]))
      invariant forall m :: k <= m < builds.Length ==> builds[m] == old(builds[m])
    {
      var cleaned := SanitizeBuild(builds[k]);
      builds[k] := cleaned;
    }
  }
}
