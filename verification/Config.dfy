// Layered configuration (src/config/index.ts): deepMerge, the layering in
// loadConfig, and the three rewrites that follow it.
//
// Schema validation comes after all this and is not part of the model, nor is the
// one key JavaScript treats specially, `__proto__`.
module Config {
  import opened Prelude
  import Text

  datatype Json =
    | Null
    | Scalar(number: int)
    | Str(text: string)
    | Arr(items: seq<Json>)
    | Obj(fields: map<string, Json>)

  const EMPTY := Obj(map[])

  // ---------------------------------------------------------------------
  // Merging
  // ---------------------------------------------------------------------

  /** Objects merge key by key; anything else in the source replaces what is there. */
  function Over(target: Json, source: Json): Json
    decreases source
  {
    if target.Obj? && source.Obj? then
      Obj(map k | k in target.fields.Keys + source.fields.Keys ::
        if k !in source.fields then target.fields[k]
        else if k !in target.fields then source.fields[k]
        else Over(target.fields[k], source.fields[k]))
    else source
  }

  lemma {:induction false} OverAt(target: Json, source: Json, key: string)
    requires target.Obj? && source.Obj?
    ensures Over(target, source).Obj? && Over(target, source).fields.Keys == target.fields.Keys + source.fields.Keys
    ensures key in target.fields && key !in source.fields ==> Over(target, source).fields[key] == target.fields[key]
    ensures key in source.fields && key !in target.fields ==> Over(target, source).fields[key] == source.fields[key]
    ensures key in source.fields && key in target.fields ==>
              Over(target, source).fields[key] == Over(target.fields[key], source.fields[key])
  {
  }

  /** The merge with the source's keys in `left` still to do. */
  ghost predicate Partly(target: Json, source: Json, left: set<string>, fields: map<string, Json>)
    requires target.Obj? && source.Obj?
  {
    && left <= source.fields.Keys
    && fields.Keys == target.fields.Keys + (source.fields.Keys - left)
    && (forall k :: k in target.fields && (k in left || k !in source.fields) ==> fields[k] == target.fields[k])
    && (forall k :: k in source.fields && k !in left ==> fields[k] == Over(target, source).fields[k])
  }

  lemma {:induction false} PartlyNext(target: Json, source: Json, left: set<string>, fields: map<string, Json>,
                                      key: string, v: Json)
    requires target.Obj? && source.Obj? && Partly(target, source, left, fields)
    requires key in left && v == Over(target, source).fields[key]
    ensures Partly(target, source, left - {key}, fields[key := v])
  {
  }

  lemma {:induction false} PartlyDone(target: Json, source: Json, fields: map<string, Json>)
    requires target.Obj? && source.Obj? && Partly(target, source, {}, fields)
    ensures Obj(fields) == Over(target, source)
  {
    forall k | k in fields
      ensures fields[k] == Over(target, source).fields[k]
    {
      OverAt(target, source, k);
    }
    assert fields == Over(target, source).fields;
  }

  method DeepMerge(target: Json, source: Json) returns (result: Json)
    requires target.Obj? && source.Obj?
    ensures result == Over(target, source)
    decreases source
  {
    var fields := target.fields;
    var left := source.fields.Keys;
    while left != {}
      invariant Partly(target, source, left, fields)
      decreases |left|
    {
      var key :| key in left;
      var sourceVal := source.fields[key];
      OverAt(target, source, key);
      if sourceVal.Obj? && key in fields && fields[key].Obj? {
        var merged := DeepMerge(fields[key], sourceVal);
        PartlyNext(target, source, left, fields, key, merged);
        fields := fields[key := merged];
      } else {
        PartlyNext(target, source, left, fields, key, sourceVal);
        fields := fields[key := sourceVal];
      }
      left := left - {key};
    }
    PartlyDone(target, source, fields);
    result := Obj(fields);
  }

  lemma {:induction false} EmptyIsIdentity(j: Json)
    requires j.Obj?
    ensures Over(j, EMPTY) == j && Over(EMPTY, j) == j
  {
    assert Over(j, EMPTY).fields == j.fields;
    assert Over(EMPTY, j).fields == j.fields;
  }

  lemma {:induction false} OverItself(j: Json)
    ensures Over(j, j) == j
  {
    if j.Obj? {
      forall k | k in j.fields
        ensures Over(j, j).fields[k] == j.fields[k]
      {
        OverItself(j.fields[k]);
      }
      assert Over(j, j).fields == j.fields;
    }
  }

  /** Merging the same source again changes nothing. */
  lemma {:induction false} RepeatIsAbsorbed(target: Json, source: Json)
    ensures Over(Over(target, source), source) == Over(target, source)
    decreases source
  {
    if target.Obj? && source.Obj? {
      var once := Over(target, source);
      forall k | k in once.fields
        ensures Over(once, source).fields[k] == once.fields[k]
      {
        if k in source.fields {
          if k in target.fields {
            RepeatIsAbsorbed(target.fields[k], source.fields[k]);
          } else {
            OverItself(source.fields[k]);
          }
        }
      }
      assert Over(once, source).fields == once.fields;
    } else {
      OverItself(source);
    }
  }

  // ---------------------------------------------------------------------
  // When merging is associative
  // ---------------------------------------------------------------------

  /** Everything `inner` has a say in, `outer` has the last word on. */
  predicate Within(inner: Json, outer: Json)
    decreases outer
  {
    inner.Obj? && outer.Obj? ==>
      forall k :: k in inner.fields ==> k in outer.fields && Within(inner.fields[k], outer.fields[k])
  }

  lemma {:induction false} WithinIffOverridden(inner: Json, outer: Json)
    ensures Over(inner, outer) == outer <==> Within(inner, outer)
    decreases outer
  {
    if inner.Obj? && outer.Obj? {
      var merged := Over(inner, outer);
      forall k | k in inner.fields && k in outer.fields
        ensures merged.fields[k] == outer.fields[k] <==> Within(inner.fields[k], outer.fields[k])
      {
        WithinIffOverridden(inner.fields[k], outer.fields[k]);
      }
      if Within(inner, outer) {
        assert merged.fields == outer.fields;
      } else {
        var k :| k in inner.fields && !(k in outer.fields && Within(inner.fields[k], outer.fields[k]));
        assert k in merged.fields;
      }
    }
  }

  /**
   * Where the middle layer cuts off an object that the last layer reopens, the
   * first layer's object must have nothing to add to the last one's.
   */
  predicate Compatible(a: Json, b: Json, c: Json)
    decreases c
  {
    && (a.Obj? && !b.Obj? && c.Obj? ==> Within(a, c))
    && (a.Obj? && b.Obj? && c.Obj? ==>
          forall k :: k in a.fields && k in b.fields && k in c.fields ==>
            Compatible(a.fields[k], b.fields[k], c.fields[k]))
  }

  lemma {:induction false} AssociativeAt(a: Json, b: Json, c: Json, k: string)
    requires a.Obj? && b.Obj? && c.Obj? && (k in a.fields || k in b.fields || k in c.fields)
    ensures var left, right := Over(Over(a, b), c), Over(a, Over(b, c));
            && left.Obj? && right.Obj? && k in left.fields && k in right.fields
            && (k in a.fields && k in b.fields && k in c.fields ==>
                  && left.fields[k] == Over(Over(a.fields[k], b.fields[k]), c.fields[k])
                  && right.fields[k] == Over(a.fields[k], Over(b.fields[k], c.fields[k])))
            && (!(k in a.fields && k in b.fields && k in c.fields) ==> left.fields[k] == right.fields[k])
  {
  }

  /** Merging three layers does not depend on the bracketing iff the layers are compatible. */
  lemma {:induction false} AssociativeIffCompatible(a: Json, b: Json, c: Json)
    ensures Over(Over(a, b), c) == Over(a, Over(b, c)) <==> Compatible(a, b, c)
    decreases c
  {
    if a.Obj? && b.Obj? && c.Obj? {
      var left, right := Over(Over(a, b), c), Over(a, Over(b, c));
      forall k | k in a.fields && k in b.fields && k in c.fields
        ensures left.fields[k] == right.fields[k] <==> Compatible(a.fields[k], b.fields[k], c.fields[k])
      {
        AssociativeIffCompatible(a.fields[k], b.fields[k], c.fields[k]);
        AssociativeAt(a, b, c, k);
      }
      SameKeys(a, b, c);
      if Compatible(a, b, c) {
        forall k | k in left.fields
          ensures left.fields[k] == right.fields[k]
        {
          AssociativeAt(a, b, c, k);
        }
        assert left.fields == right.fields;
      }
    } else if a.Obj? && c.Obj? {
      WithinIffOverridden(a, c);
    }
  }

  lemma {:induction false} SameKeys(a: Json, b: Json, c: Json)
    requires a.Obj? && b.Obj? && c.Obj?
    ensures Over(Over(a, b), c).fields.Keys == Over(a, Over(b, c)).fields.Keys
    ensures Over(Over(a, b), c).fields.Keys == a.fields.Keys + b.fields.Keys + c.fields.Keys
  {
  }

  // ---------------------------------------------------------------------
  // Which layer a setting comes from
  // ---------------------------------------------------------------------

  type Path = seq<string>

  function At(j: Json, path: Path): Option<Json> {
    if path == [] then Some(j)
    else if j.Obj? && path[0] in j.fields then At(j.fields[path[0]], path[1..])
    else None
  }

  /** The layer says nothing about the path: the walk ends at an object without the next key. */
  predicate Silent(j: Json, path: Path) {
    path != [] && j.Obj? && (path[0] in j.fields ==> Silent(j.fields[path[0]], path[1..]))
  }

  /** A setting of a merged layer is the source's, or the target's where the source is silent. */
  lemma {:induction false} SettingComesFrom(target: Json, source: Json, path: Path, v: Json)
    requires target.Obj? && source.Obj? && !v.Obj?
    ensures At(Over(target, source), path) == Some(v) <==>
              At(source, path) == Some(v) || (Silent(source, path) && At(target, path) == Some(v))
    decreases |path|
  {
    if path != [] {
      var k, rest := path[0], path[1..];
      OverAt(target, source, k);
      if k in target.fields && k in source.fields && target.fields[k].Obj? && source.fields[k].Obj? {
        SettingComesFrom(target.fields[k], source.fields[k], rest, v);
      }
    }
  }

  /** What three layers together say about a setting: overrides over environment over file. */
  predicate SettingIs(file: Json, env: Json, overrides: Json, path: Path, v: Json) {
    || At(overrides, path) == Some(v)
    || (Silent(overrides, path) &&
        (At(env, path) == Some(v) || (Silent(env, path) && At(file, path) == Some(v))))
  }

  function Layered(file: Json, env: Json, overrides: Json): Json {
    Over(Over(file, env), overrides)
  }

  lemma {:induction false} OverridesOverEnvOverFile(file: Json, env: Json, overrides: Json, path: Path, v: Json)
    requires file.Obj? && env.Obj? && overrides.Obj? && !v.Obj?
    ensures At(Layered(file, env, overrides), path) == Some(v) <==> SettingIs(file, env, overrides, path, v)
  {
    SettingComesFrom(file, env, path, v);
    SettingComesFrom(Over(file, env), overrides, path, v);
  }

  // ---------------------------------------------------------------------
  // The rewrites after the merge
  // ---------------------------------------------------------------------

  /** What `Object.keys` and the spread make of any value: arrays and strings go by position. */
  function Entries(j: Json): map<string, Json> {
    match j
    case Obj(fields) => fields
    case Arr(items) => ItemEntries(items)
    case Str(text) => CharEntries(text)
    case _ => map[]
  }

  function ItemEntries(items: seq<Json>): map<string, Json> {
    if items == [] then map[] else
      ItemEntries(items[..|items| - 1])[Text.Decimal(|items| - 1) := items[|items| - 1]]
  }

  function CharEntries(text: string): map<string, Json> {
    if text == "" then map[] else
      CharEntries(text[..|text| - 1])[Text.Decimal(|text| - 1) := Str([text[|text| - 1]])]
  }

  function Field(config: Json, key: string): Option<Json> {
    if config.Obj? && key in config.fields then Some(config.fields[key]) else None
  }

  function With(config: Json, key: string, v: Json): Json
    requires config.Obj?
  {
    Obj(config.fields[key := v])
  }

  datatype ConfigError = UnknownProfile(id: string)

  type Registry = map<string, Json>

  ghost predicate Profiles(registry: Registry) {
    forall id :: id in registry ==> registry[id].Obj?
  }

  /** What the layers leave as the hardware section, taken as an object whatever it is. */
  function HardwareSection(layered: Json): Json {
    Obj(Entries(Field(layered, "vmHardwareProfile").GetOr(EMPTY)))
  }

  /** The named hardware profile underneath whatever the merged layers say. */
  function ResolveHardwareProfile(config: Json, registry: Registry): Result<Json, ConfigError>
    requires config.Obj?
  {
    match Field(config, "hardwareProfileId")
    case Some(Str(id)) =>
      if id == "" then Success(config)
      else if id !in registry then Failure(UnknownProfile(id))
      else
        Success(With(config, "vmHardwareProfile", Over(registry[id], HardwareSection(config))))
    case _ => Success(config)
  }

  /** The Buildkite branch, when there is one to follow. */
  function BuildkiteBranch(config: Json): Option<string> {
    match Field(Field(config, "buildkite").GetOr(Null), "kibanaBranch")
    case Some(Str(branch)) => if branch == "" then None else Some(branch)
    case _ => None
  }

  function SyncKibanaRepoBranch(config: Json): Json
    requires config.Obj?
  {
    var repo := Field(config, "kibanaRepo").GetOr(Null);
    if (repo.Obj? || repo.Arr?) && BuildkiteBranch(config).Some? then
      With(config, "kibanaRepo", Obj(Entries(repo)["branch" := Str(BuildkiteBranch(config).value)]))
    else config
  }

  function MigratedThresholds(t: map<string, Json>): map<string, Json> {
    if "maxItlP50Ms" !in t && "minItlP50Ms" in t then t["maxItlP50Ms" := t["minItlP50Ms"]] - {"minItlP50Ms"} else t
  }

  function MigrateLegacyStage2Thresholds(config: Json): Json
    requires config.Obj?
  {
    var thresholds := Field(config, "stage2Thresholds").GetOr(Null);
    if thresholds.Obj? || thresholds.Arr? then
      With(config, "stage2Thresholds", Obj(MigratedThresholds(Entries(thresholds))))
    else config
  }

  /** Layers, then the profile, then the branch, then the legacy name. */
  method LoadConfig(file: Json, env: Json, overrides: Option<Json>, registry: Registry)
    returns (r: Result<Json, ConfigError>)
    requires file.Obj? && env.Obj? && (overrides.Some? ==> overrides.value.Obj?) && Profiles(registry)
    ensures r == Loaded(file, env, overrides.GetOr(EMPTY), registry)
  {
    var merged := DeepMerge(file, env);
    if overrides.Some? {
      merged := DeepMerge(merged, overrides.value);
    } else {
      EmptyIsIdentity(merged);
    }
    var resolved := ResolveHardwareProfile(merged, registry);
    if resolved.Failure? {
      return resolved;
    }
    return Success(MigrateLegacyStage2Thresholds(SyncKibanaRepoBranch(resolved.value)));
  }

  function Loaded(file: Json, env: Json, overrides: Json, registry: Registry): Result<Json, ConfigError>
    requires file.Obj? && env.Obj? && overrides.Obj?
  {
    var resolved := ResolveHardwareProfile(Layered(file, env, overrides), registry);
    if resolved.Failure? then resolved
    else Success(MigrateLegacyStage2Thresholds(SyncKibanaRepoBranch(resolved.value)))
  }

  // ---------------------------------------------------------------------
  // What is loaded
  // ---------------------------------------------------------------------

  const REWRITTEN := {"vmHardwareProfile", "kibanaRepo", "stage2Thresholds"}

  lemma {:induction false} FieldIsAt(j: Json, key: string)
    ensures At(j, [key]) == Field(j, key)
  {
    assert [key][1..] == [];
  }

  lemma {:induction false} FieldOfFieldIsAt(j: Json, outer: string, inner: string)
    ensures At(j, [outer, inner]) == Field(Field(j, outer).GetOr(Null), inner)
  {
    assert [outer, inner][1..] == [inner];
    if Field(j, outer).Some? {
      FieldIsAt(j.fields[outer], inner);
    }
  }

  /** Outside the three rewritten sections every setting is the highest layer's that has it. */
  lemma {:induction false} SettingsFollowTheLayers(file: Json, env: Json, overrides: Json, registry: Registry,
                                                   path: Path, v: Json)
    requires file.Obj? && env.Obj? && overrides.Obj? && !v.Obj?
    requires path != [] && path[0] !in REWRITTEN
    ensures var r := Loaded(file, env, overrides, registry);
            r.Success? ==> (At(r.value, path) == Some(v) <==> SettingIs(file, env, overrides, path, v))
  {
    OverridesOverEnvOverFile(file, env, overrides, path, v);
  }

  /** Loading fails iff the layers name a profile that is not there. */
  lemma {:induction false} FailsIffProfileUnknown(file: Json, env: Json, overrides: Json, registry: Registry)
    requires file.Obj? && env.Obj? && overrides.Obj?
    ensures Loaded(file, env, overrides, registry).Failure? <==>
              exists id :: id != "" && id !in registry &&
                SettingIs(file, env, overrides, ["hardwareProfileId"], Str(id))
  {
    var named := At(Layered(file, env, overrides), ["hardwareProfileId"]);
    FieldIsAt(Layered(file, env, overrides), "hardwareProfileId");
    forall id
      ensures named == Some(Str(id)) <==> SettingIs(file, env, overrides, ["hardwareProfileId"], Str(id))
    {
      OverridesOverEnvOverFile(file, env, overrides, ["hardwareProfileId"], Str(id));
    }
  }

  /** With a profile named, the hardware section is the layers' section merged over the profile. */
  lemma {:induction false} HardwareOverProfile(file: Json, env: Json, overrides: Json, registry: Registry, id: string,
                                               path: Path, v: Json)
    requires file.Obj? && env.Obj? && overrides.Obj? && Profiles(registry) && !v.Obj? && path != []
    requires id != "" && id in registry && SettingIs(file, env, overrides, ["hardwareProfileId"], Str(id))
    ensures var r, section := Loaded(file, env, overrides, registry), HardwareSection(Layered(file, env, overrides));
            && r.Success?
            && (At(r.value, ["vmHardwareProfile"] + path) == Some(v) <==>
                  At(section, path) == Some(v) || (Silent(section, path) && At(registry[id], path) == Some(v)))
  {
    var layered := Layered(file, env, overrides);
    OverridesOverEnvOverFile(file, env, overrides, ["hardwareProfileId"], Str(id));
    FieldIsAt(layered, "hardwareProfileId");
    SettingComesFrom(registry[id], HardwareSection(layered), path, v);
    assert (["vmHardwareProfile"] + path)[1..] == path;
  }

  /**
   * Where the section is an object, as it should be, a hardware setting is the
   * layers' - the file's too - and the profile's only where the layers are silent.
   */
  lemma {:induction false} HardwareFollowsLayersThenProfile(file: Json, env: Json, overrides: Json, registry: Registry,
                                                           id: string, path: Path, v: Json)
    requires file.Obj? && env.Obj? && overrides.Obj? && Profiles(registry) && !v.Obj? && path != []
    requires id != "" && id in registry && SettingIs(file, env, overrides, ["hardwareProfileId"], Str(id))
    requires Field(Layered(file, env, overrides), "vmHardwareProfile").GetOr(EMPTY).Obj?
    ensures var r, full := Loaded(file, env, overrides, registry), ["vmHardwareProfile"] + path;
            && r.Success?
            && (At(r.value, full) == Some(v) <==>
                  || SettingIs(file, env, overrides, full, v)
                  || (Silent(Layered(file, env, overrides), full) && At(registry[id], path) == Some(v)))
  {
    var full := ["vmHardwareProfile"] + path;
    HardwareOverProfile(file, env, overrides, registry, id, path, v);
    OverridesOverEnvOverFile(file, env, overrides, full, v);
    assert full[1..] == path;
  }

  /** So the file beats the profile: a value it sets stays, whatever the profile has there. */
  lemma {:induction false} FileBeatsProfile(file: Json, env: Json, overrides: Json, registry: Registry,
                                           id: string, path: Path, v: Json)
    requires file.Obj? && env.Obj? && overrides.Obj? && Profiles(registry) && !v.Obj? && path != []
    requires id != "" && id in registry && SettingIs(file, env, overrides, ["hardwareProfileId"], Str(id))
    requires Field(Layered(file, env, overrides), "vmHardwareProfile").GetOr(EMPTY).Obj?
    requires var full := ["vmHardwareProfile"] + path;
             At(file, full) == Some(v) && Silent(env, full) && Silent(overrides, full)
    ensures var r := Loaded(file, env, overrides, registry);
            r.Success? && At(r.value, ["vmHardwareProfile"] + path) == Some(v)
  {
    HardwareFollowsLayersThenProfile(file, env, overrides, registry, id, path, v);
  }

  /** A branch the layers set for the Kibana checkout survives iff Buildkite has none, or the same. */
  lemma {:induction false} BranchSurvivesIffBuildkiteAgrees(file: Json, env: Json, overrides: Json,
                                                            registry: Registry, branch: string)
    requires file.Obj? && env.Obj? && overrides.Obj?
    requires At(Layered(file, env, overrides), ["kibanaRepo", "branch"]) == Some(Str(branch))
    ensures var r := Loaded(file, env, overrides, registry);
            r.Success? ==>
              (At(r.value, ["kibanaRepo", "branch"]) == Some(Str(branch)) <==>
               BuildkiteBranch(Layered(file, env, overrides)) in {None, Some(branch)})
  {
    var layered := Layered(file, env, overrides);
    FieldOfFieldIsAt(layered, "kibanaRepo", "branch");
    var resolved := ResolveHardwareProfile(layered, registry);
    if resolved.Success? {
      var synced := SyncKibanaRepoBranch(resolved.value);
      assert BuildkiteBranch(resolved.value) == BuildkiteBranch(layered);
      assert Field(resolved.value, "kibanaRepo") == Field(layered, "kibanaRepo");
      FieldOfFieldIsAt(MigrateLegacyStage2Thresholds(synced), "kibanaRepo", "branch");
    }
  }

  /** Only the branch follows Buildkite, and only where both sides are there; everything else stays. */
  lemma {:induction false} OnlyTheBranchFollows(config: Json)
    requires config.Obj?
    ensures var r := SyncKibanaRepoBranch(config);
            && r.Obj? && r.fields.Keys == config.fields.Keys
            && (forall key :: key in config.fields && key != "kibanaRepo" ==> r.fields[key] == config.fields[key])
            && (forall branch ::
                  && "kibanaRepo" in config.fields && config.fields["kibanaRepo"].Obj?
                  && At(config, ["buildkite", "kibanaBranch"]) == Some(Str(branch)) && branch != "" ==>
                    r.fields["kibanaRepo"] == Obj(config.fields["kibanaRepo"].fields["branch" := Str(branch)]))
            && ((forall branch :: At(config, ["buildkite", "kibanaBranch"]) == Some(Str(branch)) ==> branch == "") ==>
                  r == config)
            && ((var repo := Field(config, "kibanaRepo"); repo.None? || !(repo.value.Obj? || repo.value.Arr?)) ==>
                  r == config)
  {
    FieldOfFieldIsAt(config, "buildkite", "kibanaBranch");
  }

  /** Only the latency threshold is renamed; everything else stays. */
  lemma {:induction false} OnlyTheThresholdIsRenamed(config: Json)
    requires config.Obj?
    ensures var r := MigrateLegacyStage2Thresholds(config);
            && r.Obj? && r.fields.Keys == config.fields.Keys
            && (forall key :: key in config.fields && key != "stage2Thresholds" ==> r.fields[key] == config.fields[key])
            && (forall key, rest ::
                  && "stage2Thresholds" in config.fields && config.fields["stage2Thresholds"].Obj?
                  && key != "minItlP50Ms" && key != "maxItlP50Ms" ==>
                    At(r.fields["stage2Thresholds"], [key] + rest) ==
                    At(config.fields["stage2Thresholds"], [key] + rest))
            && ((var was := Field(config, "stage2Thresholds"); was.None? || !(was.value.Obj? || was.value.Arr?)) ==>
                  r == config)
  {
  }

  /** In the checkout and threshold sections all other settings follow the layers too. */
  lemma {:induction false} SectionsKeepTheRest(file: Json, env: Json, overrides: Json, registry: Registry,
                                               path: Path, v: Json)
    requires file.Obj? && env.Obj? && overrides.Obj? && !v.Obj? && |path| >= 2
    requires Field(Layered(file, env, overrides), path[0]).GetOr(Null).Obj?
    requires
      || (path[0] == "kibanaRepo" && path[1] != "branch")
      || (path[0] == "stage2Thresholds" && path[1] != "minItlP50Ms" && path[1] != "maxItlP50Ms")
    ensures var r := Loaded(file, env, overrides, registry);
            r.Success? ==> (At(r.value, path) == Some(v) <==> SettingIs(file, env, overrides, path, v))
  {
    OverridesOverEnvOverFile(file, env, overrides, path, v);
    var resolved := ResolveHardwareProfile(Layered(file, env, overrides), registry);
    if resolved.Success? {
      SectionsKeepAt(resolved.value, path);
    }
  }

  lemma {:induction false} SectionsKeepAt(config: Json, path: Path)
    requires config.Obj? && |path| >= 2 && Field(config, path[0]).GetOr(Null).Obj?
    requires
      || (path[0] == "kibanaRepo" && path[1] != "branch")
      || (path[0] == "stage2Thresholds" && path[1] != "minItlP50Ms" && path[1] != "maxItlP50Ms")
    ensures At(MigrateLegacyStage2Thresholds(SyncKibanaRepoBranch(config)), path) == At(config, path)
  {
    var synced := SyncKibanaRepoBranch(config);
    OnlyTheBranchFollows(config);
    OnlyTheThresholdIsRenamed(synced);
    assert path[1..] == [path[1]] + path[2..];
  }

  /** The branch loaded is Buildkite's, as the layers have it, and without one the layers' own. */
  lemma {:induction false} BranchFollowsBuildkite(file: Json, env: Json, overrides: Json, registry: Registry,
                                                  branch: string, v: Json)
    requires file.Obj? && env.Obj? && overrides.Obj? && !v.Obj?
    requires Field(Layered(file, env, overrides), "kibanaRepo").GetOr(Null).Obj?
    ensures var r := Loaded(file, env, overrides, registry);
            r.Success? ==>
              && (SettingIs(file, env, overrides, ["buildkite", "kibanaBranch"], Str(branch)) && branch != "" ==>
                    At(r.value, ["kibanaRepo", "branch"]) == Some(Str(branch)))
              && ((forall b :: SettingIs(file, env, overrides, ["buildkite", "kibanaBranch"], Str(b)) ==> b == "") ==>
                    (At(r.value, ["kibanaRepo", "branch"]) == Some(v) <==>
                     SettingIs(file, env, overrides, ["kibanaRepo", "branch"], v)))
  {
    var layered := Layered(file, env, overrides);
    forall b
      ensures At(layered, ["buildkite", "kibanaBranch"]) == Some(Str(b)) <==>
              SettingIs(file, env, overrides, ["buildkite", "kibanaBranch"], Str(b))
    {
      OverridesOverEnvOverFile(file, env, overrides, ["buildkite", "kibanaBranch"], Str(b));
    }
    OverridesOverEnvOverFile(file, env, overrides, ["kibanaRepo", "branch"], v);
    var resolved := ResolveHardwareProfile(layered, registry);
    if resolved.Success? {
      BranchOf(layered, resolved.value);
    }
  }

  lemma {:induction false} BranchOf(layered: Json, config: Json)
    requires layered.Obj? && config.Obj? && Field(layered, "kibanaRepo").GetOr(Null).Obj?
    requires Field(config, "kibanaRepo") == Field(layered, "kibanaRepo")
    requires Field(config, "buildkite") == Field(layered, "buildkite")
    ensures var r := MigrateLegacyStage2Thresholds(SyncKibanaRepoBranch(config));
            At(r, ["kibanaRepo", "branch"]) ==
              match At(layered, ["buildkite", "kibanaBranch"])
              case Some(Str(b)) => if b == "" then At(layered, ["kibanaRepo", "branch"]) else Some(Str(b))
              case _ => At(layered, ["kibanaRepo", "branch"])
  {
    FieldOfFieldIsAt(layered, "buildkite", "kibanaBranch");
    FieldOfFieldIsAt(layered, "kibanaRepo", "branch");
    FieldOfFieldIsAt(MigrateLegacyStage2Thresholds(SyncKibanaRepoBranch(config)), "kibanaRepo", "branch");
  }

  /** After the migration the old name is gone unless the new one was there too; doing it twice is doing it once. */
  lemma {:induction false} MigrationSettles(config: Json)
    requires config.Obj?
    ensures var once := MigrateLegacyStage2Thresholds(config);
            && MigrateLegacyStage2Thresholds(once) == once
            && (Field(config, "stage2Thresholds").GetOr(Null).Obj? ==>
                  var (before, after) := (config.fields["stage2Thresholds"], once.fields["stage2Thresholds"]);
                  && Field(after, "maxItlP50Ms") ==
                     (if Field(before, "maxItlP50Ms").Some?
                      then Field(before, "maxItlP50Ms") else Field(before, "minItlP50Ms"))
                  && Field(after, "minItlP50Ms") ==
                     (if Field(before, "maxItlP50Ms").Some? then Field(before, "minItlP50Ms") else None))
  {
    var once := MigrateLegacyStage2Thresholds(config);
    if Field(once, "stage2Thresholds").GetOr(Null).Obj? {
      assert With(once, "stage2Thresholds", once.fields["stage2Thresholds"]).fields == once.fields;
    }
  }
}
