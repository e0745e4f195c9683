/**
 Which settings a run executes with, and how the first execution pins them against later edits
 of the shared agent.

 Validation is a parameter: a check for each field, and the serialisation that snapshots store.
 */
module RunConfig {
  import opened Basics

  datatype Json = Null | Bool(b: bool) | Number(n: real) | Text(s: string) | List(items: seq<Json>) | Obj(fields: map<string, Json>)

  /** The fields of an agent that a run pins, apart from its model settings. */
  const OTHER_FIELDS: set<string> :=
    {"name", "goal", "description", "system_prompt", "pattern_config", "skill_config", "output_contract",
     "memory_config", "budget_limit_usd", "max_run_duration_seconds"}

  const MODEL_CONFIG := "model_config"
  const PATTERN_CONFIG := "pattern_config"
  const MEMORY_CONFIG := "memory_config"
  const API_KEY := "api_key"

  const MODEL_FIELDS: set<string> :=
    {"provider", "model", "temperature", "effort", "resolved_capabilities", "model_metadata", "max_tokens",
     "api_base", "api_key", "fallback_models"}

  /** The model fields that hold keys: its own, and those of the models to fall back to. */
  const SECRET_FIELDS: set<string> := {"api_key", "fallback_models"}

  /** What the schemas make of a value, how they serialise it, and what of it survives serialisation. */
  datatype Schema = Schema(
    check: (string, Json) -> Option<Json>,
    dump: (string, Json) -> Json,
    modelCheck: (string, Json) -> Option<Json>,
    modelDump: (string, Json) -> Json,
    modelDefault: string -> Json,
    withoutKeys: (string, Json) -> Json)

  predicate Falsy(j: Json) {
    j == Null || j == Bool(false) || j == Number(0.0) || j == Text("") || j == List([]) || j == Obj(map[])
  }

  /** Serialising a valid value and validating it again restores it, except for the keys. */
  ghost predicate RoundTrips(schema: Schema) {
    && (forall k, x | schema.check(k, x).Some? ::
          schema.check(k, schema.dump(k, schema.check(k, x).value)) == schema.check(k, x))
    && (forall x | schema.check(MEMORY_CONFIG, x).Some? ::
          !Falsy(schema.dump(MEMORY_CONFIG, schema.check(MEMORY_CONFIG, x).value)))
    && (forall f, x | schema.modelCheck(f, x).Some? :: ModelRoundTrips(schema, f, schema.modelCheck(f, x).value))
    && (forall f :: ModelRoundTrips(schema, f, schema.modelDefault(f)))
  }

  predicate ModelRoundTrips(schema: Schema, f: string, w: Json) {
    && schema.modelCheck(f, schema.modelDump(f, w)) == Some(schema.withoutKeys(f, w))
    && (f !in SECRET_FIELDS ==> schema.withoutKeys(f, w) == w)
  }

  /** Such schemas exist: one that stores what it is given. */
  lemma SomeSchemaRoundTrips()
    ensures exists schema :: RoundTrips(schema)
  {
    var schema := Schema((k, x) => if k == MEMORY_CONFIG && Falsy(x) then None else Some(x), (k, w) => w,
                         (f, x) => Some(x), (f, w) => w, f => Null, (f, w) => w);
    assert RoundTrips(schema);
  }

  // ----- resolving ------------------------------------------------------------------------

  type Fields = map<string, Json>

  /** The settings of one execution, validated. */
  datatype Config = Config(fields: Fields, model: Fields)

  datatype ConfigError = NotAnObject | Invalid

  datatype Run = Run(snapshot: Option<Fields>, modelOverrides: Fields, patternOverrides: Json)

  function Pinned(run: Run): Fields { if run.snapshot.Some? then run.snapshot.value else map[] }

  function Inherited(agent: Fields, k: string): Json { if k in agent then agent[k] else Null }

  /** A pinned field wins, an explicit null included; an absent one is inherited. */
  function Picked(run: Run, agent: Fields, k: string): Json {
    if k in Pinned(run) then Pinned(run)[k] else Inherited(agent, k)
  }

  function Raw(run: Run, agent: Fields, overridden: bool, k: string): Json {
    if k == PATTERN_CONFIG && overridden && k !in Pinned(run) && !Falsy(run.patternOverrides) then run.patternOverrides
    else if k == MEMORY_CONFIG && Falsy(Picked(run, agent, k)) then Obj(map[])
    else Picked(run, agent, k)
  }

  function Overrides(run: Run, overridden: bool): Fields { if overridden then run.modelOverrides else map[] }

  /** The model settings before validation: the picked ones, with the run's overrides on top. */
  function RawModel(run: Run, agent: Fields, overridden: bool): Result<Fields, ConfigError> {
    var picked := Picked(run, agent, MODEL_CONFIG);
    if Falsy(picked) then Ok(Overrides(run, overridden))
    else if picked.Obj? then Ok(picked.fields + Overrides(run, overridden))
    else Err(NotAnObject)
  }

  predicate ModelOk(schema: Schema, raw: Fields) {
    forall f | f in MODEL_FIELDS && f in raw :: schema.modelCheck(f, raw[f]).Some?
  }

  function ModelValue(schema: Schema, raw: Fields, f: string): Json {
    if f in raw && schema.modelCheck(f, raw[f]).Some? then schema.modelCheck(f, raw[f]).value
    else schema.modelDefault(f)
  }

  predicate FieldsOk(schema: Schema, run: Run, agent: Fields, overridden: bool) {
    forall k | k in OTHER_FIELDS :: schema.check(k, Raw(run, agent, overridden, k)).Some?
  }

  function EffectiveConfig(schema: Schema, run: Run, agent: Fields, overridden: bool): Result<Config, ConfigError> {
    var model := RawModel(run, agent, overridden);
    if model.Err? then Err(model.error)
    else if !ModelOk(schema, model.value) || !FieldsOk(schema, run, agent, overridden) then Err(Invalid)
    else
      Ok(Config(map k | k in OTHER_FIELDS :: schema.check(k, Raw(run, agent, overridden, k)).value,
                map f | f in MODEL_FIELDS :: ModelValue(schema, model.value, f)))
  }

  /** An override wins over a pinned or inherited model setting; a pinned field wins over everything else. */
  lemma Precedence(schema: Schema, run: Run, agent: Fields, config: Config)
    requires EffectiveConfig(schema, run, agent, true) == Ok(config)
    ensures forall f | f in MODEL_FIELDS && f in run.modelOverrides ::
              f in config.model && Some(config.model[f]) == schema.modelCheck(f, run.modelOverrides[f])
    ensures forall k | k in OTHER_FIELDS && k in Pinned(run) && k != MEMORY_CONFIG ::
              k in config.fields && Some(config.fields[k]) == schema.check(k, Pinned(run)[k])
    ensures PATTERN_CONFIG !in Pinned(run) && !Falsy(run.patternOverrides) ==>
              PATTERN_CONFIG in config.fields
              && Some(config.fields[PATTERN_CONFIG]) == schema.check(PATTERN_CONFIG, run.patternOverrides)
  {
    assert PATTERN_CONFIG in OTHER_FIELDS;
    assert forall f | f in MODEL_FIELDS && f in run.modelOverrides ::
        RawModel(run, agent, true).value[f] == run.modelOverrides[f];
  }

  /** Where a field that the run's snapshot does not pin comes from. */
  function FromAgent(agent: Fields, k: string): Json {
    if k !in agent || (k == MEMORY_CONFIG && Falsy(agent[k])) then (if k == MEMORY_CONFIG then Obj(map[]) else Null) else agent[k]
  }

  /**
   What is not pinned is the agent's: each field as the agent has it now, or absent; each model setting
   as the agent's model has it, or its default; but for what the run itself overrides.
   */
  lemma Inheritance(schema: Schema, run: Run, agent: Fields, config: Config)
    requires EffectiveConfig(schema, run, agent, true) == Ok(config)
    ensures forall k | k in OTHER_FIELDS && (run.snapshot.Some? ==> k !in run.snapshot.value) ::
              && k in config.fields
              && Some(config.fields[k]) ==
                 schema.check(k, if k == PATTERN_CONFIG && !Falsy(run.patternOverrides) then run.patternOverrides
                                 else FromAgent(agent, k))
    ensures (run.snapshot.Some? ==> MODEL_CONFIG !in run.snapshot.value) ==>
              forall f | f in MODEL_FIELDS && f !in run.modelOverrides ::
                && f in config.model
                && if MODEL_CONFIG in agent && agent[MODEL_CONFIG].Obj? && f in agent[MODEL_CONFIG].fields
                   then Some(config.model[f]) == schema.modelCheck(f, agent[MODEL_CONFIG].fields[f])
                   else config.model[f] == schema.modelDefault(f)
  {
    forall k | k in OTHER_FIELDS && (run.snapshot.Some? ==> k !in run.snapshot.value)
      ensures Raw(run, agent, true, k) ==
              if k == PATTERN_CONFIG && !Falsy(run.patternOverrides) then run.patternOverrides else FromAgent(agent, k)
    {
    }
    if run.snapshot.Some? ==> MODEL_CONFIG !in run.snapshot.value {
      forall f | f in MODEL_FIELDS && f !in run.modelOverrides
        ensures config.model[f] == ModelValue(schema, RawModel(run, agent, true).value, f)
      {
      }
    }
  }

  /** The value that a field of an execution is validated from. */
  function Given(run: Run, agent: Fields, k: string): Json {
    if run.snapshot.Some? && k in run.snapshot.value then
      if k == MEMORY_CONFIG && Falsy(run.snapshot.value[k]) then Obj(map[]) else run.snapshot.value[k]
    else if k == PATTERN_CONFIG && !Falsy(run.patternOverrides) then run.patternOverrides
    else FromAgent(agent, k)
  }

  /** An execution has settings exactly if its model settings are an object or absent, and every value is valid. */
  lemma ResolvesIff(schema: Schema, run: Run, agent: Fields)
    ensures var model := if run.snapshot.Some? && MODEL_CONFIG in run.snapshot.value then run.snapshot.value[MODEL_CONFIG]
                         else if MODEL_CONFIG in agent then agent[MODEL_CONFIG] else Null;
            var config := EffectiveConfig(schema, run, agent, true);
            && (config.Ok? <==>
                  && (Falsy(model) || model.Obj?)
                  && (forall f | f in MODEL_FIELDS && f in run.modelOverrides ::
                        schema.modelCheck(f, run.modelOverrides[f]).Some?)
                  && (model.Obj? ==>
                        forall f | f in MODEL_FIELDS && f !in run.modelOverrides && f in model.fields ::
                          schema.modelCheck(f, model.fields[f]).Some?)
                  && (forall k | k in OTHER_FIELDS :: schema.check(k, Given(run, agent, k)).Some?))
            && (config.Err? ==> (config.error == NotAnObject <==> !Falsy(model) && !model.Obj?))
  {
    hide Raw, Given, RawModel, ModelOk, ModelValue, Picked;
    forall k
      ensures Raw(run, agent, true, k) == Given(run, agent, k)
    {
      RawIsGiven(run, agent, k);
    }
    PickedIs(run, agent, MODEL_CONFIG);
    ModelOkIff(schema, run, agent);
  }

  lemma RawIsGiven(run: Run, agent: Fields, k: string)
    ensures Raw(run, agent, true, k) == Given(run, agent, k)
  {
  }

  lemma PickedIs(run: Run, agent: Fields, k: string)
    ensures Picked(run, agent, k) ==
            if run.snapshot.Some? && k in run.snapshot.value then run.snapshot.value[k]
            else if k in agent then agent[k] else Null
  {
  }

  lemma ModelOkIff(schema: Schema, run: Run, agent: Fields)
    ensures var model := Picked(run, agent, MODEL_CONFIG);
            var raw := RawModel(run, agent, true);
            && (raw.Ok? <==> Falsy(model) || model.Obj?)
            && (raw.Err? ==> raw.error == NotAnObject)
            && (raw.Ok? ==>
                  (ModelOk(schema, raw.value) <==>
                     && (forall f | f in MODEL_FIELDS && f in run.modelOverrides ::
                           schema.modelCheck(f, run.modelOverrides[f]).Some?)
                     && (model.Obj? ==>
                           forall f | f in MODEL_FIELDS && f !in run.modelOverrides && f in model.fields ::
                             schema.modelCheck(f, model.fields[f]).Some?)))
  {
    var model, raw := Picked(run, agent, MODEL_CONFIG), RawModel(run, agent, true);
    if raw.Ok? {
      assert forall f :: f in raw.value <==> f in run.modelOverrides || (model.Obj? && f in model.fields);
    }
  }

  /** The settings as they are stored: every field, the API key left out. */
  function SnapshotOf(schema: Schema, config: Config): Fields
    requires config.fields.Keys == OTHER_FIELDS && config.model.Keys == MODEL_FIELDS
  {
    (map k | k in OTHER_FIELDS :: schema.dump(k, config.fields[k]))
    [MODEL_CONFIG := Obj(map f | f in MODEL_FIELDS && f != API_KEY :: schema.modelDump(f, config.model[f]))]
  }

  lemma ConfigIsTotal(schema: Schema, run: Run, agent: Fields, overridden: bool)
    requires EffectiveConfig(schema, run, agent, overridden).Ok?
    ensures var c := EffectiveConfig(schema, run, agent, overridden).value;
            c.fields.Keys == OTHER_FIELDS && c.model.Keys == MODEL_FIELDS
  {
  }

  /** The settings are determined by the values that validation is given. */
  lemma SameRaw(schema: Schema, run: Run, a: Fields, b: Fields, overridden: bool)
    requires forall k | k in OTHER_FIELDS :: Raw(run, a, overridden, k) == Raw(run, b, overridden, k)
    requires RawModel(run, a, overridden) == RawModel(run, b, overridden)
    ensures EffectiveConfig(schema, run, a, overridden) == EffectiveConfig(schema, run, b, overridden)
  {
    hide Raw, RawModel;
    if EffectiveConfig(schema, run, a, overridden).Ok? {
      var x, y := EffectiveConfig(schema, run, a, overridden).value, EffectiveConfig(schema, run, b, overridden).value;
      assert x.fields == y.fields;
    }
  }

  /** A fully pinned run does not look at the agent. */
  lemma PinnedIgnoresAgent(schema: Schema, run: Run, a: Fields, b: Fields, overridden: bool)
    requires OTHER_FIELDS + {MODEL_CONFIG} <= Pinned(run).Keys
    ensures EffectiveConfig(schema, run, a, overridden) == EffectiveConfig(schema, run, b, overridden)
  {
    hide EffectiveConfig;
    forall k | k in OTHER_FIELDS + {MODEL_CONFIG}
      ensures k in Pinned(run)
    {
    }
    SameRaw(schema, run, a, b, overridden);
  }

  // ----- the first execution pins ---------------------------------------------------------------

  /** The run after its first execution recorded what it used. */
  function Recorded(schema: Schema, run: Run, config: Config): Run
    requires config.fields.Keys == OTHER_FIELDS && config.model.Keys == MODEL_FIELDS
  {
    run.(snapshot := Some(SnapshotOf(schema, config)))
  }

  /** A model setting as a later execution sees it: the run's own override, or what the snapshot kept. */
  function KeptModelValue(schema: Schema, run: Run, config: Config, f: string): Json
    requires f in config.model
  {
    if f in run.modelOverrides then config.model[f]
    else if f == API_KEY then schema.modelDefault(f)
    else schema.withoutKeys(f, config.model[f])
  }

  lemma RecordedField(schema: Schema, run: Run, config: Config, k: string)
    requires config.fields.Keys == OTHER_FIELDS && config.model.Keys == MODEL_FIELDS && k in OTHER_FIELDS
    ensures k in Pinned(Recorded(schema, run, config))
    ensures Pinned(Recorded(schema, run, config))[k] == schema.dump(k, config.fields[k])
  {
  }

  lemma RecordedModel(schema: Schema, run: Run, config: Config, later: Fields)
    requires config.fields.Keys == OTHER_FIELDS && config.model.Keys == MODEL_FIELDS
    ensures RawModel(Recorded(schema, run, config), later, true) ==
            Ok((map f | f in MODEL_FIELDS && f != API_KEY :: schema.modelDump(f, config.model[f])) + run.modelOverrides)
  {
    var dumped := map f | f in MODEL_FIELDS && f != API_KEY :: schema.modelDump(f, config.model[f]);
    assert "provider" in dumped;
  }

  /** A recorded field is validated to what it was, whatever the agent says later. */
  lemma KeptField(schema: Schema, run: Run, agent: Fields, later: Fields, config: Config, k: string)
    requires RoundTrips(schema) && run.snapshot.None? && k in OTHER_FIELDS
    requires EffectiveConfig(schema, run, agent, true) == Ok(config)
    requires config.fields.Keys == OTHER_FIELDS && config.model.Keys == MODEL_FIELDS
    ensures schema.check(k, Raw(Recorded(schema, run, config), later, true, k)) == Some(config.fields[k])
  {
    hide Recorded, RawModel, ModelOk, ModelValue, RoundTrips;
    assert schema.check(k, Raw(run, agent, true, k)) == Some(config.fields[k]);
    ValidFieldStays(schema, run, later, config, k, Raw(run, agent, true, k));
  }

  /** A field that was validated is validated to the same again once it is recorded. */
  lemma ValidFieldStays(schema: Schema, run: Run, later: Fields, config: Config, k: string, raw: Json)
    requires RoundTrips(schema) && k in OTHER_FIELDS
    requires config.fields.Keys == OTHER_FIELDS && config.model.Keys == MODEL_FIELDS
    requires schema.check(k, raw) == Some(config.fields[k])
    ensures schema.check(k, Raw(Recorded(schema, run, config), later, true, k)) == Some(config.fields[k])
  {
    hide Recorded, RawModel, ModelOk, ModelValue;
    RecordedField(schema, run, config, k);
  }

  /** A recorded model setting is validated to what it was, or to what serialisation left of it. */
  lemma KeptModelField(schema: Schema, run: Run, agent: Fields, later: Fields, config: Config, f: string)
    requires RoundTrips(schema) && f in MODEL_FIELDS
    requires EffectiveConfig(schema, run, agent, true) == Ok(config)
    requires config.fields.Keys == OTHER_FIELDS && config.model.Keys == MODEL_FIELDS
    ensures var raw := RawModel(Recorded(schema, run, config), later, true);
            && raw.Ok? && (f in raw.value ==> schema.modelCheck(f, raw.value[f]).Some?)
            && ModelValue(schema, raw.value, f) == KeptModelValue(schema, run, config, f)
  {
    hide Recorded, Raw, FieldsOk;
    RecordedModel(schema, run, config, later);
    var first := RawModel(run, agent, true).value;
    assert config.model[f] == ModelValue(schema, first, f);
    assert ModelRoundTrips(schema, f, config.model[f]);
  }

  /**
   After the first execution recorded its settings, an execution under any later state of the agent
   has the same settings, down to the API keys that were not the run's own.
   */
  lemma LaterConfig(schema: Schema, run: Run, agent: Fields, later: Fields)
    requires RoundTrips(schema) && run.snapshot.None? && EffectiveConfig(schema, run, agent, true).Ok?
    ensures var config := EffectiveConfig(schema, run, agent, true).value;
            config.fields.Keys == OTHER_FIELDS && config.model.Keys == MODEL_FIELDS
            && EffectiveConfig(schema, Recorded(schema, run, config), later, true) ==
               Ok(Config(config.fields, map f | f in MODEL_FIELDS :: KeptModelValue(schema, run, config, f)))
  {
    ConfigIsTotal(schema, run, agent, true);
    var config := EffectiveConfig(schema, run, agent, true).value;
    var pinned := Recorded(schema, run, config);
    forall k | k in OTHER_FIELDS
      ensures schema.check(k, Raw(pinned, later, true, k)) == Some(config.fields[k])
    {
      KeptField(schema, run, agent, later, config, k);
    }
    forall f | f in MODEL_FIELDS
      ensures var raw := RawModel(pinned, later, true);
              && raw.Ok? && (f in raw.value ==> schema.modelCheck(f, raw.value[f]).Some?)
              && ModelValue(schema, raw.value, f) == KeptModelValue(schema, run, config, f)
    {
      KeptModelField(schema, run, agent, later, config, f);
    }
    assert "provider" in MODEL_FIELDS;
    Assembled(schema, pinned, later, config, map f | f in MODEL_FIELDS :: KeptModelValue(schema, run, config, f));
  }

  lemma Assembled(schema: Schema, run: Run, agent: Fields, config: Config, model: Fields)
    requires config.fields.Keys == OTHER_FIELDS && model.Keys == MODEL_FIELDS
    requires RawModel(run, agent, true).Ok?
    requires forall k | k in OTHER_FIELDS :: schema.check(k, Raw(run, agent, true, k)) == Some(config.fields[k])
    requires forall f | f in MODEL_FIELDS ::
               var raw := RawModel(run, agent, true);
               && (f in raw.value ==> schema.modelCheck(f, raw.value[f]).Some?)
               && ModelValue(schema, raw.value, f) == model[f]
    ensures EffectiveConfig(schema, run, agent, true) == Ok(Config(config.fields, model))
  {
    hide Raw, RawModel;
    var c := EffectiveConfig(schema, run, agent, true);
    assert c.Ok?;
    assert c.value.fields == config.fields && c.value.model == model;
  }

  /** Nothing is lost exactly when the keys in use are the run's own overrides, or there are none. */
  lemma LaterConfigIsFirstIff(schema: Schema, run: Run, agent: Fields, later: Fields)
    requires RoundTrips(schema) && run.snapshot.None? && EffectiveConfig(schema, run, agent, true).Ok?
    ensures var config := EffectiveConfig(schema, run, agent, true).value;
            config.fields.Keys == OTHER_FIELDS && config.model.Keys == MODEL_FIELDS
            && (EffectiveConfig(schema, Recorded(schema, run, config), later, true) == Ok(config) <==>
                forall f | f in SECRET_FIELDS && f !in run.modelOverrides ::
                  config.model[f] == if f == API_KEY then schema.modelDefault(f)
                                     else schema.withoutKeys(f, config.model[f]))
  {
    hide Recorded, RawModel, Raw, FieldsOk, ModelOk, ModelValue, RoundTrips;
    LaterConfig(schema, run, agent, later);
    var config := EffectiveConfig(schema, run, agent, true).value;
    forall f | f in MODEL_FIELDS && f !in SECRET_FIELDS
      ensures KeptModelValue(schema, run, config, f) == config.model[f]
    {
      KeptModelField(schema, run, agent, later, config, f);
      FirstModelField(schema, run, agent, config, f);
    }
    var kept := map f | f in MODEL_FIELDS :: KeptModelValue(schema, run, config, f);
    assert config.model == kept <==> forall f | f in MODEL_FIELDS :: config.model[f] == kept[f];
  }

  lemma FirstModelField(schema: Schema, run: Run, agent: Fields, config: Config, f: string)
    requires RoundTrips(schema) && EffectiveConfig(schema, run, agent, true) == Ok(config)
    requires f in MODEL_FIELDS && f in config.model && f !in SECRET_FIELDS
    ensures schema.withoutKeys(f, config.model[f]) == config.model[f]
  {
    hide Raw, FieldsOk;
    assert config.model[f] == ModelValue(schema, RawModel(run, agent, true).value, f);
    assert ModelRoundTrips(schema, f, config.model[f]);
  }

  // ----- any number of executions -------------------------------------------------------------------

  /** The run after an execution: its settings are recorded if it had none. */
  function Executed(schema: Schema, run: Run, agent: Fields): Run {
    var config := EffectiveConfig(schema, run, agent, true);
    if config.Ok? && run.snapshot.None? then
      ConfigIsTotal(schema, run, agent, true);
      Recorded(schema, run, config.value)
    else run
  }

  /** The settings of each execution, the agent being as it is at that moment. */
  function Executions(schema: Schema, run: Run, agents: seq<Fields>): seq<Result<Config, ConfigError>>
    decreases |agents|
  {
    if agents == [] then []
    else
      [EffectiveConfig(schema, run, agents[0], true)] + Executions(schema, Executed(schema, run, agents[0]), agents[1..])
  }

  lemma {:induction false} ExecutionCount(schema: Schema, run: Run, agents: seq<Fields>)
    ensures |Executions(schema, run, agents)| == |agents|
    decreases |agents|
  {
    hide EffectiveConfig, Executed;
    if agents != [] {
      ExecutionCount(schema, Executed(schema, run, agents[0]), agents[1..]);
    }
  }

  lemma {:induction false} RecordedForGood(schema: Schema, run: Run, agents: seq<Fields>, i: nat, j: nat)
    requires run.snapshot.Some? && OTHER_FIELDS + {MODEL_CONFIG} <= Pinned(run).Keys
    requires i < |agents| && j < |agents|
    ensures |Executions(schema, run, agents)| == |agents|
    ensures Executions(schema, run, agents)[i] == EffectiveConfig(schema, run, agents[j], true)
    decreases |agents|
  {
    hide EffectiveConfig, Pinned;
    ExecutionCount(schema, run, agents);
    if i == 0 {
      PinnedIgnoresAgent(schema, run, agents[0], agents[j], true);
    } else {
      PinnedIgnoresAgent(schema, run, agents[i], agents[j], true);
      RecordedForGood(schema, run, agents[1..], i - 1, i - 1);
    }
  }

  lemma RecordedIsFull(schema: Schema, run: Run, config: Config)
    requires config.fields.Keys == OTHER_FIELDS && config.model.Keys == MODEL_FIELDS
    ensures OTHER_FIELDS + {MODEL_CONFIG} <= Pinned(Recorded(schema, run, config)).Keys
  {
  }

  /**
   However the shared agent is edited between executions, every execution after the first uses the
   same settings: those of the first, but for API keys that came from the agent.
   */
  lemma EditsDoNotReachARun(schema: Schema, run: Run, agents: seq<Fields>, i: nat)
    requires RoundTrips(schema) && run.snapshot.None? && 0 < i < |agents|
    requires EffectiveConfig(schema, run, agents[0], true).Ok?
    ensures var config := EffectiveConfig(schema, run, agents[0], true).value;
            config.fields.Keys == OTHER_FIELDS && config.model.Keys == MODEL_FIELDS
            && |Executions(schema, run, agents)| == |agents|
            && Executions(schema, run, agents)[0] == Ok(config)
            && Executions(schema, run, agents)[i] ==
               Ok(Config(config.fields, map f | f in MODEL_FIELDS :: KeptModelValue(schema, run, config, f)))
  {
    hide RoundTrips, Recorded, EffectiveConfig;
    ExecutionCount(schema, run, agents);
    LaterConfig(schema, run, agents[0], agents[i]);
    var config := EffectiveConfig(schema, run, agents[0], true).value;
    RecordedIsFull(schema, run, config);
    RecordedHasSnapshot(schema, run, config);
    RecordedForGood(schema, Recorded(schema, run, config), agents[1..], i - 1, i - 1);
  }

  lemma RecordedHasSnapshot(schema: Schema, run: Run, config: Config)
    requires config.fields.Keys == OTHER_FIELDS && config.model.Keys == MODEL_FIELDS
    ensures Recorded(schema, run, config).snapshot.Some?
  {
  }

  /** A run created with some fields pinned has captured the rest from the agent, without its overrides. */
  function CreateRun(schema: Schema, run: Run, agent: Fields, partial: Option<Fields>): Result<Run, ConfigError> {
    if partial.None? then Ok(run)
    else
      var base := EffectiveConfig(schema, run.(snapshot := partial), agent, false);
      if base.Err? then Err(base.error)
      else
        ConfigIsTotal(schema, run.(snapshot := partial), agent, false);
        Ok(Recorded(schema, run, base.value))
  }

  /** A run created with a snapshot never looks at the agent again, and ignores its pattern overrides. */
  lemma CreatedPinned(schema: Schema, run: Run, agent: Fields, partial: Fields, a: Fields, b: Fields)
    requires CreateRun(schema, run, agent, Some(partial)).Ok?
    ensures var created := CreateRun(schema, run, agent, Some(partial)).value;
            EffectiveConfig(schema, created, a, true) ==
            EffectiveConfig(schema, created.(patternOverrides := Null), b, true)
  {
    hide EffectiveConfig;
    var base := EffectiveConfig(schema, run.(snapshot := Some(partial)), agent, false).value;
    ConfigIsTotal(schema, run.(snapshot := Some(partial)), agent, false);
    var created := CreateRun(schema, run, agent, Some(partial)).value;
    RecordedIsFull(schema, run, base);
    PinnedIgnoresAgent(schema, created, a, b, true);
    NoPatternOverride(schema, created, b);
  }

  /**
   What it captures: the fields it was created with, and for the others those of the agent at that moment,
   whatever the agent or the run's pattern overrides say later.
   */
  lemma CreatedCaptures(schema: Schema, run: Run, agent: Fields, partial: Fields, later: Fields, config: Config, k: string)
    requires RoundTrips(schema) && k in OTHER_FIELDS && CreateRun(schema, run, agent, Some(partial)).Ok?
    requires EffectiveConfig(schema, CreateRun(schema, run, agent, Some(partial)).value, later, true) == Ok(config)
    ensures k in config.fields
    ensures k in partial && k != MEMORY_CONFIG ==> Some(config.fields[k]) == schema.check(k, partial[k])
    ensures k !in partial ==> Some(config.fields[k]) == schema.check(k, FromAgent(agent, k))
  {
    hide RoundTrips, RawModel, ModelOk, ModelValue, Recorded;
    var base := run.(snapshot := Some(partial));
    var captured := EffectiveConfig(schema, base, agent, false).value;
    ConfigIsTotal(schema, base, agent, false);
    assert schema.check(k, Raw(base, agent, false, k)) == Some(captured.fields[k]);
    ValidFieldStays(schema, run, later, captured, k, Raw(base, agent, false, k));
  }

  /** It does not capture what overrides the run itself. */
  lemma CreatedWithoutOverrides(schema: Schema, run: Run, agent: Fields, partial: Fields)
    ensures var plain := run.(modelOverrides := map[], patternOverrides := Null);
            var created, other := CreateRun(schema, run, agent, Some(partial)), CreateRun(schema, plain, agent, Some(partial));
            && CreateRun(schema, run, agent, None) == Ok(run)
            && (created.Ok? <==> other.Ok?)
            && (created.Ok? ==>
                  created.value.snapshot == other.value.snapshot && created.value.modelOverrides == run.modelOverrides)
  {
    hide ModelOk, ModelValue, SnapshotOf;
    var base := run.(snapshot := Some(partial));
    var other := base.(modelOverrides := map[], patternOverrides := Null);
    assert forall k :: Raw(base, agent, false, k) == Raw(other, agent, false, k);
    assert RawModel(base, agent, false) == RawModel(other, agent, false);
    SameEffective(schema, base, other, agent);
  }

  lemma SameEffective(schema: Schema, run: Run, other: Run, agent: Fields)
    requires forall k | k in OTHER_FIELDS :: Raw(run, agent, false, k) == Raw(other, agent, false, k)
    requires RawModel(run, agent, false) == RawModel(other, agent, false)
    ensures EffectiveConfig(schema, run, agent, false) == EffectiveConfig(schema, other, agent, false)
  {
    hide Raw, RawModel, ModelOk;
    var a, b := EffectiveConfig(schema, run, agent, false), EffectiveConfig(schema, other, agent, false);
    if a.Ok? {
      assert a.value.fields == b.value.fields;
    }
  }

  lemma NoPatternInRaw(run: Run, agent: Fields)
    requires PATTERN_CONFIG in Pinned(run)
    ensures var plain := run.(patternOverrides := Null);
            && (forall k :: Raw(run, agent, true, k) == Raw(plain, agent, true, k))
            && RawModel(run, agent, true) == RawModel(plain, agent, true)
  {
  }

  lemma NoPatternOverride(schema: Schema, run: Run, agent: Fields)
    requires PATTERN_CONFIG in Pinned(run)
    ensures EffectiveConfig(schema, run, agent, true) ==
            EffectiveConfig(schema, run.(patternOverrides := Null), agent, true)
  {
    hide Raw, RawModel, ModelOk, Pinned;
    var plain := run.(patternOverrides := Null);
    NoPatternInRaw(run, agent);
    if EffectiveConfig(schema, run, agent, true).Ok? {
      assert EffectiveConfig(schema, run, agent, true).value.fields ==
             EffectiveConfig(schema, plain, agent, true).value.fields;
    }
  }

  // ----- the row ------------------------------------------------------------------------------------

  datatype RunStatus = Pending | Paused | Completed | Failed | Cancelled

  datatype RunOutcome = RunOutcome(status: RunStatus, output: string, error: Option<string>, snapshot: Option<string>)

  class AgentRun {
    const modelOverrides: Fields
    const patternOverrides: Json
    var configSnapshot: Option<Fields>
    var status: RunStatus
    var output: string
    var error: Option<string>
    var stateSnapshot: Option<string>
    var completed: bool

    function Value(): Run
      reads this
    {
      Run(configSnapshot, modelOverrides, patternOverrides)
    }

    constructor (modelOverrides: Fields, patternOverrides: Json)
      ensures Value() == Run(None, modelOverrides, patternOverrides) && status == Pending
      ensures stateSnapshot == None && !completed
    {
      this.modelOverrides, this.patternOverrides := modelOverrides, patternOverrides;
      configSnapshot, status, output, error, stateSnapshot, completed := None, Pending, "", None, None, false;
    }

    /**
     Resolve, record the first time, execute, and write the outcome: a paused run keeps the state to
     resume from and is not over; any other is, and keeps none. Settings that do not validate change nothing.
     */
    method ExecuteRun(schema: Schema, agent: Fields, orchestrate: Config -> RunOutcome,
                      finalize: (Config, RunOutcome) -> string)
      returns (config: Result<Config, ConfigError>)
      modifies this
      ensures config == EffectiveConfig(schema, old(Value()), agent, true)
      ensures Value() == Executed(schema, old(Value()), agent)
      ensures config.Err? ==> status == old(status) && stateSnapshot == old(stateSnapshot) && completed == old(completed)
      ensures config.Ok? ==>
                var done := orchestrate(config.value);
                && status == done.status && error == done.error && output == finalize(config.value, done)
                && stateSnapshot == (if done.status == Paused then done.snapshot else None)
                && completed == (done.status != Paused || old(completed))
    {
      hide EffectiveConfig, SnapshotOf;
      config := EffectiveConfig(schema, Value(), agent, true);
      if config.Err? {
        return;
      }
      ConfigIsTotal(schema, Value(), agent, true);
      if configSnapshot.None? {
        configSnapshot := Some(SnapshotOf(schema, config.value));
      }
      var done := orchestrate(config.value);
      status, output, error := done.status, finalize(config.value, done), done.error;
      if status == Paused {
        stateSnapshot := done.snapshot;
      } else {
        completed := true;
        stateSnapshot := None;
      }
    }
  }
}
