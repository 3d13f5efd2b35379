/** The configuration models: `MeteorologyModel`, `SimulationConfig`,
    `GriddedScene` and `DomainConfig`, each built from a parsed YAML
    dictionary with the validation its field declarations imply. */
module Config {
  import opened Wrappers
  import opened Schema
  import opened Geo

  /** The closed set of meteorology sources, written as "hrrr" and
      "hrrr_forecast". */
  datatype MeteorologyModel = Hrrr | HrrrForecast

  function ModelName(m: MeteorologyModel): string
  {
    match m
    case Hrrr => "hrrr"
    case HrrrForecast => "hrrr_forecast"
  }

  /** Reads a meteorology model: only its two names are accepted. */
  function ParseModel(v: Value): (r: Result<MeteorologyModel, Problem>)
    ensures r.Success? <==> v == VStr("hrrr") || v == VStr("hrrr_forecast")
    ensures r.Success? ==> v == VStr(ModelName(r.value))
    ensures r.Failure? ==> r.error == NotAnEnumMember
  {
    if v == VStr("hrrr") then Success(Hrrr)
    else if v == VStr("hrrr_forecast") then Success(HrrrForecast)
    else Failure(NotAnEnumMember)
  }

  /** Each model's name reads back as that model, so the two names are
      distinct and the encoding is stable. */
  lemma ModelNameRoundTrip(m: MeteorologyModel)
    ensures ParseModel(VStr(ModelName(m))) == Success(m)
  {
  }

  /** The declared fields of `SimulationConfig`: the duration, the footprint
      bounds and resolutions, and the request timeout, which defaults to 60. */
  const SimulationSchema: seq<FieldSpec> := [
    FieldSpec("n_hours", IntKind, Unconstrained, Required),
    FieldSpec("xmn", FloatKind, LongitudeRange, Required),
    FieldSpec("xmx", FloatKind, LongitudeRange, Required),
    FieldSpec("xres", FloatKind, ResolutionFloor, Required),
    FieldSpec("ymn", FloatKind, LatitudeRange, Required),
    FieldSpec("ymx", FloatKind, LatitudeRange, Required),
    FieldSpec("yres", FloatKind, ResolutionFloor, Required),
    FieldSpec("timeout", IntKind, Unconstrained, Defaulted(SInt(60)))
  ]

  /** An optional parameter takes None when absent or null, has no range,
      and any default it has is of its kind. */
  predicate PassThrough(f: FieldSpec)
  {
    f.presence.Nullable? && f.constraint == Unconstrained && DefaultFits(f)
  }

  type OptionalSpec = f: FieldSpec | PassThrough(f) witness FieldSpec("", BoolKind, Unconstrained, Nullable(None))

  /** An optional parameter that is None by default. */
  function Param(name: string, kind: Kind): (f: OptionalSpec)
    ensures f.name == name && f.kind == kind && f.presence == Nullable(None)
  {
    FieldSpec(name, kind, Unconstrained, Nullable(None))
  }

  /** An optional parameter with a default of its own kind. */
  function ParamDefaulting(name: string, kind: Kind, d: Scalar): (f: OptionalSpec)
    requires HasKind(d, kind)
    ensures f.name == name && f.kind == kind && f.presence == Nullable(Some(d))
  {
    FieldSpec(name, kind, Unconstrained, Nullable(Some(d)))
  }

  /** The table of optional simulation parameters passed through to the
      dispersion model, in declaration order: each may be absent or null,
      and none has a default except `time_integrate`, which defaults to
      true. */
  const OptionalParams: seq<OptionalSpec> := [
    Param("capemin", FloatKind),
    Param("cmass", FloatKind),
    Param("conage", FloatKind),
    Param("cpack", FloatKind),
    Param("dxf", FloatKind),
    Param("dyf", FloatKind),
    Param("dzf", FloatKind),
    Param("efile", StrKind),
    Param("emisshrs", FloatKind),
    Param("frhmax", FloatKind),
    Param("frhs", FloatKind),
    Param("frme", FloatKind),
    Param("frmr", FloatKind),
    Param("frts", FloatKind),
    Param("frvs", FloatKind),
    Param("hnf_plume", BoolKind),
    Param("horcoruverr", FloatKind),
    Param("horcorzierr", FloatKind),
    Param("hscale", FloatKind),
    Param("ichem", FloatKind),
    Param("idsp", FloatKind),
    Param("initd", FloatKind),
    Param("k10m", FloatKind),
    Param("kagl", FloatKind),
    Param("kbls", FloatKind),
    Param("kblt", FloatKind),
    Param("kdef", FloatKind),
    Param("khinp", FloatKind),
    Param("khmax", FloatKind),
    Param("kmix0", FloatKind),
    Param("kmixd", FloatKind),
    Param("kmsl", FloatKind),
    Param("kpuff", FloatKind),
    Param("krand", FloatKind),
    Param("krnd", FloatKind),
    Param("kspl", FloatKind),
    Param("kwet", FloatKind),
    Param("kzmix", FloatKind),
    Param("maxdim", FloatKind),
    Param("maxpar", FloatKind),
    Param("mgmin", FloatKind),
    Param("n_met_min", FloatKind),
    Param("ncycl", FloatKind),
    Param("ndump", FloatKind),
    Param("ninit", FloatKind),
    Param("nstr", FloatKind),
    Param("nturb", FloatKind),
    Param("numpar", IntKind),
    Param("nver", FloatKind),
    Param("outdt", FloatKind),
    Param("outfrac", FloatKind),
    Param("p10f", FloatKind),
    Param("pinbc", StrKind),
    Param("pinpf", StrKind),
    Param("poutf", StrKind),
    Param("projection", StrKind),
    Param("qcycle", FloatKind),
    Param("random", FloatKind),
    Param("rhb", FloatKind),
    Param("rht", FloatKind),
    Param("rm_dat", BoolKind),
    Param("siguverr", FloatKind),
    Param("sigzierr", FloatKind),
    Param("simulation_id", StrKind),
    Param("smooth_factor", FloatKind),
    Param("splitf", FloatKind),
    ParamDefaulting("time_integrate", BoolKind, SBool(true)),
    Param("tkerd", FloatKind),
    Param("tkern", FloatKind),
    Param("tlfrac", FloatKind),
    Param("tluverr", FloatKind),
    Param("tlzierr", FloatKind),
    Param("tout", FloatKind),
    Param("tratio", FloatKind),
    Param("tvmix", FloatKind),
    Param("varsiwant", StrKind),
    Param("veght", FloatKind),
    Param("vscale", FloatKind),
    Param("vscaleu", FloatKind),
    Param("vscales", FloatKind),
    Param("w_option", FloatKind),
    Param("wbbh", FloatKind),
    Param("wbwf", FloatKind),
    Param("wbwr", FloatKind),
    Param("wvert", BoolKind),
    Param("zicontroltf", FloatKind),
    Param("ziscale", FloatKind),
    Param("z_top", FloatKind),
    Param("zcoruverr", FloatKind)
  ]

  /** The number of optional parameters in the table above. */
  const ParamCount: nat := 89

  /** The optional parameters as the schema that validates them. This is the
      table above, read through `OptionalAt` one entry at a time: a proof that
      mentions the schema then sees only the entry it asks for, never the
      whole literal (whose length alone is enough to bring it in, which is
      why the count is a separate constant). */
  function OptionalSchema(): (s: seq<OptionalSpec>)
  {
    seq(ParamCount, i requires 0 <= i < ParamCount => OptionalAt(i))
  }

  function OptionalAt(i: nat): OptionalSpec
    requires i < ParamCount
  {
    OptionalParams[i]
  }

  /** The position of `time_integrate` among the optional parameters. */
  const TimeIntegrate: nat := 66

  /** A validated simulation configuration. `params` holds the optional
      parameters' values in declaration order, None where a parameter is
      unset. */
  datatype SimulationConfig = SimulationConfig(
    nHours: int,
    xmn: Longitude, xmx: Longitude, xres: Resolution,
    ymn: Latitude, ymx: Latitude, yres: Resolution,
    timeout: int,
    params: seq<Option<Scalar>>)

  /** One value per optional parameter, each set value of its declared kind. */
  predicate ParamsWellTyped(schema: seq<FieldSpec>, params: seq<Option<Scalar>>)
  {
    |params| == |schema| &&
    forall i :: 0 <= i < |params| && params[i].Some? ==> HasKind(params[i].value, schema[i].kind)
  }

  function IntAt(vals: seq<Option<Scalar>>, i: nat): int
    requires i < |vals| && vals[i].Some? && vals[i].value.SInt?
  {
    vals[i].value.i
  }

  /** Builds a `SimulationConfig` from a dictionary. The errors are those of
      the declared fields followed by those of the optional parameters. */
  function ParseSimulationConfig(v: Value): (r: Result<SimulationConfig, seq<Violation>>)
    ensures !v.VDict? ==> r == Failure([Violation([], NotADict)])
    ensures v.VDict? ==> (r.Success? <==>
              ValidateFields(v.fields, SimulationSchema).Success? && ValidateFields(v.fields, OptionalSchema()).Success?)
    ensures v.VDict? && r.Failure? ==>
              r.error == ErrorsOf(ValidateFields(v.fields, SimulationSchema)) + ErrorsOf(ValidateFields(v.fields, OptionalSchema()))
    ensures r.Success? ==> ParamsWellTyped(OptionalSchema(), r.value.params)
    ensures r.Failure? ==> |r.error| > 0
  {
    ParseSimulation(v, OptionalSchema())
  }

  /** ParseSimulationConfig for a given table of optional parameters. */
  function ParseSimulation(v: Value, optional: seq<OptionalSpec>): (r: Result<SimulationConfig, seq<Violation>>)
    ensures !v.VDict? ==> r == Failure([Violation([], NotADict)])
    ensures v.VDict? ==> (r.Success? <==>
              ValidateFields(v.fields, SimulationSchema).Success? && ValidateFields(v.fields, optional).Success?)
    ensures v.VDict? && r.Failure? ==>
              r.error == ErrorsOf(ValidateFields(v.fields, SimulationSchema)) + ErrorsOf(ValidateFields(v.fields, optional))
    ensures v.VDict? && r.Success? ==> r.value.params == ValidateFields(v.fields, optional).value
    ensures r.Success? ==> ParamsWellTyped(optional, r.value.params)
    ensures r.Failure? ==> |r.error| > 0
  {
    if !v.VDict? then Failure([Violation([], NotADict)])
    else
      var m := v.fields;
      var declared := ValidateFields(m, SimulationSchema);
      var given := ValidateFields(m, optional);
      if declared.Failure? || given.Failure? then Failure(ErrorsOf(declared) + ErrorsOf(given))
      else
        var vals := declared.value;
        assert vals[0] == ValidateField(m, SimulationSchema[0]).value;
        assert vals[1] == ValidateField(m, SimulationSchema[1]).value;
        assert vals[2] == ValidateField(m, SimulationSchema[2]).value;
        assert vals[3] == ValidateField(m, SimulationSchema[3]).value;
        assert vals[4] == ValidateField(m, SimulationSchema[4]).value;
        assert vals[5] == ValidateField(m, SimulationSchema[5]).value;
        assert vals[6] == ValidateField(m, SimulationSchema[6]).value;
        assert vals[7] == ValidateField(m, SimulationSchema[7]).value;
        GivenWellTyped(m, optional);
        Success(SimulationConfig(
          IntAt(vals, 0),
          FloatAt(vals, 1), FloatAt(vals, 2), FloatAt(vals, 3),
          FloatAt(vals, 4), FloatAt(vals, 5), FloatAt(vals, 6),
          IntAt(vals, 7),
          given.value))
  }

  /** Validated optional parameters are each of their declared kind. */
  lemma GivenWellTyped(m: map<string, Value>, optional: seq<OptionalSpec>)
    ensures ValidateFields(m, optional).Success? ==> ParamsWellTyped(optional, ValidateFields(m, optional).value)
  {
    var given := ValidateFields(m, optional);
    if given.Success? {
      forall i | 0 <= i < |optional| && given.value[i].Some?
        ensures HasKind(given.value[i].value, optional[i].kind)
      {
        assert PassThrough(optional[i]);
      }
    }
  }

  /** Field `name` of `m` is an integer. */
  predicate IntField(m: map<string, Value>, name: string)
  {
    name in m && m[name].VInt?
  }

  /** Field `name` of `m` is a number no finer than the smallest resolution. */
  predicate ResolutionField(m: map<string, Value>, name: string)
  {
    name in m && IsNumber(m[name]) && IsResolution(AsNumber(m[name]))
  }

  /** An optional parameter is absent, null, or of its declared kind. */
  predicate OptionalGiven(m: map<string, Value>, f: FieldSpec)
  {
    f.name !in m || m[f.name] == VNull || Fits(m[f.name], f.kind)
  }

  /** The optional parameters are accepted exactly when each is absent,
      null, or of its kind. */
  lemma OptionalAccepts(m: map<string, Value>, optional: seq<OptionalSpec>)
    ensures ValidateFields(m, optional).Success? <==> forall i :: 0 <= i < |optional| ==> OptionalGiven(m, optional[i])
  {
    forall i | 0 <= i < |optional|
      ensures ValidateField(m, optional[i]).Success? <==> OptionalGiven(m, optional[i])
    {
      OptionalField(m, optional[i]);
    }
  }

  /** The declared fields of a simulation configuration, read directly. */
  predicate DeclaredGiven(m: map<string, Value>)
  {
    IntField(m, "n_hours") &&
    LongitudeField(m, "xmn") && LongitudeField(m, "xmx") && ResolutionField(m, "xres") &&
    LatitudeField(m, "ymn") && LatitudeField(m, "ymx") && ResolutionField(m, "yres") &&
    ("timeout" !in m || m["timeout"].VInt?)
  }

  lemma DeclaredAccepts(m: map<string, Value>)
    ensures ValidateFields(m, SimulationSchema).Success? <==> DeclaredGiven(m)
  {
    DeclaredEach(m);
    var ok := ValidateField(m, SimulationSchema[0]).Success? && ValidateField(m, SimulationSchema[1]).Success? &&
              ValidateField(m, SimulationSchema[2]).Success? && ValidateField(m, SimulationSchema[3]).Success? &&
              ValidateField(m, SimulationSchema[4]).Success? && ValidateField(m, SimulationSchema[5]).Success? &&
              ValidateField(m, SimulationSchema[6]).Success? && ValidateField(m, SimulationSchema[7]).Success?;
    if ok {
      forall i | 0 <= i < |SimulationSchema|
        ensures ValidateField(m, SimulationSchema[i]).Success?
      {
        assert i == 0 || i == 1 || i == 2 || i == 3 || i == 4 || i == 5 || i == 6 || i == 7;
      }
    }
  }

  /** Each declared field on its own. */
  lemma DeclaredEach(m: map<string, Value>)
    ensures ValidateField(m, SimulationSchema[0]).Success? <==> IntField(m, "n_hours")
    ensures ValidateField(m, SimulationSchema[1]).Success? <==> LongitudeField(m, "xmn")
    ensures ValidateField(m, SimulationSchema[2]).Success? <==> LongitudeField(m, "xmx")
    ensures ValidateField(m, SimulationSchema[3]).Success? <==> ResolutionField(m, "xres")
    ensures ValidateField(m, SimulationSchema[4]).Success? <==> LatitudeField(m, "ymn")
    ensures ValidateField(m, SimulationSchema[5]).Success? <==> LatitudeField(m, "ymx")
    ensures ValidateField(m, SimulationSchema[6]).Success? <==> ResolutionField(m, "yres")
    ensures ValidateField(m, SimulationSchema[7]).Success? <==> "timeout" !in m || m["timeout"].VInt?
  {
    RequiredFloat(m, SimulationSchema[1]);
    RequiredFloat(m, SimulationSchema[2]);
    RequiredFloat(m, SimulationSchema[3]);
    RequiredFloat(m, SimulationSchema[4]);
    RequiredFloat(m, SimulationSchema[5]);
    RequiredFloat(m, SimulationSchema[6]);
  }

  /** ParseSimulation accepts exactly the dictionaries whose declared fields
      and optional parameters are all acceptable, and keeps their values. */
  lemma SimulationAccepts(v: Value, optional: seq<OptionalSpec>)
    ensures ParseSimulation(v, optional).Success? <==>
              v.VDict? && DeclaredGiven(v.fields) &&
              forall i :: 0 <= i < |optional| ==> OptionalGiven(v.fields, optional[i])
    ensures ParseSimulation(v, optional).Success? ==>
              var c, m := ParseSimulation(v, optional).value, v.fields;
              c.nHours == m["n_hours"].i &&
              c.xmn == AsNumber(m["xmn"]) && c.xmx == AsNumber(m["xmx"]) && c.xres == AsNumber(m["xres"]) &&
              c.ymn == AsNumber(m["ymn"]) && c.ymx == AsNumber(m["ymx"]) && c.yres == AsNumber(m["yres"]) &&
              c.timeout == (if "timeout" in m then m["timeout"].i else 60)
  {
    SimulationSucceeds(v, optional);
    SimulationValues(v, optional);
  }

  /** The acceptance half of SimulationAccepts. */
  lemma SimulationSucceeds(v: Value, optional: seq<OptionalSpec>)
    ensures ParseSimulation(v, optional).Success? <==>
              v.VDict? && DeclaredGiven(v.fields) &&
              forall i :: 0 <= i < |optional| ==> OptionalGiven(v.fields, optional[i])
  {
    if v.VDict? {
      DeclaredAccepts(v.fields);
      OptionalAccepts(v.fields, optional);
    }
  }

  /** The values half of SimulationAccepts. */
  lemma SimulationValues(v: Value, optional: seq<OptionalSpec>)
    ensures ParseSimulation(v, optional).Success? ==>
              var c, m := ParseSimulation(v, optional).value, v.fields;
              c.nHours == m["n_hours"].i &&
              c.xmn == AsNumber(m["xmn"]) && c.xmx == AsNumber(m["xmx"]) && c.xres == AsNumber(m["xres"]) &&
              c.ymn == AsNumber(m["ymn"]) && c.ymx == AsNumber(m["ymx"]) && c.yres == AsNumber(m["yres"]) &&
              c.timeout == (if "timeout" in m then m["timeout"].i else 60)
  {
    if v.VDict? {
      var m := v.fields;
      DeclaredAccepts(m);
      RequiredFloat(m, SimulationSchema[1]);
      RequiredFloat(m, SimulationSchema[2]);
      RequiredFloat(m, SimulationSchema[3]);
      RequiredFloat(m, SimulationSchema[4]);
      RequiredFloat(m, SimulationSchema[5]);
      RequiredFloat(m, SimulationSchema[6]);
    }
  }

  /** A dictionary is a valid simulation configuration exactly when the
      duration is an integer, the bounds are in range, both resolutions are
      at least 0.001, the timeout is absent or an integer, and every optional
      parameter is absent, null or of its kind. The configuration then holds
      those values, and the timeout is 60 when it was not given. */
  lemma SimulationConfigAccepts(v: Value)
    ensures ParseSimulationConfig(v).Success? <==>
              v.VDict? && DeclaredGiven(v.fields) &&
              forall i :: 0 <= i < |OptionalSchema()| ==> OptionalGiven(v.fields, OptionalSchema()[i])
    ensures ParseSimulationConfig(v).Success? ==>
              var c, m := ParseSimulationConfig(v).value, v.fields;
              c.nHours == m["n_hours"].i &&
              c.xmn == AsNumber(m["xmn"]) && c.xmx == AsNumber(m["xmx"]) && c.xres == AsNumber(m["xres"]) &&
              c.ymn == AsNumber(m["ymn"]) && c.ymx == AsNumber(m["ymx"]) && c.yres == AsNumber(m["yres"]) &&
              c.timeout == (if "timeout" in m then m["timeout"].i else 60)
  {
    SimulationAccepts(v, OptionalSchema());
  }

  /** The value a valid configuration records for optional parameter `i`:
      None when it is given as null, the given value when it is given, and
      its default (None for all but one) when it is absent. */
  lemma SimulationConfigParam(v: Value, i: nat)
    requires ParseSimulationConfig(v).Success?
    requires i < |OptionalSchema()|
    ensures var params, m, f := ParseSimulationConfig(v).value.params, v.fields, OptionalSchema()[i];
            params[i] == if f.name !in m then f.presence.fallback
                         else if m[f.name] == VNull then None
                         else Coerce(m[f.name], f.kind)
  {
    ParamOf(v, OptionalSchema(), i);
  }

  lemma ParamOf(v: Value, optional: seq<OptionalSpec>, i: nat)
    requires ParseSimulation(v, optional).Success?
    requires i < |optional|
    ensures var params, m, f := ParseSimulation(v, optional).value.params, v.fields, optional[i];
            params[i] == if f.name !in m then f.presence.fallback
                         else if m[f.name] == VNull then None
                         else Coerce(m[f.name], f.kind)
  {
    OptionalField(v.fields, optional[i]);
  }

  /** Entry 66 of the optional parameters is `time_integrate`, a boolean
      that defaults to true. */
  lemma TimeIntegrateEntry()
    ensures OptionalSchema()[TimeIntegrate] == FieldSpec("time_integrate", BoolKind, Unconstrained, Nullable(Some(SBool(true))))
  {
    assert OptionalSchema()[TimeIntegrate] == OptionalParams[66];
  }

  /** `time_integrate` is true unless given: absent, it takes its default;
      given as a boolean, it holds that boolean; given as null, it is unset. */
  lemma TimeIntegrateDefault(v: Value)
    requires ParseSimulationConfig(v).Success?
    ensures var t, m := ParseSimulationConfig(v).value.params[TimeIntegrate], v.fields;
            ("time_integrate" !in m ==> t == Some(SBool(true))) &&
            ("time_integrate" in m && m["time_integrate"].VBool? ==> t == Some(SBool(m["time_integrate"].b))) &&
            ("time_integrate" in m && m["time_integrate"] == VNull ==> t == None)
  {
    TimeIntegrateEntry();
    SimulationConfigParam(v, TimeIntegrate);
  }

  /** Every declared field that fails is reported under its own name. */
  lemma SimulationConfigReports(v: Value, i: nat)
    requires v.VDict? && i < |SimulationSchema|
    requires ValidateField(v.fields, SimulationSchema[i]).Failure?
    ensures ParseSimulationConfig(v).Failure?
    ensures Violation([SimulationSchema[i].name], ValidateField(v.fields, SimulationSchema[i]).error) in ParseSimulationConfig(v).error
  {
  }

  /** A resolution finer than 0.001 degrees is rejected, with the error
      placed on that field. */
  lemma FineResolutionRejected(v: Value)
    requires v.VDict? && "yres" in v.fields && IsNumber(v.fields["yres"]) && AsNumber(v.fields["yres"]) < 0.001
    ensures ParseSimulationConfig(v).Failure?
    ensures Violation(["yres"], OutOfRange(ResolutionFloor)) in ParseSimulationConfig(v).error
  {
    SimulationConfigReports(v, 6);
  }

  /** Keys that are neither declared fields nor optional parameters are
      ignored. */
  lemma SimulationConfigIgnoresUnknown(m: map<string, Value>, k: string, x: Value)
    requires forall i :: 0 <= i < |SimulationSchema| ==> SimulationSchema[i].name != k
    requires forall i :: 0 <= i < |OptionalSchema()| ==> OptionalSchema()[i].name != k
    ensures ParseSimulationConfig(VDict(m[k := x])) == ParseSimulationConfig(VDict(m))
  {
    ValidateFieldsIgnoresOthers(m, k, x, SimulationSchema);
    ValidateFieldsIgnoresOthers(m, k, x, OptionalSchema());
  }

  /** A gridded scene: the grid of receptor points, the simulation settings
      and the meteorology source. */
  datatype GriddedScene = GriddedScene(pixelGrid: Grid, simulationConfig: SimulationConfig, meteorologyModel: MeteorologyModel)

  /** A domain: a gridded scene that may be switched off. `isEnabled` is
      None when the document sets it to null. */
  datatype DomainConfig = DomainConfig(scene: GriddedScene, isEnabled: Option<bool>)

  /** The value of a field that holds a nested model or an enumeration: it
      must be present and not null. */
  function NestedValue(m: map<string, Value>, name: string): (r: Result<Value, seq<Violation>>)
    ensures name !in m ==> r == Failure([Violation([name], FieldRequired)])
    ensures name in m && m[name] == VNull ==> r == Failure([Violation([name], NoneNotAllowed)])
    ensures name in m && m[name] != VNull ==> r == Success(m[name])
  {
    if name !in m then Failure([Violation([name], FieldRequired)])
    else if m[name] == VNull then Failure([Violation([name], NoneNotAllowed)])
    else Success(m[name])
  }

  /** The `pixel_grid` field; its own errors are reported beneath it. */
  function PixelGridField(m: map<string, Value>): (r: Result<Grid, seq<Violation>>)
    ensures r.Success? <==> "pixel_grid" in m && ParseGrid(m["pixel_grid"]).Success?
    ensures r.Success? ==> r.value == ParseGrid(m["pixel_grid"]).value
    ensures r.Failure? ==> |r.error| > 0
  {
    match NestedValue(m, "pixel_grid")
    case Failure(es) => Failure(es)
    case Success(v) =>
      match ParseGrid(v)
      case Success(g) => Success(g)
      case Failure(es) => Failure(Nest("pixel_grid", es))
  }

  /** The `simulation_config` field; its own errors are reported beneath it. */
  function SimulationConfigField(m: map<string, Value>): (r: Result<SimulationConfig, seq<Violation>>)
    ensures r.Success? <==> "simulation_config" in m && ParseSimulationConfig(m["simulation_config"]).Success?
    ensures r.Success? ==> r.value == ParseSimulationConfig(m["simulation_config"]).value
    ensures r.Failure? ==> |r.error| > 0
  {
    match NestedValue(m, "simulation_config")
    case Failure(es) => Failure(es)
    case Success(v) =>
      var parsed := ParseSimulationConfig(v);
      if parsed.Success? then Success(parsed.value)
      else
        assert |parsed.error| > 0;
        Failure(Nest("simulation_config", parsed.error))
  }

  /** The `meteorology_model` field. */
  function MeteorologyModelField(m: map<string, Value>): (r: Result<MeteorologyModel, seq<Violation>>)
    ensures r.Success? <==> "meteorology_model" in m && ParseModel(m["meteorology_model"]).Success?
    ensures r.Success? ==> r.value == ParseModel(m["meteorology_model"]).value
    ensures r.Failure? ==> |r.error| > 0
  {
    match NestedValue(m, "meteorology_model")
    case Failure(es) => Failure(es)
    case Success(v) =>
      match ParseModel(v)
      case Success(mm) => Success(mm)
      case Failure(p) => Failure([Violation(["meteorology_model"], p)])
  }

  /** `is_enabled` is an optional boolean that defaults to true. */
  const IsEnabledSpec: FieldSpec := FieldSpec("is_enabled", BoolKind, Unconstrained, Nullable(Some(SBool(true))))

  /** The `is_enabled` field. */
  function IsEnabledField(m: map<string, Value>): (r: Result<Option<bool>, seq<Violation>>)
    ensures r.Success? <==> "is_enabled" !in m || m["is_enabled"] == VNull || m["is_enabled"].VBool?
    ensures r.Success? ==> r.value == if "is_enabled" !in m then Some(true)
                                       else if m["is_enabled"] == VNull then None
                                       else Some(m["is_enabled"].b)
    ensures r.Failure? ==> r.error == [Violation(["is_enabled"], WrongType(BoolKind))]
  {
    match ValidateField(m, IsEnabledSpec)
    case Failure(p) => Failure([Violation(["is_enabled"], p)])
    case Success(None) => Success(None)
    case Success(Some(s)) => Success(Some(s.b))
  }

  /** The reference reading of a domain's fields, independent of the
      field functions: its grid, simulation settings and meteorology model are
      present and valid, and `is_enabled` is absent, null or a boolean. */
  predicate DomainFields(m: map<string, Value>)
  {
    "pixel_grid" in m && ParseGrid(m["pixel_grid"]).Success? &&
    "simulation_config" in m && ParseSimulationConfig(m["simulation_config"]).Success? &&
    "meteorology_model" in m &&
    (m["meteorology_model"] == VStr("hrrr") || m["meteorology_model"] == VStr("hrrr_forecast")) &&
    ("is_enabled" !in m || m["is_enabled"] == VNull || m["is_enabled"].VBool?)
  }

  /** Builds a `DomainConfig` from a dictionary: the scene's three fields,
      then `is_enabled`. A dictionary is a valid domain exactly when its
      fields read as `DomainFields` says; the domain then holds those parts,
      and is enabled when `is_enabled` is absent. Otherwise the errors are
      the four fields' own, in declaration order. */
  function ParseDomainConfig(v: Value): (r: Result<DomainConfig, seq<Violation>>)
    ensures !v.VDict? ==> r == Failure([Violation([], NotADict)])
    ensures r.Success? <==> v.VDict? && DomainFields(v.fields)
    ensures r.Success? ==>
              var d, m := r.value, v.fields;
              d.scene.pixelGrid == ParseGrid(m["pixel_grid"]).value &&
              d.scene.simulationConfig == ParseSimulationConfig(m["simulation_config"]).value &&
              VStr(ModelName(d.scene.meteorologyModel)) == m["meteorology_model"] &&
              d.isEnabled == (if "is_enabled" !in m then Some(true)
                              else if m["is_enabled"] == VNull then None
                              else Some(m["is_enabled"].b))
    ensures v.VDict? && r.Failure? ==>
              r.error == ErrorsOf(PixelGridField(v.fields)) + ErrorsOf(SimulationConfigField(v.fields)) +
                         ErrorsOf(MeteorologyModelField(v.fields)) + ErrorsOf(IsEnabledField(v.fields))
    ensures r.Failure? ==> |r.error| > 0
  {
    if !v.VDict? then Failure([Violation([], NotADict)])
    else
      var m := v.fields;
      var grid := PixelGridField(m);
      var simulation := SimulationConfigField(m);
      var model := MeteorologyModelField(m);
      var enabled := IsEnabledField(m);
      if grid.Success? && simulation.Success? && model.Success? && enabled.Success? then
        Success(DomainConfig(GriddedScene(grid.value, simulation.value, model.value), enabled.value))
      else
        Failure(ErrorsOf(grid) + ErrorsOf(simulation) + ErrorsOf(model) + ErrorsOf(enabled))
  }

  /** An error in the grid is reported under `pixel_grid`, followed by the
      grid field's own name. */
  lemma DomainConfigReportsGrid(v: Value, i: nat)
    requires v.VDict? && "pixel_grid" in v.fields && v.fields["pixel_grid"].VDict?
    requires i < |GridSchema| && ValidateField(v.fields["pixel_grid"].fields, GridSchema[i]).Failure?
    ensures ParseDomainConfig(v).Failure?
    ensures Violation(["pixel_grid", GridSchema[i].name], ValidateField(v.fields["pixel_grid"].fields, GridSchema[i]).error)
              in ParseDomainConfig(v).error
  {
    var g := v.fields["pixel_grid"];
    var es := ValidateFields(g.fields, GridSchema).error;
    var e := Violation([GridSchema[i].name], ValidateField(g.fields, GridSchema[i]).error);
    var k :| 0 <= k < |es| && es[k] == e;
    assert Nest("pixel_grid", es)[k] == Violation(["pixel_grid", GridSchema[i].name], e.problem);
  }

  /** A grid bound outside the longitude range is rejected, and the error is
      placed at `pixel_grid.xmin`. */
  lemma GridBoundRejected(v: Value)
    requires v.VDict? && "pixel_grid" in v.fields && v.fields["pixel_grid"].VDict?
    requires var g := v.fields["pixel_grid"].fields;
             "xmin" in g && IsNumber(g["xmin"]) && !IsLongitude(AsNumber(g["xmin"]))
    ensures ParseDomainConfig(v).Failure?
    ensures Violation(["pixel_grid", "xmin"], OutOfRange(LongitudeRange)) in ParseDomainConfig(v).error
  {
    DomainConfigReportsGrid(v, 0);
  }

  /** A missing part of the scene is reported as required, at its name. */
  lemma DomainConfigMissing(v: Value, name: string)
    requires v.VDict? && name !in v.fields
    requires name == "pixel_grid" || name == "simulation_config" || name == "meteorology_model"
    ensures ParseDomainConfig(v).Failure?
    ensures Violation([name], FieldRequired) in ParseDomainConfig(v).error
  {
  }
}
