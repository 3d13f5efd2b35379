# Domain configurations and receptor grids, modelled in Dafny

This project models the core of `scene_generator.py` from the air-tracker
domains repository. That program reads named geographic domains, validates
each one, and expands each domain's pixel grid into receptor points for a
footprint simulation. The model covers five pieces:

- **`from_to_by`** (`Sequences`): an inclusive arithmetic sequence of rounded
  coordinates. Python's `round` is in `Rounding`: half to even, to an integer
  or to `d` decimal places.
- **`Point` and `Grid`** (`Geo`): `Grid.to_points`, and the validation of both
  models. Points come out x-major and y-minor.
- **`MeteorologyModel`, `SimulationConfig`, `GriddedScene` and
  `DomainConfig`** (`Config`): their required fields, defaults, range
  constraints and error reporting. This includes the 89 optional
  pass-through parameters of the simulation, of which only `time_integrate`
  has a default (true).
- **The step of `load_domain_configs`** that turns each entry of the parsed
  document into a `DomainConfig` under its name (`Loader`).
- **Field validation** (`Schema`): how a field declaration validates a field,
  described once as data. Each field has a kind, an optional range
  constraint, and is required, defaulted or nullable. Every model above is a
  list of such declarations.

Numbers are exact reals; binary floating point is not modelled. Parsed YAML is
the `Value` tree. A validation failure is a list of `Violation`s, one per
failing field in declaration order, each located by its field path.

Two behaviours of the code that a reader might not expect:

- `to_points` does not guarantee that every point is in range. The rounded
  element count of `from_to_by` can step past the upper bound by up to half a
  step. The offending `Point` then fails validation and `to_points` raises.
  `Geo.ValidGridMayFailToExpand` exhibits a valid grid for which this
  happens.
- `from_to_by` accepts negative steps, and only a zero step fails.

## Model

| member | source | states |
|---|---|---|
| Rounding.RoundHalfEven | scene_generator.py:27 | `round(x)` is an integer within one half of `x`, and even on a tie |
| Rounding.RoundHalfEvenUnique | scene_generator.py:27 | those two properties determine `round(x)` completely |
| Rounding.RoundHalfEvenOfInt | scene_generator.py:27 | rounding an integer gives it back |
| Rounding.RoundHalfEvenMonotone | scene_generator.py:27 | `round` is monotone |
| Rounding.RoundDigits | scene_generator.py:28 | `round(x, d)` has at most `d` decimals, is within half a unit in the last place of `x`, and on a tie is the even number of units |
| Rounding.RoundTo | scene_generator.py:28 | the same, for a grid of any step `1/s` |
| Rounding.RoundToUnique | scene_generator.py:28 | those three properties determine the rounded value completely |
| Rounding.RoundDigitsUnique | scene_generator.py:28 | those three properties determine `round(x, d)` completely |
| Rounding.RoundDigitsTie | scene_generator.py:28 | `round(0.125, 2)` is 0.12: a tie goes to the even neighbour |
| Rounding.RoundDigitsOnLattice | scene_generator.py:28 | a number with at most `d` decimals is left unchanged |
| Rounding.RoundDigitsMonotone | scene_generator.py:28 | `round(x, d)` is monotone in `x` |
| Rounding.RoundDigitsIdempotent | scene_generator.py:28 | rounding twice to `d` places is rounding once |
| Rounding.RoundDigitsBetween | scene_generator.py:28 | rounding stays between two `d`-decimal bounds around `x` |
| Sequences.FromToBy | scene_generator.py:25-28 | fails exactly when the step is zero (the division by zero); a non-empty sequence has `k + 1` elements where `k` is the integer nearest to `(stop - start) / step`, the even one on a tie |
| Sequences.FromToByCount | scene_generator.py:27 | any `k >= 0` nearest to the quotient, even on a tie, is the count minus one: the count is `round(q) + 1` |
| Sequences.FromToByTie | scene_generator.py:27-28 | from 0 to 2.5 by 1 gives exactly 0, 1 and 2, since 2.5 steps round to 2 |
| Sequences.FromToByNonEmpty | scene_generator.py:27-28 | the sequence is non-empty iff `stop` is at most half a step behind `start` |
| Sequences.FromToByElement | scene_generator.py:28 | element `i` is `round(start + step * i, digits)` |
| Sequences.FromToByFirst | scene_generator.py:28 | a non-empty sequence starts at `round(start, digits)` |
| Sequences.FromToByEndpoint | scene_generator.py:27-28 | the last element before rounding is within half a step of `stop`, on either side, and at exactly half a step the number of steps is even |
| Sequences.FromToByExact | scene_generator.py:27-28 | if `stop` is exactly `k` steps from `start`, there are `k + 1` elements and the last is `round(stop, digits)` |
| Sequences.FromToBySorted | scene_generator.py:28 | with a positive step the sequence is non-decreasing |
| Sequences.FromToByWithinBounds | scene_generator.py:25-28 | bounds with at most `digits` decimals, an exact number of steps apart, keep every element between them |
| Sequences.FromToByOvershoots | scene_generator.py:27-28 | from 179 to 179.9 by 0.6 gives three elements, the last at 180.2, beyond both `stop` and the longitude range |
| Schema.Coerce | scene_generator.py:37-42 | a float field takes any number (an int becomes the equal float); other kinds take only their own type |
| Schema.ValidateField | scene_generator.py:79-88 | absent: required fails, otherwise the default; null: accepted as None only for optional fields; given: accepted iff of its kind and in range, and then of that kind and range |
| Schema.RequiredFloat | scene_generator.py:20-22 | a required constrained float is accepted iff present, a number and in range, and then holds that number |
| Schema.OptionalField | scene_generator.py:88 | an unconstrained optional field is accepted iff absent, null or of its kind |
| Schema.ValidateFields | scene_generator.py:36-42 | a model is accepted iff every field is; otherwise exactly the failing fields are reported, each at its name |
| Schema.ValidateFieldsIgnoresOthers | scene_generator.py:56-86 | keys that no field names do not change the outcome |
| Geo.MakePoint | scene_generator.py:31-33 | a point is built iff x is a longitude and y a latitude; otherwise the errors name exactly the coordinates out of range |
| Geo.ParseGrid | scene_generator.py:36-42 | a non-dictionary is rejected as such; a dictionary is a grid iff both x bounds are longitudes, both y bounds latitudes and both steps numbers, and the grid then holds those numbers; otherwise the failing fields' errors, at least one |
| Geo.GridFieldsValidate | scene_generator.py:36-42 | the grid's fields validate together iff each of the six validates on its own |
| Geo.GridEach | scene_generator.py:36-42 | the same, one field at a time |
| Geo.ParseGridValue | scene_generator.py:36-42 | serialising a grid and validating it gives the grid back |
| Geo.ProductLength | scene_generator.py:48 | the comprehension over x and then y has one pair per x and y, as many as their counts multiplied |
| Geo.ProductAt | scene_generator.py:48 | pair number `i * len(ys) + j` is `(xs[i], ys[j])` |
| Geo.ProductCovers | scene_generator.py:48 | every pair is some `(xs[i], ys[j])` |
| Geo.MakePoints | scene_generator.py:48 | all points are built iff every pair is in range, coordinates kept in order; otherwise it fails at the first bad pair, with that pair's errors |
| Geo.ToPoints | scene_generator.py:44-48 | `to_points` fails with a division by zero exactly when a step is zero |
| Geo.ToPointsCount | scene_generator.py:46-48 | it yields `len(xs) * len(ys)` points |
| Geo.ToPointsOrder | scene_generator.py:48 | point number `i * len(ys) + j` is `(xs[i], ys[j])`: x outer, y inner |
| Geo.ToPointsSucceeds | scene_generator.py:44-48 | it succeeds iff an axis is empty, or every x is a longitude and every y a latitude |
| Geo.ToPointsWithinBounds | scene_generator.py:44-48 | bounds with at most eight decimals that are exact multiples of the steps apart expand without error, and every point lies within the bounds |
| Geo.ValidGridMayFailToExpand | scene_generator.py:44-48 | a valid grid from 179 to 179.9 by 0.6 fails at its third point |
| Geo.ToPointsSmallGrid | scene_generator.py:44-48 | a 3 by 2 grid yields its six points in x-major order |
| Config.ParseModel | scene_generator.py:51-53 | exactly "hrrr" and "hrrr_forecast" are meteorology models, and each reads as the model of that name |
| Config.ModelNameRoundTrip | scene_generator.py:51-53 | each model's name reads back as that model |
| Config.ParseSimulationConfig | scene_generator.py:56-176 | accepted iff the declared fields and optional parameters all validate; otherwise the declared fields' errors come first, then the parameters'; every set parameter has its declared type |
| Config.DeclaredEach | scene_generator.py:79-86 | each declared field on its own: `n_hours` an int, bounds in range, resolutions at least 0.001, timeout absent or an int |
| Config.DeclaredAccepts | scene_generator.py:79-86 | the declared fields are accepted iff each of them is, as above |
| Config.OptionalAccepts | scene_generator.py:88-176 | the optional parameters are accepted iff each is absent, null or of its kind |
| Config.SimulationConfigAccepts | scene_generator.py:79-176 | a simulation configuration is accepted iff its declared fields and optional parameters are; it holds their values, and the timeout is 60 when absent |
| Config.SimulationConfigParam | scene_generator.py:88-176 | each optional parameter holds None when null, its value when given, and its default when absent |
| Config.TimeIntegrateEntry | scene_generator.py:154 | `time_integrate` is an optional boolean that defaults to true |
| Config.TimeIntegrateDefault | scene_generator.py:154 | `time_integrate` is true when absent, the given boolean when given, and None when null |
| Config.SimulationConfigReports | scene_generator.py:79-86 | a failing declared field makes the configuration fail, with that field's error at its name |
| Config.FineResolutionRejected | scene_generator.py:22 | a resolution below 0.001 is rejected at `yres` as out of range |
| Config.SimulationConfigIgnoresUnknown | scene_generator.py:56-176 | a key that is neither a declared field nor a parameter does not change the outcome |
| Config.PixelGridField | scene_generator.py:180 | `pixel_grid` is accepted iff present and a valid grid, and then holds that grid |
| Config.SimulationConfigField | scene_generator.py:181 | `simulation_config` is accepted iff present and a valid configuration, and then holds it |
| Config.MeteorologyModelField | scene_generator.py:182 | `meteorology_model` is accepted iff present and a model name, and then holds that model |
| Config.IsEnabledField | scene_generator.py:186 | `is_enabled` is true when absent, None when null, the boolean when given, and otherwise a type error |
| Config.ParseDomainConfig | scene_generator.py:179-186 | a domain is accepted iff grid, configuration and model are present and valid and `is_enabled` is absent, null or a boolean; it then holds those parts and is enabled when the flag is absent; otherwise the four fields' errors in declaration order, at least one |
| Config.DomainConfigReportsGrid | scene_generator.py:180 | an error in a grid field is reported at `pixel_grid` followed by that field's name |
| Config.GridBoundRejected | scene_generator.py:20 | an `xmin` outside [-180, 180) is rejected at `pixel_grid.xmin` |
| Config.DomainConfigMissing | scene_generator.py:179-182 | a missing grid, configuration or model is reported as required at its name |
| Loader.LoadEntry | scene_generator.py:200 | an entry loads iff it is a mapping whose grid, configuration and model are present and valid and whose `is_enabled` is absent, null or a boolean; a non-mapping fails as such, and an invalid mapping with at least one violation |
| Loader.Collect | scene_generator.py:200 | the comprehension succeeds iff every entry does, keeps names and order, and otherwise raises the first entry's error |
| Loader.LoadDomainConfigs | scene_generator.py:197-200 | every entry becomes its validated domain under its name, in order; otherwise loading stops with the first failing entry's error |
| Loader.Dict | scene_generator.py:200 | the resulting dictionary's keys are exactly the entries' names |
| Loader.DictLookup | scene_generator.py:200 | with distinct names, each name looks up its own entry |
| Loader.LoadedDomains | scene_generator.py:197-200 | the loaded dictionary has exactly the document's names, each mapped to its entry's domain |

## Left out

- `main` (scene_generator.py:207-232) is not modelled. It covers the environment variable, posting each enabled domain to the scenes service, and logging. All of it is I/O.
- `CreateSceneDTO` (scene_generator.py:189-194) and its JSON serialisation are not modelled. They only carry data to the HTTP request.
- Reading `domains.yaml` and parsing YAML (scene_generator.py:198-199) are not modelled. The loader starts from the parsed document's entries, in order.
- If the document's top level is not a mapping, `.items()` fails. This case is not modelled.
- Binary floating point is not modelled: coordinates and rounding are exact reals. Near a half-step tie the element count of `from_to_by` can therefore differ from Python's by one, and with it whether an overshooting point exists. For example, `from_to_by(0, 0.15, 0.1)` has two elements in Python, because `0.15 / 0.1` evaluates just below 1.5, but three in the model. Away from ties, the rounded elements can differ from Python's in the last binary digit.
- Validation coercions other than int to float are not modelled. Examples are numeric strings, booleans read as numbers, numbers read as booleans, and floats truncated to ints. A value of another type is rejected as the wrong type.
- The wording of pydantic's error messages is not modelled. Each error is a location and a problem kind.
- `Loader.LoadedDomains`: a document with repeated names is not covered. A parsed YAML mapping cannot hold one, and the model's `Dict` keeps the last entry for such a name.
