/** Loading the domains document: every top-level entry names a domain and
    holds its configuration, and each is turned into a `DomainConfig`. The
    document's entries are given in order, as the YAML loader returns them;
    reading the file is outside the model. */
module Loader {
  import opened Wrappers
  import opened Schema
  import opened Config

  /** Why loading stops: an entry that is not a mapping cannot be spread
      into keyword arguments, and an entry that is a mapping can fail
      validation. */
  datatype LoadError = NotAMapping | ValidationError(violations: seq<Violation>)

  /** Loads one entry: its value is spread into `DomainConfig`, so it must be
      a mapping, and then it must validate. An entry loads exactly when it is
      a mapping whose fields read as a domain; a mapping that does not is
      reported with at least one violation. */
  function LoadEntry(v: Value): (r: Result<DomainConfig, LoadError>)
    ensures r.Success? <==> v.VDict? && DomainFields(v.fields)
    ensures r.Success? ==> r.value == ParseDomainConfig(v).value
    ensures r == Failure(NotAMapping) <==> !v.VDict?
    ensures r.Failure? && v.VDict? ==> r.error.ValidationError? && |r.error.violations| > 0
    ensures r.Failure? && v.VDict? ==> r.error == ValidationError(ParseDomainConfig(v).error)
  {
    if !v.VDict? then Failure(NotAMapping)
    else
      match ParseDomainConfig(v)
      case Success(d) => Success(d)
      case Failure(es) => Failure(ValidationError(es))
  }

  /** Entry `i` is the first whose result is an error. */
  predicate FirstFailure<T, E>(results: seq<(string, Result<T, E>)>, i: nat)
  {
    i < |results| && results[i].1.Failure? && forall j :: 0 <= j < i ==> results[j].1.Success?
  }

  /** Builds the dictionary's entries from each entry's result, in order,
      and fails with the first error, as a comprehension that raises does. */
  function Collect<T, E(==)>(results: seq<(string, Result<T, E>)>): (r: Result<seq<(string, T)>, E>)
    ensures r.Success? <==> forall i :: 0 <= i < |results| ==> results[i].1.Success?
    ensures r.Success? ==> |r.value| == |results|
    ensures r.Success? ==> forall i :: 0 <= i < |results| ==> r.value[i] == (results[i].0, results[i].1.value)
    ensures r.Failure? ==> exists i: nat :: FirstFailure(results, i) && r.error == results[i].1.error
  {
    if results == [] then Success([])
    else if results[0].1.Failure? then
      assert FirstFailure(results, 0);
      Failure(results[0].1.error)
    else
      var rest := Collect(results[1..]);
      assert forall i :: 1 <= i < |results| ==> results[1..][i - 1] == results[i];
      match rest
      case Success(tail) => Success([(results[0].0, results[0].1.value)] + tail)
      case Failure(e) =>
        var i: nat :| FirstFailure(results[1..], i) && e == results[1..][i].1.error;
        assert FirstFailure(results, i + 1);
        Failure(e)
  }

  /** `load_domain_configs` after the document is read: each entry becomes
      a `DomainConfig` under its name, in document order, and the first entry
      that does not load stops the loading with its error. */
  function LoadDomainConfigs(entries: seq<(string, Value)>): (r: Result<seq<(string, DomainConfig)>, LoadError>)
    ensures r.Success? <==> forall i :: 0 <= i < |entries| ==> LoadEntry(entries[i].1).Success?
    ensures r.Success? ==> |r.value| == |entries|
    ensures r.Success? ==> forall i :: 0 <= i < |entries| ==>
              r.value[i] == (entries[i].0, ParseDomainConfig(entries[i].1).value)
    ensures r.Failure? ==> exists i: nat :: i < |entries| && LoadEntry(entries[i].1).Failure? &&
                                            (forall j :: 0 <= j < i ==> LoadEntry(entries[j].1).Success?) &&
                                            r.error == LoadEntry(entries[i].1).error
  {
    var results := seq(|entries|, i requires 0 <= i < |entries| => (entries[i].0, LoadEntry(entries[i].1)));
    var r := Collect(results);
    assert forall i :: 0 <= i < |entries| ==> results[i] == (entries[i].0, LoadEntry(entries[i].1));
    r
  }

  /** The dictionary built from named entries: each name maps to its value,
      a later entry replacing an earlier one of the same name. */
  function Dict<T>(pairs: seq<(string, T)>): (d: map<string, T>)
    ensures d.Keys == set i | 0 <= i < |pairs| :: pairs[i].0
  {
    if pairs == [] then map[]
    else
      var init := Dict(pairs[..|pairs| - 1]);
      assert forall i :: 0 <= i < |pairs| - 1 ==> pairs[..|pairs| - 1][i] == pairs[i];
      init[pairs[|pairs| - 1].0 := pairs[|pairs| - 1].1]
  }

  /** Names that occur once each. */
  predicate DistinctNames<T>(pairs: seq<(string, T)>)
  {
    forall i, j :: 0 <= i < j < |pairs| ==> pairs[i].0 != pairs[j].0
  }

  /** With distinct names, every entry can be looked up by its name. */
  lemma {:induction false} DictLookup<T>(pairs: seq<(string, T)>, i: nat)
    requires i < |pairs| && DistinctNames(pairs)
    ensures pairs[i].0 in Dict(pairs)
    ensures Dict(pairs)[pairs[i].0] == pairs[i].1
  {
    var n := |pairs| - 1;
    if i < n {
      var init := pairs[..n];
      assert forall j :: 0 <= j < n ==> init[j] == pairs[j];
      DictLookup(init, i);
      assert pairs[n].0 != pairs[i].0;
    }
  }

  /** Loading a document whose names are distinct yields a dictionary with
      exactly those names, each mapping to its entry's configuration. */
  lemma LoadedDomains(entries: seq<(string, Value)>, i: nat)
    requires DistinctNames(entries)
    requires LoadDomainConfigs(entries).Success?
    requires i < |entries|
    ensures var d := Dict(LoadDomainConfigs(entries).value);
            d.Keys == (set j | 0 <= j < |entries| :: entries[j].0) &&
            entries[i].0 in d && d[entries[i].0] == ParseDomainConfig(entries[i].1).value
  {
    var configs := LoadDomainConfigs(entries).value;
    SameNames(entries, configs);
    DictLookup(configs, i);
  }

  /** Two entry lists with the same names in the same order. */
  lemma SameNames<T, U>(xs: seq<(string, T)>, ys: seq<(string, U)>)
    requires |xs| == |ys| && forall j :: 0 <= j < |xs| ==> xs[j].0 == ys[j].0
    ensures DistinctNames(xs) ==> DistinctNames(ys)
    ensures (set j | 0 <= j < |xs| :: xs[j].0) == (set j | 0 <= j < |ys| :: ys[j].0)
  {
  }
}
