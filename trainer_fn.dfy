/**
 * The data logic of the training callback: which columns become model
 * inputs, how the serving signature's feature spec loses its label, and
 * which hyperparameters the final fit uses.
 */
module TrainerFn {
  import opened Wrappers
  import opened PyValues
  import VertexConfigs

  /** The label column. */
  const LABEL_KEY: string := "Class"

  /** No element occurs twice: the keys of a dictionary. */
  ghost predicate Distinct(s: seq<string>) {
    forall i, j :: 0 <= i < j < |s| ==> s[i] != s[j]
  }

  /** A model input: a column whose name starts with "V" or with "Amount". */
  predicate IsFeatureKey(k: string) {
    "V" <= k || "Amount" <= k
  }

  /** The feature keys of a dictionary whose keys are `keys`, in dictionary order. */
  function GetFeatureKeys(keys: seq<string>): (r: seq<string>)
    ensures forall k :: k in r <==> k in keys && IsFeatureKey(k)
    ensures LABEL_KEY !in r
    ensures |r| <= |keys|
  {
    assert !IsFeatureKey(LABEL_KEY) by { assert LABEL_KEY[0] == 'C'; }
    if keys == [] then []
    else if IsFeatureKey(keys[0]) then [keys[0]] + GetFeatureKeys(keys[1..])
    else GetFeatureKeys(keys[1..])
  }

  /** The keys of a dictionary are distinct, and so are the feature keys selected from them. */
  lemma {:induction false} FeatureKeysDistinct(keys: seq<string>)
    requires Distinct(keys)
    ensures Distinct(GetFeatureKeys(keys))
  {
    if keys != [] {
      assert Distinct(keys[1..]);
      FeatureKeysDistinct(keys[1..]);
      assert keys[0] !in keys[1..];
    }
  }

  /** Selection keeps the dictionary's order: selecting from `a + b` is selecting from `a`, then from `b`. */
  lemma {:induction false} FeatureKeysKeepOrder(a: seq<string>, b: seq<string>)
    ensures GetFeatureKeys(a + b) == GetFeatureKeys(a) + GetFeatureKeys(b)
  {
    if a == [] {
      assert a + b == b;
    } else {
      var tail := a[1..];
      assert a + b == [a[0]] + (tail + b);
      FeatureKeysKeepOrder(tail, b);
      if IsFeatureKey(a[0]) {
        assert GetFeatureKeys(a) == [a[0]] + GetFeatureKeys(tail);
        assert GetFeatureKeys(a + b) == [a[0]] + GetFeatureKeys(tail + b);
      } else {
        assert GetFeatureKeys(a) == GetFeatureKeys(tail);
        assert GetFeatureKeys(a + b) == GetFeatureKeys(tail + b);
      }
    }
  }

  /** Selecting again from the selected keys changes nothing. */
  lemma {:induction false} FeatureKeysIdempotent(keys: seq<string>)
    ensures GetFeatureKeys(GetFeatureKeys(keys)) == GetFeatureKeys(keys)
  {
    if keys != [] {
      FeatureKeysIdempotent(keys[1..]);
      if IsFeatureKey(keys[0]) {
        assert ([keys[0]] + GetFeatureKeys(keys[1..]))[1..] == GetFeatureKeys(keys[1..]);
      }
    }
  }

  /** `s` with every occurrence of `k` removed, the rest in order. */
  function Without(s: seq<string>, k: string): (r: seq<string>)
    ensures forall x :: x in r <==> x in s && x != k
    ensures Distinct(s) ==> Distinct(r)
    ensures |r| <= |s|
  {
    if s == [] then []
    else if s[0] == k then Without(s[1..], k)
    else
      assert Distinct(s) ==> s[0] !in s[1..];
      [s[0]] + Without(s[1..], k)
  }

  /** Removing a key that is not there leaves the sequence as it was. */
  lemma {:induction false} WithoutAbsent(s: seq<string>, k: string)
    requires k !in s
    ensures Without(s, k) == s
  {
    if s != [] {
      assert k !in s[1..];
      WithoutAbsent(s[1..], k);
    }
  }

  /**
   * Deleting a key that occurs once, at position `i`, is cutting out that
   * position: every other key keeps its order.
   */
  lemma {:induction false} WithoutAt(s: seq<string>, i: nat, k: string)
    requires Distinct(s) && i < |s| && s[i] == k
    ensures Without(s, k) == s[..i] + s[i + 1..]
  {
    if i == 0 {
      assert k !in s[1..];
      WithoutAbsent(s[1..], k);
    } else {
      var tail := s[1..];
      assert Distinct(tail);
      WithoutAt(tail, i - 1, k);
      assert s[0] != k;
      assert s[..i] == [s[0]] + tail[..i - 1];
      assert s[i + 1..] == tail[i..];
    }
  }

  /** Dropping the label does not change which keys are features. */
  lemma {:induction false} FeatureKeysIgnoreLabel(keys: seq<string>)
    ensures GetFeatureKeys(Without(keys, LABEL_KEY)) == GetFeatureKeys(keys)
  {
    if keys != [] {
      FeatureKeysIgnoreLabel(keys[1..]);
      if keys[0] != LABEL_KEY {
        assert ([keys[0]] + Without(keys[1..], LABEL_KEY))[1..] == Without(keys[1..], LABEL_KEY);
      }
    }
  }

  // ---------------------------------------------------------------------
  // The serving signature's feature spec
  // ---------------------------------------------------------------------

  /** A feature spec dictionary: its keys in insertion order, and the spec of each key. */
  class FeatureSpec<V> {
    var keys: seq<string>
    var specs: map<string, V>

    ghost predicate Valid()
      reads this
    {
      Distinct(keys) && forall k :: k in specs <==> k in keys
    }

    constructor (keys: seq<string>, specs: map<string, V>)
      requires Distinct(keys) && forall k :: k in specs <==> k in keys
      ensures Valid() && this.keys == keys && this.specs == specs
    {
      this.keys := keys;
      this.specs := specs;
    }

    /** Deletes the label entry when there is one; every other entry stays, in its place. */
    method DeleteLabel()
      requires Valid()
      modifies this
      ensures Valid()
      ensures specs == old(specs) - {LABEL_KEY}
      ensures keys == Without(old(keys), LABEL_KEY)
    {
      if LABEL_KEY in specs {
        specs := specs - {LABEL_KEY};
        keys := Without(keys, LABEL_KEY);
      } else {
        WithoutAbsent(keys, LABEL_KEY);
      }
    }
  }

  /**
   * The feature spec the serving signature parses requests with: a fresh copy
   * of the raw spec, from which the label is then deleted.
   */
  method ServingFeatureSpec<V>(rawKeys: seq<string>, rawSpecs: map<string, V>) returns (spec: FeatureSpec<V>)
    requires Distinct(rawKeys) && forall k :: k in rawSpecs <==> k in rawKeys
    ensures fresh(spec) && spec.Valid()
    ensures spec.specs == rawSpecs - {LABEL_KEY} && spec.keys == Without(rawKeys, LABEL_KEY)
  {
    spec := new FeatureSpec(rawKeys, rawSpecs);
    spec.DeleteLabel();
  }

  /** Removing the label twice is removing it once. */
  lemma {:induction false} WithoutIdempotent(s: seq<string>, k: string)
    ensures Without(Without(s, k), k) == Without(s, k)
  {
    assert k !in Without(s, k);
    WithoutAbsent(Without(s, k), k);
  }

  // ---------------------------------------------------------------------
  // Hyperparameters
  // ---------------------------------------------------------------------

  /** The one tuned hyperparameter: the width of the hidden layer. */
  const NUM_NEURONS: string := "num_neurons"

  /** A categorical hyperparameter: its name, the values searched, the value used when not tuned. */
  datatype Choice = Choice(name: string, values: seq<int>, default: int)

  /** A hyperparameter container: the search space and the current value of each hyperparameter. */
  datatype HyperParameters = HyperParameters(space: seq<Choice>, values: map<string, int>)

  /** What the training arguments carry as hyperparameters: None, an empty dict, or a tuner's config. */
  datatype SuppliedHyperParameters = NotGiven | EmptyConfig | Config(hp: HyperParameters)

  /** Every current value belongs to a choice of that name in the space, and is one of its values. */
  ghost predicate WellFormed(hp: HyperParameters) {
    forall name :: name in hp.values ==>
      exists i :: 0 <= i < |hp.space| && hp.space[i].name == name && hp.values[name] in hp.space[i].values
  }

  /** `hparams.get(name)`. */
  function GetValue(hp: HyperParameters, name: string): Option<int> {
    if name in hp.values then Some(hp.values[name]) else None
  }

  /** The default search space: the hidden width is one of 128 to 2048 neurons by powers of two, 256 if not tuned. */
  function DefaultHyperParameters(): (hp: HyperParameters)
    ensures WellFormed(hp)
    ensures |hp.space| == 1 && hp.space[0].name == NUM_NEURONS
    ensures hp.space[0].values == [128, 256, 512, 1024, 2048]
    ensures hp.space[0].default in hp.space[0].values
    ensures hp.values.Keys == {NUM_NEURONS} && hp.values[NUM_NEURONS] == hp.space[0].default
  {
    var choice := Choice(NUM_NEURONS, [128, 256, 512, 1024, 2048], 256);
    var hp := HyperParameters([choice], map[NUM_NEURONS := 256]);
    assert hp.space[0].name == NUM_NEURONS && 256 in hp.space[0].values;
    hp
  }

  /** Python truthiness of the supplied hyperparameters: neither None nor an empty dict. */
  predicate IsTruthy(supplied: SuppliedHyperParameters) {
    supplied.Config?
  }

  /**
   * The hyperparameters of the final fit. Without a tuner's result (None or
   * an empty dict) the default space is searched, with 256 hidden neurons;
   * with one, the tuner's choice is used as is, so a well-formed choice
   * stays inside its space.
   */
  function SelectHyperParameters(supplied: SuppliedHyperParameters): (hp: HyperParameters)
    ensures supplied == NotGiven || supplied == EmptyConfig ==>
              && |hp.space| == 1
              && hp.space[0] == Choice(NUM_NEURONS, [128, 256, 512, 1024, 2048], 256)
              && GetValue(hp, NUM_NEURONS) == Some(256)
              && hp.values.Keys == {NUM_NEURONS}
    ensures supplied.Config? ==> GetValue(hp, NUM_NEURONS) == GetValue(supplied.hp, NUM_NEURONS) && hp.space == supplied.hp.space
    ensures (supplied.Config? ==> WellFormed(supplied.hp)) ==> WellFormed(hp)
  {
    if IsTruthy(supplied) then supplied.hp else DefaultHyperParameters()
  }

  // ---------------------------------------------------------------------
  // The tuning target read by the tuner callback
  // ---------------------------------------------------------------------

  /** `tuning_config['project']`, then `tuning_config['region']`; a missing key raises KeyError. */
  function ReadTuningTarget(tuningConfig: map<string, Value>): (r: Result<(Value, Value), LookupError>)
    ensures r.Ok? <==> "project" in tuningConfig && "region" in tuningConfig
    ensures r.Ok? ==> r.value == (tuningConfig["project"], tuningConfig["region"])
    ensures "project" !in tuningConfig ==> r == Err(KeyError(Key("project")))
    ensures "project" in tuningConfig && "region" !in tuningConfig ==> r == Err(KeyError(Key("region")))
  {
    match Get(Dict(tuningConfig), [Key("project")])
    case Err(e) => Err(e)
    case Ok(project) =>
      match Get(Dict(tuningConfig), [Key("region")])
      case Err(e) => Err(e)
      case Ok(region) => Ok((project, region))
  }

  /** The tuner config built for Vertex gives the tuner callback back its project and region, verbatim. */
  lemma TunerConfigFeedsTuner(projectId: string, region: string, serviceAccount: string)
    ensures ReadTuningTarget(VertexConfigs.VertexTunerConfig(projectId, region, serviceAccount))
         == Ok((Str(projectId), Str(region)))
  {
  }
}
