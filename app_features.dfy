/** The feature-list handling of src/api/app.py: the four known feature
    names, the validation that lists the unknown ones, the normalisation
    that keeps the known ones, the run id built from them, and the
    `JOB_PLANNER_FEATURES` value that hands them to the planner. */
module ApiFeatures {
  import opened Text
  import opened Seqs
  import Wrappers
  import PlannerFlags

  /** `KNOWN_FEATURES`. */
  const KnownFeatures: set<string> := {"dynamic_corridor_bias", "ga_diversity", "ht_future_penalty", "path_cache"}

  const Baseline := "baseline"

  /** `feature.strip().lower()`. */
  function Clean(feature: string): string {
    ToLower(Trim(feature))
  }

  /** The test `_normalise_features` applies to a cleaned name. */
  predicate Keeps(name: string) {
    name != "" && name in KnownFeatures
  }

  predicate Unknown(name: string) {
    name !in KnownFeatures
  }

  /** The known names are the planner's flag names. */
  lemma KnownAreFlags()
    ensures forall n :: n in KnownFeatures <==> n in PlannerFlags.KnownFlags
  {
    assert PlannerFlags.KnownFlags == ["dynamic_corridor_bias", "ga_diversity", "ht_future_penalty", "path_cache"];
  }

  /** No known name contains a separator the run id or the environment
      value uses, or is the word "baseline". */
  lemma KnownAvoidSeparators()
    ensures forall n :: n in KnownFeatures ==> n != Baseline && '+' !in n && ',' !in n
  {
  }

  /** Each known name is a token the planner reads as switching it on: not
      blank, trimmed, and without a leading '!'. */
  lemma KnownAreTokens()
    ensures forall n :: n in KnownFeatures ==> n != "" && IsTrimmed(n) && n[0] != '!'
  {
  }

  /** The `for feature in features` loop of `_normalise_features` over the
      cleaned names, with `unique` already collected. */
  function KeptFrom(unique: seq<string>, names: seq<string>): seq<string>
    decreases |names|
  {
    if names == [] then unique
    else KeptFrom(if Keeps(names[0]) && names[0] !in unique then unique + [names[0]] else unique, names[1..])
  }

  function Normalised(features: seq<string>): seq<string> {
    KeptFrom([], Map(features, Clean))
  }

  /** `_normalise_features`. */
  method NormaliseFeatures(features: seq<string>) returns (unique: seq<string>)
    ensures unique == Normalised(features)
  {
    ghost var names := Map(features, Clean);
    unique := [];
    var i := 0;
    while i < |features|
      invariant 0 <= i <= |features|
      invariant KeptFrom(unique, names[i..]) == Normalised(features)
    {
      var name := Clean(features[i]);
      assert name == names[i];
      KeptStep(unique, names, i);
      if Keeps(name) && name !in unique {
        unique := unique + [name];
      }
      i := i + 1;
    }
  }

  lemma KeptStep(unique: seq<string>, names: seq<string>, i: nat)
    requires i < |names|
    ensures KeptFrom(unique, names[i..]) ==
      KeptFrom(if Keeps(names[i]) && names[i] !in unique then unique + [names[i]] else unique, names[i + 1..])
  {
    assert names[i..][1..] == names[i + 1..];
  }

  /** Normalising is first-occurrence de-duplication of the cleaned names
      that are known. */
  lemma NormalisedIsDedup(features: seq<string>)
    ensures Normalised(features) == Dedup(Filter(Map(features, Clean), Keeps))
  {
    KeptIsDedup([], Map(features, Clean));
  }

  lemma {:induction false} KeptIsDedup(unique: seq<string>, names: seq<string>)
    requires NoDup(unique)
    ensures KeptFrom(unique, names) == DedupFrom(unique, Filter(names, Keeps))
    decreases |names|
  {
    if names != [] {
      var name := names[0];
      var rest := Filter(names[1..], Keeps);
      if Keeps(name) {
        assert Filter(names, Keeps) == [name] + rest;
        DedupFromCons(unique, name, rest);
        if name in unique {
          KeptIsDedup(unique, names[1..]);
        } else {
          KeptIsDedup(unique + [name], names[1..]);
        }
      } else {
        KeptIsDedup(unique, names[1..]);
      }
    }
  }

  lemma DedupFromCons<T(!new)>(acc: seq<T>, x: T, rest: seq<T>)
    requires NoDup(acc)
    ensures DedupFrom(acc, [x] + rest) ==
      if x in acc then DedupFrom(acc, rest) else DedupFrom(acc + [x], rest)
  {
    assert ([x] + rest)[1..] == rest;
  }

  /** What `_normalise_features` returns: no name twice, and exactly the
      cleaned names of the request that are known, in the order they first
      occur. */
  lemma NormalisedSpec(features: seq<string>)
    ensures NoDup(Normalised(features))
    ensures forall n :: n in Normalised(features) <==> n in Map(features, Clean) && n in KnownFeatures
    ensures FirstOccurrenceOrder(Filter(Map(features, Clean), Keeps), Normalised(features))
  {
    KeptSpec(Map(features, Clean));
  }

  lemma KeptSpec(names: seq<string>)
    ensures NoDup(KeptFrom([], names))
    ensures forall n :: n in KeptFrom([], names) <==> n in names && n in KnownFeatures
    ensures FirstOccurrenceOrder(Filter(names, Keeps), KeptFrom([], names))
  {
    KeptIsDedup([], names);
    DedupOrder(Filter(names, Keeps));
    KnownAreTokens();
  }

  /** `sorted({feature.strip().lower() for feature in features} - KNOWN_FEATURES)`:
      the set is the de-duplicated list of cleaned names, so sorting it
      gives the same list as sorting the set. */
  function InvalidFeatures(features: seq<string>): seq<string> {
    SortStrings(Dedup(Filter(Map(features, Clean), Unknown)))
  }

  /** The rejected names are sorted and listed once each. */
  lemma InvalidFeaturesSorted(features: seq<string>)
    ensures SortedStrings(InvalidFeatures(features))
    ensures NoDup(InvalidFeatures(features))
  {
    var d := Dedup(Filter(Map(features, Clean), Unknown));
    NoDupPermutation(d, SortStrings(d));
  }

  /** The rejected names are exactly the cleaned names of the request that
      are not known, a blank name among them. */
  lemma InvalidFeaturesMembers(features: seq<string>)
    ensures forall n :: n in InvalidFeatures(features) <==> n in Map(features, Clean) && n !in KnownFeatures
  {
    UnknownMembers(Map(features, Clean));
  }

  lemma UnknownMembers(names: seq<string>)
    ensures forall n :: n in SortStrings(Dedup(Filter(names, Unknown))) <==> n in names && n !in KnownFeatures
  {
    var d := Dedup(Filter(names, Unknown));
    forall n ensures n in SortStrings(d) <==> n in d {
      assert n in multiset(SortStrings(d)) <==> n in multiset(d);
    }
  }

  /** A request that passes validation loses nothing in normalisation but
      its repeated names. */
  lemma ValidatedKeepsAll(features: seq<string>)
    requires InvalidFeatures(features) == []
    ensures forall n :: n in Map(features, Clean) ==> n in KnownFeatures
    ensures Normalised(features) == Dedup(Map(features, Clean))
  {
    UnknownMembers(Map(features, Clean));
    ValidatedNames(Map(features, Clean));
  }

  lemma ValidatedNames(names: seq<string>)
    requires forall n :: n in names ==> n in KnownFeatures
    ensures forall i :: 0 <= i < |names| ==> names[i] in KnownFeatures
    ensures KeptFrom([], names) == Dedup(names)
  {
    KnownAreTokens();
    forall i | 0 <= i < |names| ensures Keeps(names[i]) {
      assert names[i] in names;
    }
    FilterAll(names, Keeps);
    KeptIsDedup([], names);
  }

  /** The part of the run id after the timestamp. */
  function RunSuffix(features: seq<string>): string {
    if features == [] then Baseline else Join(features, "+")
  }

  /** `_build_run_id`, the clock's `%Y%m%d-%H%M%SZ` reading being `timestamp`. */
  function RunId(timestamp: string, features: seq<string>): string {
    timestamp + "_" + RunSuffix(features)
  }

  predicate AllKnown(features: seq<string>) {
    forall i :: 0 <= i < |features| ==> features[i] in KnownFeatures
  }

  /** Runs launched in the same second get the same id exactly when they
      select the same features in the same order. */
  lemma RunIdInjective(timestamp: string, a: seq<string>, b: seq<string>)
    requires AllKnown(a) && AllKnown(b)
    ensures RunId(timestamp, a) == RunId(timestamp, b) <==> a == b
  {
    if RunId(timestamp, a) == RunId(timestamp, b) {
      var k := |timestamp| + 1;
      assert RunId(timestamp, a)[k..] == RunSuffix(a);
      assert RunId(timestamp, b)[k..] == RunSuffix(b);
      SuffixInjective(a, b);
    }
  }

  lemma SuffixInjective(a: seq<string>, b: seq<string>)
    requires AllKnown(a) && AllKnown(b)
    requires RunSuffix(a) == RunSuffix(b)
    ensures a == b
  {
    KnownAvoidSeparators();
    SuffixSplits(a);
    SuffixSplits(b);
  }

  /** Splitting a suffix on '+' gives the features back, or `["baseline"]`
      for none. */
  lemma SuffixSplits(features: seq<string>)
    requires AllKnown(features)
    ensures features == [] ==> Split(RunSuffix(features), '+') == [Baseline]
    ensures features != [] ==> Split(RunSuffix(features), '+') == features
    ensures features != [] ==> features[0] != Baseline
  {
    KnownAvoidSeparators();
    if features == [] {
      assert '+' !in Baseline;
      SplitNoSep(Baseline, '+');
    } else {
      SplitJoin(features, '+');
    }
  }

  /** `",".join(features)`, the `JOB_PLANNER_FEATURES` value of a run. */
  function FeaturesEnv(features: seq<string>): string {
    Join(features, ",")
  }

  /** The planner started for a run switches on exactly the features the
      run was launched with. */
  lemma EnvSelectsFeatures(features: seq<string>)
    requires AllKnown(features)
    ensures forall n :: n in PlannerFlags.KnownFlags ==>
      (PlannerFlags.FlagAfter(Split(FeaturesEnv(features), ','), n) <==> n in features)
  {
    KnownAvoidSeparators();
    if features == [] {
      PlannerFlags.BlankEnvironment();
    } else {
      SplitJoin(features, ',');
      KnownTokensSwitchOn(features);
    }
  }

  /** Each known name, as a token, switches its own flag on. */
  lemma {:induction false} KnownTokensSwitchOn(tokens: seq<string>)
    requires AllKnown(tokens)
    ensures forall n :: PlannerFlags.FlagAfter(tokens, n) <==> n in tokens
  {
    if tokens != [] {
      var p := tokens[..|tokens| - 1];
      var k := tokens[|tokens| - 1];
      assert tokens == p + [k];
      KnownTokensSwitchOn(p);
      KnownToken(k);
      forall n ensures PlannerFlags.FlagAfter(p + [k], n) <==> n in p + [k] {
        SwitchOnStep(p, k, n);
      }
    }
  }

  lemma SwitchOnStep(p: seq<string>, k: string, n: string)
    requires PlannerFlags.FlagAfter(p, n) <==> n in p
    requires PlannerFlags.TokenSetting(k) == Wrappers.Some((k, true))
    ensures PlannerFlags.FlagAfter(p + [k], n) <==> n in p + [k]
  {
    LastSwitchOn(p, k, n);
    InSnoc(p, k, n);
  }

  lemma LastSwitchOn(p: seq<string>, k: string, n: string)
    requires PlannerFlags.TokenSetting(k) == Wrappers.Some((k, true))
    ensures PlannerFlags.LastSetting(p + [k], n) == if n == k then Wrappers.Some(true) else PlannerFlags.LastSetting(p, n)
  {
    SnocParts(p, k);
  }

  lemma SnocParts<T>(p: seq<T>, k: T)
    ensures (p + [k])[..|p + [k]| - 1] == p && (p + [k])[|p + [k]| - 1] == k
  {
  }

  lemma InSnoc<T>(p: seq<T>, k: T, n: T)
    ensures n in p + [k] <==> n == k || n in p
  {
  }

  lemma KnownToken(k: string)
    requires k in KnownFeatures
    ensures PlannerFlags.TokenSetting(k) == Wrappers.Some((k, true))
  {
    KnownAreTokens();
    KnownAreFlags();
    TrimFixesTrimmed(k);
  }
}
