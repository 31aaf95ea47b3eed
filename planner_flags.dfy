/** Feature-flag parsing in the `JobPlanner` constructor
    (src/plan/job_planner.py): four known flags, all off by default, switched
    by the comma-separated `JOB_PLANNER_FEATURES` value, then overridden by
    an explicit dictionary. Reading the environment is abstract: its value
    is a parameter ("" when the variable is unset). */
module PlannerFlags {
  import opened Wrappers
  import opened Text

  const DynamicCorridorBias := "dynamic_corridor_bias"
  const GaDiversity := "ga_diversity"
  const HtFuturePenalty := "ht_future_penalty"
  const PathCache := "path_cache"

  const KnownFlags: seq<string> := [DynamicCorridorBias, GaDiversity, HtFuturePenalty, PathCache]

  /** The four flags, all off. */
  function Defaults(): (r: map<string, bool>)
    ensures forall n :: n in r <==> n in KnownFlags
    ensures forall n :: n in r ==> !r[n]
  {
    map n | n in KnownFlags :: false
  }

  /** What one comma-separated token does: `Some((name, on))` when it
      switches a known flag, `None` when it is blank or names no known flag.
      A leading '!' switches the flag off; the name after it is not stripped
      again. */
  function TokenSetting(token: string): (r: Option<(string, bool)>)
    ensures r.Some? ==> r.value.0 in KnownFlags
    ensures Trim(token) == "" ==> r.None?
  {
    var flag := Trim(token);
    if flag == "" then None
    else if flag[0] == '!' then
      if flag[1..] in KnownFlags then Some((flag[1..], false)) else None
    else if flag in KnownFlags then Some((flag, true))
    else None
  }

  /** The setting the last token that switches `name` gives it. */
  function LastSetting(tokens: seq<string>, name: string): Option<bool> {
    if tokens == [] then None
    else Switch(TokenSetting(tokens[|tokens| - 1]), name, LastSetting(tokens[..|tokens| - 1], name))
  }

  /** The effect of one token's setting on the flag `name`. */
  function Switch(t: Option<(string, bool)>, name: string, previous: Option<bool>): Option<bool> {
    if t.Some? && t.value.0 == name then Some(t.value.1) else previous
  }

  /** The flag's value after the tokens: the last switch, else off. */
  function FlagAfter(tokens: seq<string>, name: string): bool {
    var s := LastSetting(tokens, name);
    s.Some? && s.value
  }

  /** Later tokens win: a flag switched in `b` takes its value from `b`
      whatever `a` said. */
  lemma {:induction false} LaterTokensWin(a: seq<string>, b: seq<string>, name: string)
    ensures LastSetting(a + b, name) ==
      if LastSetting(b, name).Some? then LastSetting(b, name) else LastSetting(a, name)
  {
    if b == [] {
      assert a + b == a;
    } else {
      var b' := b[..|b| - 1];
      assert (a + b)[..|a + b| - 1] == a + b';
      assert (a + b)[|a + b| - 1] == b[|b| - 1];
      LaterTokensWin(a, b', name);
    }
  }

  /** The flag dictionary the constructor leaves: the defaults, switched by
      each token of `env` in order, then updated with `overrides`, which may
      also add names that are not flags. */
  method ParseFeatures(env: string, overrides: map<string, bool>) returns (features: map<string, bool>)
    ensures features.Keys == Defaults().Keys + overrides.Keys
    ensures forall n :: n in overrides ==> features[n] == overrides[n]
    ensures forall n :: n in KnownFlags && n !in overrides ==> features[n] == FlagAfter(Split(env, ','), n)
  {
    var tokens := Split(env, ',');
    if env != "" {
      features := ApplyTokens(tokens);
    } else {
      features := Defaults();
      BlankEnvironment();
    }
    if |overrides| > 0 {
      features := features + overrides;
    }
  }

  /** An unset or empty variable switches nothing. */
  lemma BlankEnvironment()
    ensures forall n :: !FlagAfter(Split("", ','), n)
  {
    var tokens := Split("", ',');
    assert tokens == [""];
    assert Trim("") == "";
    assert TokenSetting("") == None;
    assert tokens[..|tokens| - 1] == [];
    forall n ensures LastSetting(tokens, n) == None {
      assert LastSetting(tokens, n) == LastSetting([], n);
    }
  }

  /** The `for token in env_flags.split(",")` loop. */
  method ApplyTokens(tokens: seq<string>) returns (features: map<string, bool>)
    ensures features.Keys == Defaults().Keys
    ensures forall n :: n in KnownFlags ==> features[n] == FlagAfter(tokens, n)
  {
    features := Defaults();
    var i := 0;
    while i < |tokens|
      invariant 0 <= i <= |tokens|
      invariant features.Keys == Defaults().Keys
      invariant forall n :: n in KnownFlags ==> features[n] == FlagAfter(tokens[..i], n)
    {
      ApplyEffect(features, TokenSetting(tokens[i]));
      StepFlag(tokens, i);
      features := ApplyToken(features, tokens[i]);
      i := i + 1;
    }
    assert tokens[..i] == tokens;
  }

  /** The value of flag `name`, now `current`, once setting `t` is applied. */
  function Effect(t: Option<(string, bool)>, name: string, current: bool): bool {
    if t.Some? && t.value.0 == name then t.value.1 else current
  }

  /** A flag dictionary after one token's setting. */
  function Apply(features: map<string, bool>, t: Option<(string, bool)>): map<string, bool> {
    if t.Some? then features[t.value.0 := t.value.1] else features
  }

  lemma ApplyEffect(features: map<string, bool>, t: Option<(string, bool)>)
    requires t.Some? ==> t.value.0 in features
    ensures Apply(features, t).Keys == features.Keys
    ensures forall n :: n in features ==> Apply(features, t)[n] == Effect(t, n, features[n])
  {
  }

  /** The body of that loop for one token. */
  method ApplyToken(features: map<string, bool>, token: string) returns (updated: map<string, bool>)
    requires features.Keys == Defaults().Keys
    ensures updated == Apply(features, TokenSetting(token))
  {
    ghost var t := TokenSetting(token);
    updated := features;
    var flag := Trim(token);
    if flag == "" {
      assert t == None;
      return;
    }
    if flag[0] == '!' {
      var name := flag[1..];
      if name in features {
        updated := features[name := false];
        assert t == Some((name, false));
      } else {
        assert t == None;
      }
    } else if flag in features {
      updated := features[flag := true];
      assert t == Some((flag, true));
    } else {
      assert t == None;
    }
  }

  lemma StepFlag(tokens: seq<string>, i: nat)
    requires i < |tokens|
    ensures forall n :: FlagAfter(tokens[..i + 1], n) == Effect(TokenSetting(tokens[i]), n, FlagAfter(tokens[..i], n))
  {
    StepSetting(tokens, i);
  }

  lemma StepSetting(tokens: seq<string>, i: nat)
    requires i < |tokens|
    ensures forall n :: LastSetting(tokens[..i + 1], n) == Switch(TokenSetting(tokens[i]), n, LastSetting(tokens[..i], n))
  {
    var p := tokens[..i + 1];
    assert p[..|p| - 1] == tokens[..i];
    assert p[|p| - 1] == tokens[i];
  }
}
