/**
 * Configuration post-processing: the built-in defaults, `${NAME}` / `$NAME` substitution in
 * instance fields, and validation of the enabled provider blocks.
 */
module ConfigLoader {
  import opened Wrappers
  import opened Search
  import opened Strings
  import opened ConfigTypes

  // ---------------------------------------------------------------------------------------------
  // Built-in defaults

  /** A default value as the configuration library stores it. */
  datatype DefaultValue = StrValue(s: string) | BoolValue(b: bool)

  /** The defaults registered before the configuration file is read, keyed by configuration path. */
  function SetDefaults(): (d: map<string, DefaultValue>)
    ensures d.Keys == {"fzf.height", "fzf.border", "fzf.preview", "filters.enabled_only",
                       "providers.azure.enabled", "providers.hashicorp.enabled"}
  {
    map[
      "fzf.height" := StrValue("40%"),
      "fzf.border" := StrValue("rounded"),
      "fzf.preview" := BoolValue(false),
      "filters.enabled_only" := BoolValue(true),
      "providers.azure.enabled" := BoolValue(true),
      "providers.hashicorp.enabled" := BoolValue(true)
    ]
  }

  // ---------------------------------------------------------------------------------------------
  // Environment-variable substitution
  //
  // The pattern is `\$\{([^}]+)\}|\$([A-Z_][A-Z0-9_]*)`, applied left to right to non-overlapping
  // matches. A braced name is everything up to the first `}` (at least one character); a bare
  // name is the longest run of upper-case letters, digits and `_` starting with a letter or `_`.

  predicate IsNameStart(c: char) {
    'A' <= c <= 'Z' || c == '_'
  }

  predicate IsNameChar(c: char) {
    IsNameStart(c) || '0' <= c <= '9'
  }

  /** A match of the pattern at the start of a string: how many characters it spans, and the name. */
  datatype Token = Token(length: nat, name: string)

  /** The match of the pattern that starts at position 0 of `s`, if there is one. */
  function TokenAt(s: string): (t: Option<Token>)
    ensures t.Some? ==> 2 <= t.value.length <= |s| && s[0] == '$'
  {
    if |s| < 2 || s[0] != '$' then None
    else if s[1] == '{' then
      var close := FirstIndex(s[2..], c => c == '}');
      if close == 0 || close == |s| - 2 then None
      else Some(Token(close + 3, s[2..close + 2]))
    else if IsNameStart(s[1]) then
      var n := 1 + FirstIndex(s[2..], c => !IsNameChar(c));
      Some(Token(n + 1, s[1..n + 1]))
    else None
  }

  /** What a matched token becomes: the variable's value if it is set and non-empty, else the token. */
  function Replacement(token: string, name: string, env: map<string, string>): string {
    if name in env && env[name] != "" then env[name] else token
  }

  /** `expandEnvVars`, with the process environment given as `env`. */
  function ExpandEnvVars(s: string, env: map<string, string>): string
    decreases |s|
  {
    if |s| == 0 then ""
    else match TokenAt(s)
      case Some(t) => Replacement(s[..t.length], t.name, env) + ExpandEnvVars(s[t.length..], env)
      case None => [s[0]] + ExpandEnvVars(s[1..], env)
  }

  /** A string containing no `$` comes back unchanged. */
  lemma {:induction false} NoDollarUnchanged(s: string, env: map<string, string>)
    requires '$' !in s
    ensures ExpandEnvVars(s, env) == s
    decreases |s|
  {
    if |s| > 0 {
      assert s[0] != '$';
      NoDollarUnchanged(s[1..], env);
      assert [s[0]] + s[1..] == s;
    }
  }

  /** Text without `$` before the rest is copied and does not affect how the rest is expanded. */
  lemma {:induction false} PlainPrefix(p: string, s: string, env: map<string, string>)
    requires '$' !in p
    ensures ExpandEnvVars(p + s, env) == p + ExpandEnvVars(s, env)
    decreases |p|
  {
    if |p| > 0 {
      var ps := p + s;
      assert ps[0] == p[0] && ps[1..] == p[1..] + s;
      assert TokenAt(ps).None?;
      assert ExpandEnvVars(ps, env) == [p[0]] + ExpandEnvVars(p[1..] + s, env);
      PlainPrefix(p[1..], s, env);
      assert [p[0]] + p[1..] == p;
    } else {
      assert p + s == s;
    }
  }

  /** When no variable has a non-empty value (in particular, an empty environment) nothing changes. */
  lemma {:induction false} UnsetVariablesUnchanged(s: string, env: map<string, string>)
    requires forall name :: name in env ==> env[name] == ""
    ensures ExpandEnvVars(s, env) == s
    decreases |s|
  {
    if |s| > 0 {
      match TokenAt(s)
      case Some(t) =>
        UnsetVariablesUnchanged(s[t.length..], env);
        assert s[..t.length] + s[t.length..] == s;
      case None =>
        UnsetVariablesUnchanged(s[1..], env);
        assert [s[0]] + s[1..] == s;
    }
  }

  /**
   * `${NAME}` (NAME one or more characters other than `}`) becomes the variable's value when it is
   * set and non-empty, and stays verbatim otherwise; the inserted value is not expanded again.
   */
  lemma BracedToken(name: string, rest: string, env: map<string, string>)
    requires |name| > 0 && '}' !in name
    ensures ExpandEnvVars("${" + name + "}" + rest, env)
         == (if name in env && env[name] != "" then env[name] else "${" + name + "}")
            + ExpandEnvVars(rest, env)
  {
    var token := "${" + name + "}";
    var s := token + rest;
    var inside := s[2..];
    assert inside == name + "}" + rest;
    forall j | 0 <= j < |name| ensures inside[j] != '}' {
      assert inside[j] == name[j];
    }
    FirstIndexIs(inside, c => c == '}', |name|);
    assert s[2..|name| + 2] == name;
    assert s[..|name| + 3] == token;
    assert s[|name| + 3..] == rest;
  }

  /**
   * `$NAME` (NAME an upper-case letter or `_`, then upper-case letters, digits or `_`, followed by
   * a character that cannot extend it) becomes the variable's value when it is set and non-empty,
   * and stays verbatim otherwise.
   */
  lemma BareToken(name: string, rest: string, env: map<string, string>)
    requires |name| > 0 && IsNameStart(name[0])
    requires forall i :: 0 <= i < |name| ==> IsNameChar(name[i])
    requires rest == [] || !IsNameChar(rest[0])
    ensures ExpandEnvVars("$" + name + rest, env)
         == (if name in env && env[name] != "" then env[name] else "$" + name)
            + ExpandEnvVars(rest, env)
  {
    var token := "$" + name;
    var s := token + rest;
    var tail := s[2..];
    assert tail == name[1..] + rest;
    var run := |name| - 1;
    forall j | 0 <= j < run ensures IsNameChar(tail[j]) {
      assert tail[j] == name[j + 1];
    }
    if rest == [] {
      assert |tail| == run;
      FirstIndexNone(tail, c => !IsNameChar(c));
    } else {
      assert tail[run] == rest[0];
      FirstIndexIs(tail, c => !IsNameChar(c), run);
    }
    assert s[1..|name| + 1] == name;
    assert s[..|name| + 1] == token;
    assert s[|name| + 1..] == rest;
  }

  /**
   * A `$` followed by neither `{` nor a name start (for example a lower-case bare `$name`, or a
   * `$` at the very end) is not a token: it is copied and scanning resumes after it.
   */
  lemma DollarWithoutToken(rest: string, env: map<string, string>)
    requires rest == [] || (rest[0] != '{' && !IsNameStart(rest[0]))
    ensures ExpandEnvVars("$" + rest, env) == "$" + ExpandEnvVars(rest, env)
  {
    assert ("$" + rest)[1..] == rest;
  }

  /** `${}` is not a token and is copied as it is. */
  lemma EmptyBracesKept(rest: string, env: map<string, string>)
    ensures ExpandEnvVars("${}" + rest, env) == "${}" + ExpandEnvVars(rest, env)
  {
    var s := "${}" + rest;
    assert s[0] == '$' && s[1] == '{' && s[2..][0] == '}';
    FirstIndexIs(s[2..], c => c == '}', 0);
    assert TokenAt(s).None?;
    assert ExpandEnvVars(s, env) == [s[0]] + ExpandEnvVars(s[1..], env);
    assert s[1..] == "{}" + rest;
    PlainPrefix("{}", rest, env);
  }

  /** A `${` with no closing `}` anywhere after it is not a token and is copied as it is. */
  lemma UnterminatedBraceKept(rest: string, env: map<string, string>)
    requires '}' !in rest
    ensures ExpandEnvVars("${" + rest, env) == "${" + ExpandEnvVars(rest, env)
  {
    var s := "${" + rest;
    assert s[2..] == rest;
    FirstIndexNone(rest, c => c == '}');
    assert s[1..] == "{" + rest;
    PlainPrefix("{", rest, env);
  }

  /**
   * Substitution is one pass: a set variable's token becomes the variable's value literally, even
   * when that value itself holds tokens whose variables are set.
   */
  lemma SinglePass(name: string, env: map<string, string>)
    requires |name| > 0 && '}' !in name
    requires name in env && env[name] != ""
    ensures ExpandEnvVars("${" + name + "}", env) == env[name]
  {
    BracedToken(name, "", env);
    assert "${" + name + "}" + "" == "${" + name + "}";
    assert ExpandEnvVars("", env) == "";
  }

  /** An instance where a second pass would differ: `$A` gives `$B`, which would expand to `x`. */
  lemma SinglePassExample()
    ensures ExpandEnvVars("$A", map["A" := "$B", "B" := "x"]) == "$B"
    ensures ExpandEnvVars("$B", map["A" := "$B", "B" := "x"]) == "x"
  {
    var env := map["A" := "$B", "B" := "x"];
    BareToken("A", "", env);
    BareToken("B", "", env);
    assert "$" + "A" + "" == "$A";
    assert "$" + "B" + "" == "$B";
    assert ExpandEnvVars("", env) == "";
  }

  /** Azure blocks after substitution: only each instance's subscription id is rewritten. */
  ghost predicate AzureSubstituted(before: AzureConfig, after: AzureConfig, env: map<string, string>) {
    && after.enabled == before.enabled
    && |after.instances| == |before.instances|
    && forall i :: 0 <= i < |before.instances| ==>
         after.instances[i]
         == before.instances[i].(subscriptionId := ExpandEnvVars(before.instances[i].subscriptionId, env))
  }

  /** Hashicorp blocks after substitution: only address, token and namespace are rewritten. */
  ghost predicate HashicorpSubstituted(before: HashicorpConfig, after: HashicorpConfig, env: map<string, string>) {
    && after.enabled == before.enabled
    && |after.instances| == |before.instances|
    && forall i :: 0 <= i < |before.instances| ==>
         after.instances[i]
         == before.instances[i].(address := ExpandEnvVars(before.instances[i].address, env),
                                 token := ExpandEnvVars(before.instances[i].token, env),
                                 namespace := ExpandEnvVars(before.instances[i].namespace, env))
  }

  /** `substituteEnvVars`: rewrites the instance fields that may hold variable references. */
  method SubstituteEnvVars(cfg: Config, env: map<string, string>) returns (out: Config, err: Option<string>)
    ensures err.None?
    ensures out.defaults == cfg.defaults && out.fzf == cfg.fzf && out.filters == cfg.filters
    ensures out.providers.azure.Some? <==> cfg.providers.azure.Some?
    ensures out.providers.hashicorp.Some? <==> cfg.providers.hashicorp.Some?
    ensures cfg.providers.azure.Some? ==>
              AzureSubstituted(cfg.providers.azure.value, out.providers.azure.value, env)
    ensures cfg.providers.hashicorp.Some? ==>
              HashicorpSubstituted(cfg.providers.hashicorp.value, out.providers.hashicorp.value, env)
  {
    var providers := cfg.providers;
    if providers.azure.Some? {
      var block := providers.azure.value;
      var insts := block.instances;
      var i := 0;
      while i < |insts|
        invariant 0 <= i <= |insts| == |block.instances|
        invariant forall j :: 0 <= j < i ==>
          insts[j] == block.instances[j].(subscriptionId := ExpandEnvVars(block.instances[j].subscriptionId, env))
        invariant forall j :: i <= j < |insts| ==> insts[j] == block.instances[j]
      {
        insts := insts[i := insts[i].(subscriptionId := ExpandEnvVars(insts[i].subscriptionId, env))];
        i := i + 1;
      }
      providers := providers.(azure := Some(block.(instances := insts)));
    }
    if providers.hashicorp.Some? {
      var block := providers.hashicorp.value;
      var insts := block.instances;
      var i := 0;
      while i < |insts|
        invariant 0 <= i <= |insts| == |block.instances|
        invariant forall j :: 0 <= j < i ==>
          insts[j] == block.instances[j].(address := ExpandEnvVars(block.instances[j].address, env),
                                          token := ExpandEnvVars(block.instances[j].token, env),
                                          namespace := ExpandEnvVars(block.instances[j].namespace, env))
        invariant forall j :: i <= j < |insts| ==> insts[j] == block.instances[j]
      {
        var inst := insts[i];
        inst := inst.(address := ExpandEnvVars(inst.address, env));
        inst := inst.(token := ExpandEnvVars(inst.token, env));
        inst := inst.(namespace := ExpandEnvVars(inst.namespace, env));
        insts := insts[i := inst];
        i := i + 1;
      }
      providers := providers.(hashicorp := Some(block.(instances := insts)));
    }
    out := cfg.(providers := providers);
    err := None;
  }

  // ---------------------------------------------------------------------------------------------
  // Validation

  predicate AzureInstanceComplete(inst: AzureInstance) {
    inst.name != "" && inst.subscriptionId != ""
  }

  /** The error for an incomplete Azure instance at `index`: its name is checked first. */
  function AzureInstanceError(inst: AzureInstance, index: nat): string {
    if inst.name == "" then "azure instance at index " + NatToDecimal(index) + " has no name"
    else "azure instance '" + inst.name + "' has no subscription_id"
  }

  /** An Azure block passes when it is absent, disabled, or lists only complete instances. */
  predicate AzureBlockValid(block: Option<AzureConfig>) {
    || block.None?
    || !block.value.enabled
    || (&& |block.value.instances| > 0
        && forall i :: 0 <= i < |block.value.instances| ==> AzureInstanceComplete(block.value.instances[i]))
  }

  /** The Azure half of `validate`: the first problem found, in list order. */
  function ValidateAzure(block: Option<AzureConfig>): (r: Option<string>)
    ensures r.None? <==> AzureBlockValid(block)
    ensures block.Some? && block.value.enabled && |block.value.instances| == 0 ==>
              r == Some("azure provider is enabled but has no instances configured")
    ensures forall k ::
              && block.Some? && block.value.enabled && 0 <= k < |block.value.instances|
              && !AzureInstanceComplete(block.value.instances[k])
              && (forall j :: 0 <= j < k ==> AzureInstanceComplete(block.value.instances[j]))
              ==> r == Some(AzureInstanceError(block.value.instances[k], k))
  {
    if block.None? || !block.value.enabled then None
    else if |block.value.instances| == 0 then
      Some("azure provider is enabled but has no instances configured")
    else
      var insts := block.value.instances;
      var k := FirstIndex(insts, inst => !AzureInstanceComplete(inst));
      if k == |insts| then None else Some(AzureInstanceError(insts[k], k))
  }

  predicate HashicorpInstanceComplete(inst: HashicorpInstance) {
    inst.name != "" && inst.address != "" && inst.token != ""
  }

  /** The error for an incomplete Hashicorp instance: name, then address, then token. */
  function HashicorpInstanceError(inst: HashicorpInstance, index: nat): string {
    if inst.name == "" then "hashicorp instance at index " + NatToDecimal(index) + " has no name"
    else if inst.address == "" then "hashicorp instance '" + inst.name + "' has no address"
    else "hashicorp instance '" + inst.name + "' has no token"
  }

  /** A Hashicorp block passes when it is absent, disabled, or lists only complete instances. */
  predicate HashicorpBlockValid(block: Option<HashicorpConfig>) {
    || block.None?
    || !block.value.enabled
    || (&& |block.value.instances| > 0
        && forall i :: 0 <= i < |block.value.instances| ==> HashicorpInstanceComplete(block.value.instances[i]))
  }

  /** The Hashicorp half of `validate`: the first problem found, in list order. */
  function ValidateHashicorp(block: Option<HashicorpConfig>): (r: Option<string>)
    ensures r.None? <==> HashicorpBlockValid(block)
    ensures block.Some? && block.value.enabled && |block.value.instances| == 0 ==>
              r == Some("hashicorp provider is enabled but has no instances configured")
    ensures forall k ::
              && block.Some? && block.value.enabled && 0 <= k < |block.value.instances|
              && !HashicorpInstanceComplete(block.value.instances[k])
              && (forall j :: 0 <= j < k ==> HashicorpInstanceComplete(block.value.instances[j]))
              ==> r == Some(HashicorpInstanceError(block.value.instances[k], k))
  {
    if block.None? || !block.value.enabled then None
    else if |block.value.instances| == 0 then
      Some("hashicorp provider is enabled but has no instances configured")
    else
      var insts := block.value.instances;
      var k := FirstIndex(insts, inst => !HashicorpInstanceComplete(inst));
      if k == |insts| then None else Some(HashicorpInstanceError(insts[k], k))
  }

  /** `validate`: `None` is a nil error; Azure problems are reported before Hashicorp ones. */
  function Validate(cfg: Config): (r: Option<string>)
    ensures r.None? <==> AzureBlockValid(cfg.providers.azure) && HashicorpBlockValid(cfg.providers.hashicorp)
    ensures !AzureBlockValid(cfg.providers.azure) ==> r == ValidateAzure(cfg.providers.azure)
    ensures AzureBlockValid(cfg.providers.azure) ==> r == ValidateHashicorp(cfg.providers.hashicorp)
  {
    match ValidateAzure(cfg.providers.azure)
    case Some(e) => Some(e)
    case None => ValidateHashicorp(cfg.providers.hashicorp)
  }

  /** The namespace is never required: changing one instance's namespace never changes the verdict. */
  lemma NamespaceNotRequired(cfg: Config, k: nat, namespace: string)
    requires cfg.providers.hashicorp.Some? && k < |cfg.providers.hashicorp.value.instances|
    ensures var block := cfg.providers.hashicorp.value;
            var insts := block.instances;
            var changed := cfg.(providers := cfg.providers.(hashicorp :=
                             Some(block.(instances := insts[k := insts[k].(namespace := namespace)]))));
            Validate(changed) == Validate(cfg)
  {
    var block := cfg.providers.hashicorp.value;
    var insts := block.instances;
    var insts' := insts[k := insts[k].(namespace := namespace)];
    var p := (inst: HashicorpInstance) => !HashicorpInstanceComplete(inst);
    FirstIndexCongruent(insts, insts', p);
    forall i | 0 <= i < |insts| ensures HashicorpInstanceError(insts'[i], i) == HashicorpInstanceError(insts[i], i) {
    }
  }

  /** Two sequences that agree on `p` position by position have the same first index. */
  lemma {:induction false} FirstIndexCongruent<T>(s: seq<T>, t: seq<T>, p: T -> bool)
    requires |s| == |t|
    requires forall i :: 0 <= i < |s| ==> p(s[i]) == p(t[i])
    ensures FirstIndex(s, p) == FirstIndex(t, p)
    decreases |s|
  {
    if |s| > 0 && !p(s[0]) {
      FirstIndexCongruent(s[1..], t[1..], p);
    }
  }
}
