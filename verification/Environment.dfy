/** Names and process environment of a job (paramenv.go, agentexec.go). */
module Environment {
  import LexOrder

  const BUILDA_ENV_PREFIX := "BUILDA_"
  const PARAM_ENV_PREFIX := "BUILDA_PARAM_"
  const OPTION_LABEL_FIELD := "label"

  const AGENT_ID_NAME := "BUILDA_AGENT_ID"
  const CONTROLLER_URL_NAME := "BUILDA_CONTROLLER_URL"
  const EXECUTION_ID_NAME := "BUILDA_EXECUTION_ID"
  const JOB_ID_NAME := "BUILDA_JOB_ID"
  const JOB_NAME_NAME := "BUILDA_JOB_NAME"
  const LOG_PATH_NAME := "BUILDA_LOG_PATH"
  const WORKSPACE_NAME := "BUILDA_WORKSPACE"

  predicate IsReservedEnvName(name: string) {
    || name == AGENT_ID_NAME || name == CONTROLLER_URL_NAME || name == EXECUTION_ID_NAME
    || name == JOB_ID_NAME || name == JOB_NAME_NAME || name == LOG_PATH_NAME || name == WORKSPACE_NAME
  }

  function NormalizeChar(c: char): char {
    if c == '-' then '_'
    else if 'a' <= c <= 'z' then c - 'a' + 'A'
    else c
  }

  function NormalizeEnvSegment(value: string): (r: string)
    ensures |r| == |value|
  {
    seq(|value|, i requires 0 <= i < |value| => NormalizeChar(value[i]))
  }

  function ParamEnvName(id: string): string {
    PARAM_ENV_PREFIX + NormalizeEnvSegment(id)
  }

  function ParamFieldEnvName(id: string, field: string): string {
    ParamEnvName(id) + "_" + NormalizeEnvSegment(field)
  }

  predicate IdentifierChar(c: char) {
    'a' <= c <= 'z' || 'A' <= c <= 'Z' || '0' <= c <= '9' || c == '_' || c == '-'
  }

  predicate ValidIdentifier(value: string) {
    value != "" && forall i | 0 <= i < |value| :: IdentifierChar(value[i])
  }

  /** Names produced by parameters are never reserved, and they carry the prefix
    * that is stripped from the inherited environment. */
  lemma ParamNamesAreApart(name: string, rest: string)
    requires name == PARAM_ENV_PREFIX + rest
    ensures !IsReservedEnvName(name) && BUILDA_ENV_PREFIX <= name
  {
    assert name[7] == 'P';
    assert name[..7] == BUILDA_ENV_PREFIX;
  }

  // ---- the entries of a process environment ---------------------------------------------

  /** The position of the first '=', or the length. */
  function CutAt(entry: string): (n: nat)
    ensures n <= |entry| && forall i :: 0 <= i < n ==> entry[i] != '='
    ensures n < |entry| ==> entry[n] == '='
  {
    if entry == "" || entry[0] == '=' then 0 else 1 + CutAt(entry[1..])
  }

  predicate HasName(entry: string) {
    CutAt(entry) < |entry|
  }

  function NameOf(entry: string): string {
    entry[..CutAt(entry)]
  }

  predicate NoEquals(name: string) {
    forall i | 0 <= i < |name| :: name[i] != '='
  }

  lemma {:induction false} EntryName(name: string, value: string)
    requires NoEquals(name)
    ensures HasName(name + "=" + value) && NameOf(name + "=" + value) == name
  {
    var entry := name + "=" + value;
    assert entry[|name|] == '=';
    assert forall i :: 0 <= i < |name| ==> entry[i] == name[i];
    var n := CutAt(entry);
    assert n == |name|;
  }

  /** sanitizeInheritedEnv */
  function Sanitized(environ: seq<string>): seq<string> {
    if environ == [] then []
    else
      var rest := Sanitized(environ[..|environ| - 1]);
      var entry := environ[|environ| - 1];
      if HasName(entry) && BUILDA_ENV_PREFIX <= NameOf(entry) then rest else rest + [entry]
  }

  method SanitizeInheritedEnv(environ: seq<string>) returns (kept: seq<string>)
    ensures kept == Sanitized(environ)
  {
    kept := [];
    for i := 0 to |environ|
      invariant kept == Sanitized(environ[..i])
    {
      var entry := environ[i];
      assert environ[..i + 1][..i] == environ[..i];
      if HasName(entry) && BUILDA_ENV_PREFIX <= NameOf(entry) {
        continue;
      }
      kept := kept + [entry];
    }
    assert environ[..|environ|] == environ;
  }

  lemma {:induction false} SanitizedIsClean(environ: seq<string>)
    ensures forall e :: e in Sanitized(environ) ==> e in environ && !(HasName(e) && BUILDA_ENV_PREFIX <= NameOf(e))
    ensures forall e :: e in environ && !(HasName(e) && BUILDA_ENV_PREFIX <= NameOf(e)) ==> e in Sanitized(environ)
  {
    if environ != [] {
      var n := |environ| - 1;
      SanitizedIsClean(environ[..n]);
      assert environ == environ[..n] + [environ[n]];
    }
  }

  ghost predicate StrictlySorted(names: seq<string>) {
    forall i, j :: 0 <= i < j < |names| ==> LexOrder.Less(names[i], names[j])
  }

  /** entries renders values in the order of names. */
  ghost predicate Renders(entries: seq<string>, names: seq<string>, values: map<string, string>) {
    && |entries| == |names| && (forall n :: n in names <==> n in values)
    && forall i :: 0 <= i < |names| ==> names[i] in values && entries[i] == names[i] + "=" + values[names[i]]
  }

  /** entries holds every variable once, in the order of the names. */
  ghost predicate IsSortedEnv(entries: seq<string>, values: map<string, string>) {
    exists names :: StrictlySorted(names) && Renders(entries, names, values)
  }

  lemma LeastName(s: set<string>) returns (least: string)
    requires s != {}
    ensures least in s && forall n :: n in s && n != least ==> LexOrder.Less(least, n)
  {
    least :| least in s;
    if s != {least} {
      var other := LeastName(s - {least});
      LexOrder.Total(least, other);
      if LexOrder.Less(other, least) {
        least := other;
      } else {
        forall n | n in s && n != least
          ensures LexOrder.Less(least, n)
        {
          if n != other { LexOrder.Transitive(least, other, n); }
        }
      }
    }
  }

  /** sortedEnv */
  method SortedEnv(values: map<string, string>) returns (entries: seq<string>)
    ensures IsSortedEnv(entries, values)
  {
    entries := [];
    ghost var names: seq<string> := [];
    var rest := values.Keys;
    while rest != {}
      invariant rest <= values.Keys && StrictlySorted(names)
      invariant |entries| == |names| && forall n :: n in names <==> n in values && n !in rest
      invariant forall i, n :: 0 <= i < |names| && n in rest ==> LexOrder.Less(names[i], n)
      invariant forall i :: 0 <= i < |names| ==> names[i] in values && entries[i] == names[i] + "=" + values[names[i]]
      decreases |rest|
    {
      ghost var least := LeastName(rest);
      var name :| name in rest && forall n :: n in rest && n != name ==> LexOrder.Less(name, n);
      entries := entries + [name + "=" + values[name]];
      names := names + [name];
      rest := rest - {name};
    }
    assert Renders(entries, names, values);
  }

  datatype Identity = Identity(agentId: string, controllerUrl: string, executionId: string, jobId: string, jobName: string, workspace: string)

  function IdentityEnv(who: Identity): map<string, string> {
    map[AGENT_ID_NAME := who.agentId, CONTROLLER_URL_NAME := who.controllerUrl, EXECUTION_ID_NAME := who.executionId,
        JOB_ID_NAME := who.jobId, JOB_NAME_NAME := who.jobName, WORKSPACE_NAME := who.workspace]
  }

  lemma IdentityNamesAreClean(who: Identity)
    ensures forall n :: n in IdentityEnv(who) ==> NoEquals(n)
  {
  }

  function Unreserved(env: map<string, string>): map<string, string> {
    map n | n in env && !IsReservedEnvName(n) :: env[n]
  }

  /** What is inherited without its BUILDA_ variables, then the agent's identity
    * and the parameters; `environ` is what the agent process inherited. */
  ghost predicate IsExecutionEnv(built: seq<string>, who: Identity, env: map<string, string>, environ: seq<string>) {
    && Sanitized(environ) <= built
    && IsSortedEnv(built[|Sanitized(environ)|..], IdentityEnv(who) + Unreserved(env))
  }

  /** Unreserved parameters outside rest, over the agent's identity. */
  function Passed(who: Identity, env: map<string, string>, rest: set<string>): map<string, string> {
    IdentityEnv(who) + map n | n in env && n !in rest && !IsReservedEnvName(n) :: env[n]
  }

  lemma PassedEnds(who: Identity, env: map<string, string>)
    ensures Passed(who, env, env.Keys) == IdentityEnv(who)
    ensures Passed(who, env, {}) == IdentityEnv(who) + Unreserved(env)
  {
    hide IdentityEnv, IsReservedEnvName;
  }

  lemma PassedNext(who: Identity, env: map<string, string>, rest: set<string>, name: string)
    requires name in rest && rest <= env.Keys
    ensures Passed(who, env, rest - {name}) ==
            if IsReservedEnvName(name) then Passed(who, env, rest) else Passed(who, env, rest)[name := env[name]]
  {
    hide IdentityEnv, IsReservedEnvName;
  }

  /** buildExecutionEnv */
  method BuildExecutionEnv(who: Identity, env: map<string, string>, environ: seq<string>) returns (built: seq<string>)
    ensures IsExecutionEnv(built, who, env, environ)
  {
    hide IdentityEnv, IsReservedEnvName, Passed, Unreserved, IsSortedEnv;
    PassedEnds(who, env);
    var values := IdentityEnv(who);
    var rest := env.Keys;
    while rest != {}
      invariant rest <= env.Keys
      invariant values == Passed(who, env, rest)
      decreases |rest|
    {
      var name :| name in rest;
      PassedNext(who, env, rest, name);
      rest := rest - {name};
      if IsReservedEnvName(name) {
        continue;
      }
      values := values[name := env[name]];
    }
    var kept := SanitizeInheritedEnv(environ);
    var entries := SortedEnv(values);
    built := kept + entries;
    assert built[|kept|..] == entries;
  }

  /** A variable rendered among sorted entries is found under its name. */
  lemma EntryOf(entries: seq<string>, names: seq<string>, values: map<string, string>, k: nat)
    requires Renders(entries, names, values) && k < |entries| && NoEquals(names[k])
    ensures HasName(entries[k]) && NameOf(entries[k]) == names[k] && entries[k] == names[k] + "=" + values[names[k]]
  {
    EntryName(names[k], values[names[k]]);
  }

  lemma SortedNamesAreApart(entries: seq<string>, values: map<string, string>, k: nat, l: nat)
    requires IsSortedEnv(entries, values) && (forall n :: n in values ==> NoEquals(n)) && k < l < |entries|
    ensures HasName(entries[k]) && HasName(entries[l]) && NameOf(entries[k]) != NameOf(entries[l])
  {
    var names :| StrictlySorted(names) && Renders(entries, names, values);
    EntryOf(entries, names, values, k);
    EntryOf(entries, names, values, l);
    LexOrder.Total(names[k], names[k]);
    assert LexOrder.Less(names[k], names[l]);
  }

  lemma ValueIsRendered(entries: seq<string>, names: seq<string>, values: map<string, string>, name: string)
    requires Renders(entries, names, values) && name in values && NoEquals(name)
    ensures var entry := name + "=" + values[name]; entry in entries && HasName(entry) && NameOf(entry) == name
  {
    var k :| 0 <= k < |names| && names[k] == name;
    EntryOf(entries, names, values, k);
  }

  lemma ExecutionNamesAreClean(who: Identity, env: map<string, string>)
    requires forall n :: n in env ==> NoEquals(n)
    ensures forall n :: n in IdentityEnv(who) + Unreserved(env) ==> NoEquals(n)
  {
    IdentityNamesAreClean(who);
    hide IdentityEnv, NoEquals;
  }

  /** In the built environment every BUILDA_* name has one entry: the agent's
    * identity and the parameters cannot be shadowed by inherited variables or by
    * one another. */
  lemma BuildaNamesOccurOnce(built: seq<string>, who: Identity, env: map<string, string>, environ: seq<string>, i: nat, j: nat)
    requires IsExecutionEnv(built, who, env, environ) && forall n :: n in env ==> NoEquals(n)
    requires i < j < |built| && HasName(built[i]) && HasName(built[j]) && BUILDA_ENV_PREFIX <= NameOf(built[i])
    ensures NameOf(built[i]) != NameOf(built[j])
  {
    hide IdentityEnv, Unreserved, IsSortedEnv, NoEquals, IsReservedEnvName;
    var n := |Sanitized(environ)|;
    SanitizedIsClean(environ);
    assert built[i] !in built[..n];
    ExecutionNamesAreClean(who, env);
    SortedNamesAreApart(built[n..], IdentityEnv(who) + Unreserved(env), i - n, j - n);
  }

  /** And it has the value meant for it. */
  lemma EveryValueIsPassed(built: seq<string>, who: Identity, env: map<string, string>, environ: seq<string>, name: string)
    requires IsExecutionEnv(built, who, env, environ) && name in env && NoEquals(name) && !IsReservedEnvName(name)
    ensures var entry := name + "=" + env[name]; entry in built && HasName(entry) && NameOf(entry) == name
  {
    hide IdentityEnv, NoEquals, IsReservedEnvName, StrictlySorted, Renders;
    var entries, values := built[|Sanitized(environ)|..], IdentityEnv(who) + Unreserved(env);
    var names :| StrictlySorted(names) && Renders(entries, names, values);
    ValueIsRendered(entries, names, values, name);
  }
}
