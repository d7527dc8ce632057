/** What a resolved run keeps: every parameter under its own variable, and the
  * same resolution again when it is run again (paramresolve.go, ctrlqueue.go). */
module Rerun {
  import opened Model
  import opened Environment
  import opened Parameters
  import opened Resolution

  // ---- a lossless environment -------------------------------------------------------------------

  /** Every field of the option is in the environment under its own name. The
    * display label too, unless a field named exactly "label" replaces it. */
  ghost predicate OptionShown(env: map<string, string>, id: string, o: OptionConfig) {
    && (forall f :: f in o.values ==> ParamFieldEnvName(id, f) in env && env[ParamFieldEnvName(id, f)] == o.values[f])
    && (OPTION_LABEL_FIELD !in o.values ==>
          ParamFieldEnvName(id, OPTION_LABEL_FIELD) in env && env[ParamFieldEnvName(id, OPTION_LABEL_FIELD)] == o.title)
  }

  ghost predicate Shown(catalogs: Catalogs, r: Resolved, p: ParameterConfig) {
    && p.id in r.values && ParamEnvName(p.id) in r.env && r.env[ParamEnvName(p.id)] == r.values[p.id]
    && (p.id in r.options ==>
          r.options[p.id] in SourceOptions(catalogs, p) && r.options[p.id].value == r.values[p.id] && OptionShown(r.env, p.id, r.options[p.id]))
  }

  lemma FieldEnvAt(id: string, values: map<string, string>, f: string)
    requires FieldsApart(id, values.Keys) && f in values
    ensures ParamFieldEnvName(id, f) in FieldEnv(id, values) && FieldEnv(id, values)[ParamFieldEnvName(id, f)] == values[f]
  {
  }

  lemma OptionEnvShows(id: string, o: OptionConfig, fields: set<string>)
    requires FieldsApart(id, fields) && o.values.Keys <= fields && OPTION_LABEL_FIELD in fields
    ensures OptionShown(OptionEnv(id, o), id, o)
    ensures OptionEnv(id, o).Keys <= FieldNames(id, fields)
    ensures ParamEnvName(id) !in OptionEnv(id, o)
  {
    forall f | f in o.values
      ensures ParamFieldEnvName(id, f) in OptionEnv(id, o) && OptionEnv(id, o)[ParamFieldEnvName(id, f)] == o.values[f]
    {
      FieldEnvAt(id, o.values, f);
    }
    forall n | n in OptionEnv(id, o)
      ensures n in FieldNames(id, fields)
    {
      if n in FieldNames(id, o.values.Keys) {
        var f := FieldFor(id, o.values.Keys, n);
        assert f in fields;
      }
    }
    if OPTION_LABEL_FIELD !in o.values && ParamFieldEnvName(id, OPTION_LABEL_FIELD) in FieldNames(id, o.values.Keys) {
      var f := FieldFor(id, o.values.Keys, ParamFieldEnvName(id, OPTION_LABEL_FIELD));
      assert false;
    }
  }

  /** What Choose guarantees of a choice. */
  ghost predicate Fits(catalogs: Catalogs, p: ParameterConfig, c: Choice) {
    && (c.Given? ==> c.value != "")
    && (c.Given? && c.option.Some? ==> c.option.value in SourceOptions(catalogs, p) && c.option.value.value == c.value)
  }

  lemma ChosenFits(catalogs: Catalogs, p: ParameterConfig, raw: string)
    requires Choose(catalogs, p, raw).Some?
    ensures Fits(catalogs, p, Choose(catalogs, p, raw).value)
    ensures Choose(catalogs, p, raw).value.Blank? ==> raw == ""
  {
  }

  /** The choices recorded for a list of parameters. */
  ghost predicate AllFit(catalogs: Catalogs, params: seq<ParameterConfig>, cs: seq<Option<Choice>>) {
    |cs| == |params| && forall i :: 0 <= i < |params| && cs[i].Some? ==> Fits(catalogs, params[i], cs[i].value)
  }

  /** What a choice writes stays within its parameter's names. */
  lemma ChoiceWrites(catalogs: Catalogs, p: ParameterConfig, c: Choice)
    requires NamesApart(p, SourceOptions(catalogs, p)) && Fits(catalogs, p, c)
    ensures ChoiceEnv(p.id, c).Keys <= NamesOf(catalogs, p)
    ensures ParamEnvName(p.id) in ChoiceEnv(p.id, c) && ChoiceEnv(p.id, c)[ParamEnvName(p.id)] == ValueOf(c)
    ensures c.Given? && c.option.Some? ==> OptionShown(ChoiceEnv(p.id, c), p.id, c.option.value)
  {
    if c.Given? && c.option.Some? {
      var o := c.option.value;
      OptionFields(SourceOptions(catalogs, p), o);
      OptionEnvShows(p.id, o, Fields(SourceOptions(catalogs, p)));
      OneMoreShows(p.id, o, Fields(SourceOptions(catalogs, p)), ValueOf(c));
    }
  }

  lemma OneMoreShows(id: string, o: OptionConfig, fields: set<string>, v: string)
    requires FieldsApart(id, fields) && o.values.Keys <= fields && OPTION_LABEL_FIELD in fields && OptionShown(OptionEnv(id, o), id, o)
    ensures OptionShown(OptionEnv(id, o) + map[ParamEnvName(id) := v], id, o)
  {
  }

  lemma RecordShows(catalogs: Catalogs, r: Resolved, p: ParameterConfig, c: Choice)
    requires NamesApart(p, SourceOptions(catalogs, p)) && Fits(catalogs, p, c) && p.id !in r.options
    ensures ShownWith(catalogs, Record(r, p, c), p, Some(c))
  {
    ChoiceWrites(catalogs, p, c);
  }

  /** Another parameter's names and entries are left alone. */
  lemma RecordKeeps(catalogs: Catalogs, r: Resolved, p: ParameterConfig, c: Choice, q: ParameterConfig)
    requires NamesApart(p, SourceOptions(catalogs, p)) && Fits(catalogs, p, c)
    requires Shown(catalogs, r, q) && q.id != p.id && NamesOf(catalogs, p) !! NamesOf(catalogs, q)
    ensures Shown(catalogs, Record(r, p, c), q) && Record(r, p, c).values[q.id] == r.values[q.id]
  {
    ChoiceWrites(catalogs, p, c);
    assert ParamEnvName(q.id) in NamesOf(catalogs, q);
    if q.id in r.options {
      OptionFields(SourceOptions(catalogs, q), r.options[q.id]);
      OptionStays(catalogs, q, r.env, Record(r, p, c).env, r.options[q.id]);
    }
  }

  lemma OptionStays(catalogs: Catalogs, q: ParameterConfig, env: map<string, string>, more: map<string, string>, o: OptionConfig)
    requires OptionShown(env, q.id, o) && o.values.Keys <= Fields(SourceOptions(catalogs, q)) && OPTION_LABEL_FIELD in Fields(SourceOptions(catalogs, q))
    requires forall n :: n in NamesOf(catalogs, q) && n in env ==> n in more && more[n] == env[n]
    ensures OptionShown(more, q.id, o)
  {
  }

  /** Only the first n parameters have entries. */
  ghost predicate OnlyParams(r: Resolved, params: seq<ParameterConfig>, n: nat) {
    forall name :: name in r.options || name in r.values ==> HasParam(params, n, name)
  }

  ghost predicate HasParam(params: seq<ParameterConfig>, n: nat, name: string) {
    exists i :: 0 <= i < n && i < |params| && params[i].id == name
  }

  lemma {:induction false} OnlyParamsRecorded(params: seq<ParameterConfig>, cs: seq<Option<Choice>>, n: nat)
    requires n <= |params| == |cs| && RecordUpTo(params, cs, n).Some?
    ensures OnlyParams(RecordUpTo(params, cs, n).value, params, n)
  {
    if n > 0 {
      OnlyParamsRecorded(params, cs, n - 1);
      assert HasParam(params, n, params[n - 1].id);
      forall name | HasParam(params, n - 1, name)
        ensures HasParam(params, n, name)
      {
      }
    }
  }

  lemma ApartAt(catalogs: Catalogs, params: seq<ParameterConfig>, i: nat, j: nat)
    requires CollisionFree(catalogs, params) && i < j < |params|
    ensures params[i].id != params[j].id && NamesOf(catalogs, params[j]) !! NamesOf(catalogs, params[i])
  {
  }

  lemma NewParam(catalogs: Catalogs, params: seq<ParameterConfig>, cs: seq<Option<Choice>>, n: nat)
    requires CollisionFree(catalogs, params) && n < |params| == |cs| && RecordUpTo(params, cs, n).Some?
    ensures params[n].id !in RecordUpTo(params, cs, n).value.options
    ensures NamesApart(params[n], SourceOptions(catalogs, params[n]))
  {
    OnlyParamsRecorded(params, cs, n);
    forall i | 0 <= i < n
      ensures params[i].id != params[n].id
    {
      ApartAt(catalogs, params, i, n);
    }
  }

  ghost predicate ShownWith(catalogs: Catalogs, r: Resolved, p: ParameterConfig, c: Option<Choice>) {
    Shown(catalogs, r, p) && c.Some? && r.values[p.id] == ValueOf(c.value)
  }

  lemma {:induction false} AllShown(catalogs: Catalogs, params: seq<ParameterConfig>, cs: seq<Option<Choice>>, n: nat, i: nat)
    requires CollisionFree(catalogs, params) && AllFit(catalogs, params, cs) && i < n <= |params| && RecordUpTo(params, cs, n).Some?
    ensures ShownWith(catalogs, RecordUpTo(params, cs, n).value, params[i], cs[i])
  {
    hide NamesOf, NamesApart, Fits, ShownWith, CollisionFree, Record;
    var r, p, c := RecordUpTo(params, cs, n - 1).value, params[n - 1], cs[n - 1].value;
    NewParam(catalogs, params, cs, n - 1);
    if i == n - 1 {
      RecordShows(catalogs, r, p, c);
    } else {
      AllShown(catalogs, params, cs, n - 1, i);
      ApartAt(catalogs, params, i, n - 1);
      KeepsShown(catalogs, r, p, c, params[i], cs[i]);
    }
  }

  lemma KeepsShown(catalogs: Catalogs, r: Resolved, p: ParameterConfig, c: Choice, q: ParameterConfig, d: Option<Choice>)
    requires NamesApart(p, SourceOptions(catalogs, p)) && Fits(catalogs, p, c)
    requires ShownWith(catalogs, r, q, d) && q.id != p.id && NamesOf(catalogs, p) !! NamesOf(catalogs, q)
    ensures ShownWith(catalogs, Record(r, p, c), q, d)
  {
    RecordKeeps(catalogs, r, p, c, q);
  }

  lemma {:induction false} NothingElse(catalogs: Catalogs, params: seq<ParameterConfig>, cs: seq<Option<Choice>>, n: nat)
    requires CollisionFree(catalogs, params) && AllFit(catalogs, params, cs) && n <= |params| && RecordUpTo(params, cs, n).Some?
    ensures RecordUpTo(params, cs, n).value.env.Keys <= AllNames(catalogs, params)
  {
    hide AllNames, NamesOf, ChoiceEnv, NamesApart, Fits;
    if n > 0 {
      NothingElse(catalogs, params, cs, n - 1);
      ChoiceWrites(catalogs, params[n - 1], cs[n - 1].value);
      NamesAmongAll(catalogs, params, n - 1);
    }
  }

  lemma NamesAmongAll(catalogs: Catalogs, params: seq<ParameterConfig>, i: nat)
    requires i < |params|
    ensures NamesOf(catalogs, params[i]) <= AllNames(catalogs, params)
  {
  }

  lemma ChoicesFit(catalogs: Catalogs, params: seq<ParameterConfig>, query: Query)
    ensures AllFit(catalogs, params, ChoicesOf(catalogs, params, query))
  {
  }

  lemma ResolveIsRecordAll(catalogs: Catalogs, job: Job, query: Query)
    requires Resolve(catalogs, job, query).Some?
    ensures var all := RecordAll(job.parameters, ChoicesOf(catalogs, job.parameters, query));
      var r := Resolve(catalogs, job, query).value;
      all.Some? && r == all.value.(workdirPath := r.workdirPath)
  {
  }

  /** For a validated job every parameter and every field of a selected option
    * appears under its own variable with its own value, and nothing else does. */
  lemma EnvironmentIsLossless(catalogs: Catalogs, job: Job, query: Query, i: nat)
    requires CollisionFree(catalogs, job.parameters) && Resolve(catalogs, job, query).Some? && i < |job.parameters|
    ensures var r := Resolve(catalogs, job, query).value;
      Shown(catalogs, r, job.parameters[i]) && r.env.Keys <= AllNames(catalogs, job.parameters)
  {
    var cs := ChoicesOf(catalogs, job.parameters, query);
    ResolveIsRecordAll(catalogs, job, query);
    ChoicesFit(catalogs, job.parameters, query);
    AllShown(catalogs, job.parameters, cs, |cs|, i);
    NothingElse(catalogs, job.parameters, cs, |cs|);
  }

  // ---- in the process environment ---------------------------------------------------------------

  /** Identifiers as validation admits them. */
  ghost predicate ValidNames(catalogs: Catalogs, params: seq<ParameterConfig>) {
    forall i :: 0 <= i < |params| ==> ValidIdentifier(params[i].id) && AllValid(Fields(SourceOptions(catalogs, params[i])))
  }

  ghost predicate AllValid(fields: set<string>) {
    forall f :: f in fields ==> ValidIdentifier(f)
  }

  lemma SegmentIsClean(value: string)
    requires ValidIdentifier(value)
    ensures NoEquals(NormalizeEnvSegment(value))
  {
  }

  lemma PrefixIsClean()
    ensures NoEquals(PARAM_ENV_PREFIX)
  {
  }

  lemma ParamNameIsClean(id: string)
    requires ValidIdentifier(id)
    ensures NoEquals(ParamEnvName(id)) && !IsReservedEnvName(ParamEnvName(id)) && BUILDA_ENV_PREFIX <= ParamEnvName(id)
  {
    SegmentIsClean(id);
    PrefixIsClean();
    ParamNamesAreApart(ParamEnvName(id), NormalizeEnvSegment(id));
  }

  lemma FieldNameIsClean(id: string, f: string)
    requires ValidIdentifier(id) && ValidIdentifier(f)
    ensures NoEquals(ParamFieldEnvName(id, f)) && !IsReservedEnvName(ParamFieldEnvName(id, f)) && BUILDA_ENV_PREFIX <= ParamFieldEnvName(id, f)
  {
    ParamNameIsClean(id);
    SegmentIsClean(f);
    FieldNameRest(id, f);
    ParamNamesAreApart(ParamFieldEnvName(id, f), NormalizeEnvSegment(id) + "_" + NormalizeEnvSegment(f));
  }

  /** No variable of a validated job is reserved or can be inherited. */
  lemma VariablesAreClean(catalogs: Catalogs, params: seq<ParameterConfig>, name: string)
    requires ValidNames(catalogs, params) && name in AllNames(catalogs, params)
    ensures NoEquals(name) && !IsReservedEnvName(name) && BUILDA_ENV_PREFIX <= name
  {
    var i :| 0 <= i < |params| && name in NamesOf(catalogs, params[i]);
    if name == ParamEnvName(params[i].id) {
      ParamNameIsClean(params[i].id);
    } else {
      var f :| f in Fields(SourceOptions(catalogs, params[i])) && ParamFieldEnvName(params[i].id, f) == name;
      FieldNameIsClean(params[i].id, f);
    }
  }

  /** The script of a validated job finds every resolved variable in its process
    * environment, with its value, whatever the agent inherited. */
  lemma ScriptSeesEveryVariable(catalogs: Catalogs, job: Job, query: Query, who: Identity, environ: seq<string>,
                                built: seq<string>, name: string)
    requires CollisionFree(catalogs, job.parameters) && ValidNames(catalogs, job.parameters) && Resolve(catalogs, job, query).Some?
    requires var env := Resolve(catalogs, job, query).value.env; name in env && IsExecutionEnv(built, who, env, environ)
    ensures var entry := name + "=" + Resolve(catalogs, job, query).value.env[name];
      entry in built && HasName(entry) && NameOf(entry) == name
  {
    var env := Resolve(catalogs, job, query).value.env;
    ResolveIsRecordAll(catalogs, job, query);
    ChoicesFit(catalogs, job.parameters, query);
    NothingElse(catalogs, job.parameters, ChoicesOf(catalogs, job.parameters, query), |job.parameters|);
    VariablesAreClean(catalogs, job.parameters, name);
    EveryValueIsPassed(built, who, env, environ, name);
  }

  /** In the built environment no BUILDA_* name has two entries. */
  lemma ScriptSeesEachNameOnce(catalogs: Catalogs, job: Job, query: Query, who: Identity, environ: seq<string>,
                               built: seq<string>, i: nat, j: nat)
    requires CollisionFree(catalogs, job.parameters) && ValidNames(catalogs, job.parameters) && Resolve(catalogs, job, query).Some?
    requires IsExecutionEnv(built, who, Resolve(catalogs, job, query).value.env, environ)
    requires i < j < |built| && HasName(built[i]) && HasName(built[j]) && BUILDA_ENV_PREFIX <= NameOf(built[i])
    ensures NameOf(built[i]) != NameOf(built[j])
  {
    var env := Resolve(catalogs, job, query).value.env;
    ResolveIsRecordAll(catalogs, job, query);
    ChoicesFit(catalogs, job.parameters, query);
    NothingElse(catalogs, job.parameters, ChoicesOf(catalogs, job.parameters, query), |job.parameters|);
    forall n | n in env
      ensures NoEquals(n)
    {
      VariablesAreClean(catalogs, job.parameters, n);
    }
    BuildaNamesOccurOnce(built, who, env, environ, i, j);
  }

  // ---- running again ------------------------------------------------------------------------------

  /** parameterValuesToQuery: empty values are left out. */
  function ToQuery(values: map<string, string>): Query {
    map n | n in values && values[n] != "" :: [values[n]]
  }

  method ParameterValuesToQuery(values: map<string, string>) returns (query: Query)
    ensures query == ToQuery(values)
  {
    query := map[];
    var rest := values.Keys;
    while rest != {}
      invariant rest <= values.Keys
      invariant query == map n | n in values && n !in rest && values[n] != "" :: [values[n]]
      decreases |rest|
    {
      var name :| name in rest;
      rest := rest - {name};
      if values[name] == "" {
        continue;
      }
      query := query[name := [values[name]]];
    }
  }

  ghost predicate StillDeclared(job: Job, values: map<string, string>) {
    forall n :: n in values && values[n] != "" ==> Declared(job, n)
  }

  /** Rerun up to the enqueue: what the new run is resolved to. */
  method RerunParameters(catalogs: Catalogs, job: Job, previous: map<string, string>) returns (r: Option<Resolved>)
    requires CollisionFree(catalogs, job.parameters)
    ensures r == if StillDeclared(job, previous) then Resolve(catalogs, job, ToQuery(previous)) else None
  {
    var rest := previous.Keys;
    while rest != {}
      invariant rest <= previous.Keys
      invariant forall n :: n in previous && n !in rest && previous[n] != "" ==> Declared(job, n)
      decreases |rest|
    {
      var name :| name in rest;
      rest := rest - {name};
      if previous[name] != "" && !Declared(job, name) {
        return None;
      }
    }
    var query := ParameterValuesToQuery(previous);
    r := ResolveParameters(catalogs, job, query);
  }

  lemma RawIsTrimmed(p: ParameterConfig, query: Query)
    ensures Trimmed(RawValue(p, query))
  {
    TrimmedIsFixpoint(First(query, p.id));
    TrimmedIsFixpoint(p.defaultValue);
  }

  /** One parameter resolves to the same choice from its stored value. */
  lemma SameChoice(catalogs: Catalogs, p: ParameterConfig, query: Query, values: map<string, string>)
    requires Choose(catalogs, p, RawValue(p, query)).Some?
    requires p.id in values && values[p.id] == ValueOf(Choose(catalogs, p, RawValue(p, query)).value)
    ensures Choose(catalogs, p, RawValue(p, ToQuery(values))) == Choose(catalogs, p, RawValue(p, query))
  {
    var raw := RawValue(p, query);
    RawIsTrimmed(p, query);
    ChosenFits(catalogs, p, raw);
    ChoiceIsFixpoint(catalogs, p, raw);
    StoredRaw(p, query, values);
  }

  /** The raw value read back from the stored one. */
  lemma StoredRaw(p: ParameterConfig, query: Query, values: map<string, string>)
    requires p.id in values && Trimmed(values[p.id]) && (values[p.id] == "" ==> RawValue(p, query) == "")
    ensures RawValue(p, ToQuery(values)) == values[p.id]
  {
  }

  lemma SameChoices(catalogs: Catalogs, params: seq<ParameterConfig>, query: Query)
    requires CollisionFree(catalogs, params) && RecordAll(params, ChoicesOf(catalogs, params, query)).Some?
    ensures var r := RecordAll(params, ChoicesOf(catalogs, params, query)).value;
      ChoicesOf(catalogs, params, ToQuery(r.values)) == ChoicesOf(catalogs, params, query)
  {
    var cs := ChoicesOf(catalogs, params, query);
    var r := RecordAll(params, cs).value;
    ChoicesFit(catalogs, params, query);
    forall i | 0 <= i < |params|
      ensures ChoicesOf(catalogs, params, ToQuery(r.values))[i] == cs[i]
    {
      AllShown(catalogs, params, cs, |cs|, i);
      SameChoice(catalogs, params[i], query, r.values);
    }
  }

  lemma StoredQueryOk(job: Job, r: Resolved)
    requires OnlyParams(r, job.parameters, |job.parameters|)
    ensures QueryOk(job, ToQuery(r.values)) && StillDeclared(job, r.values)
  {
  }

  lemma SameQueriesSameResult(catalogs: Catalogs, job: Job, query: Query, again: Query)
    requires ChoicesOf(catalogs, job.parameters, again) == ChoicesOf(catalogs, job.parameters, query)
    ensures QueryOk(job, again) && Resolve(catalogs, job, query).Some? ==> Resolve(catalogs, job, again) == Resolve(catalogs, job, query)
  {
  }

  /** Rerun is a fixpoint: under the same validated configuration, resolving the
    * stored values again succeeds with the same values, environment, selected
    * options and working directory. */
  lemma RerunIsFixpoint(catalogs: Catalogs, job: Job, query: Query)
    requires CollisionFree(catalogs, job.parameters) && Resolve(catalogs, job, query).Some?
    ensures var r := Resolve(catalogs, job, query);
      StillDeclared(job, r.value.values) && Resolve(catalogs, job, ToQuery(r.value.values)) == r
  {
    ResolveIsRecordAll(catalogs, job, query);
    SameChoices(catalogs, job.parameters, query);
    SameQueriesSameResult(catalogs, job, query, ToQuery(Resolve(catalogs, job, query).value.values));
    OnlyParamsRecorded(job.parameters, ChoicesOf(catalogs, job.parameters, query), |job.parameters|);
    StoredQueryOk(job, Resolve(catalogs, job, query).value);
  }
}
