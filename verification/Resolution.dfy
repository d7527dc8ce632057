/** resolveParameters (paramresolve.go): the snapshot a run is queued with, the
  * environment it gives the script, and running it again. */
module Resolution {
  import opened Model
  import opened Environment
  import opened Parameters

  // ---- one parameter --------------------------------------------------------------------------

  /** What a parameter resolves to: nothing given, or a value and, for a choice,
    * the selected option. */
  datatype Choice = Blank | Given(value: string, option: Option<OptionConfig>)

  /** url.Values.Get */
  function First(query: Query, name: string): string {
    if name in query && query[name] != [] then query[name][0] else ""
  }

  function RawValue(p: ParameterConfig, query: Query): string {
    var v := TrimSpace(First(query, p.id));
    if v == "" then TrimSpace(p.defaultValue) else v
  }

  predicate PathsOk(o: OptionConfig) {
    PATH_FIELD in o.values ==> ValidPath(o.values[PATH_FIELD])
  }

  /** None: the value is refused. */
  function Choose(catalogs: Catalogs, p: ParameterConfig, v: string): Option<Choice> {
    if v == "" then if p.required then None else Some(Blank)
    else
      match p.kind
      case StringType => Some(Given(v, None))
      case BooleanType =>
        var b := NormalizeBoolean(v);
        if b.None? then None else Some(Given(b.value, None))
      case ChoiceType =>
        var o := FindOption(ParameterOptions(catalogs, p), v);
        if o.None? || !PathsOk(o.value) then None else Some(Given(v, o))
  }

  function ValueOf(c: Choice): string {
    if c.Blank? then "" else c.value
  }

  /** Resolving what was resolved before gives the same again. */
  lemma ChoiceIsFixpoint(catalogs: Catalogs, p: ParameterConfig, raw: string)
    requires Trimmed(raw) && Choose(catalogs, p, raw).Some?
    ensures var v := ValueOf(Choose(catalogs, p, raw).value);
      Trimmed(v) && Choose(catalogs, p, v) == Choose(catalogs, p, raw)
  {
  }

  // ---- the snapshot -----------------------------------------------------------------------------

  const NOTHING := Resolved(map[], map[], map[], map[], "")

  /** A field that gives this name. */
  ghost function FieldFor(id: string, fields: set<string>, name: string): (f: string)
    requires name in FieldNames(id, fields)
    ensures f in fields && ParamFieldEnvName(id, f) == name
  {
    var f :| f in fields && ParamFieldEnvName(id, f) == name;
    f
  }

  /** The variables of an option's fields. */
  ghost function FieldEnv(id: string, values: map<string, string>): map<string, string> {
    map n | n in FieldNames(id, values.Keys) :: values[FieldFor(id, values.Keys, n)]
  }

  ghost function OptionEnv(id: string, o: OptionConfig): map<string, string> {
    map[ParamFieldEnvName(id, OPTION_LABEL_FIELD) := o.title] + FieldEnv(id, o.values)
  }

  ghost function ChoiceEnv(id: string, c: Choice): map<string, string> {
    (if c.Given? && c.option.Some? then OptionEnv(id, c.option.value) else map[]) + map[ParamEnvName(id) := ValueOf(c)]
  }

  ghost function Record(r: Resolved, p: ParameterConfig, c: Choice): Resolved {
    Resolved(r.values[p.id := ValueOf(c)], r.env + ChoiceEnv(p.id, c),
             if c.Given? && c.option.Some? then r.options[p.id := c.option.value] else r.options,
             if c.Given? && c.option.Some? && PATH_FIELD in c.option.value.values
             then r.paths[p.id := c.option.value.values[PATH_FIELD]] else r.paths,
             r.workdirPath)
  }

  /** Recording the first n choices one after the other. */
  ghost function RecordUpTo(params: seq<ParameterConfig>, cs: seq<Option<Choice>>, n: nat): Option<Resolved>
    requires n <= |params| == |cs|
  {
    if n == 0 then Some(NOTHING)
    else
      var r := RecordUpTo(params, cs, n - 1);
      if r.None? || cs[n - 1].None? then None else Some(Record(r.value, params[n - 1], cs[n - 1].value))
  }

  ghost function RecordAll(params: seq<ParameterConfig>, cs: seq<Option<Choice>>): Option<Resolved>
    requires |cs| == |params|
  {
    RecordUpTo(params, cs, |params|)
  }

  function ChoicesOf(catalogs: Catalogs, params: seq<ParameterConfig>, query: Query): (cs: seq<Option<Choice>>)
    ensures |cs| == |params|
    ensures forall i :: 0 <= i < |params| ==> cs[i] == Choose(catalogs, params[i], RawValue(params[i], query))
  {
    seq(|params|, i requires 0 <= i < |params| => Choose(catalogs, params[i], RawValue(params[i], query)))
  }

  predicate Declared(job: Job, name: string) {
    exists i | 0 <= i < |job.parameters| :: job.parameters[i].id == name
  }

  /** Only declared names, each at most once; "wait" belongs to the run API. */
  ghost predicate QueryOk(job: Job, query: Query) {
    forall key :: key in query && key != WAIT_PARAM ==> Declared(job, key) && |query[key]| <= 1
  }

  ghost function Resolve(catalogs: Catalogs, job: Job, query: Query): Option<Resolved> {
    var r := RecordAll(job.parameters, ChoicesOf(catalogs, job.parameters, query));
    if !QueryOk(job, query) || r.None? then None
    else if job.workdirParam == "" then r
    else if job.workdirParam !in r.value.paths then None
    else Some(r.value.(workdirPath := r.value.paths[job.workdirParam]))
  }

  // ---- the code -----------------------------------------------------------------------------------

  ghost predicate UniqueParams(params: seq<ParameterConfig>) {
    forall i, j :: 0 <= i < j < |params| ==> params[i].id != params[j].id
  }

  /** Collision-free parameters have distinct ids. */
  lemma CollisionFreeIsUnique(catalogs: Catalogs, params: seq<ParameterConfig>)
    requires CollisionFree(catalogs, params)
    ensures UniqueParams(params)
  {
  }

  lemma OptionFields(options: seq<OptionConfig>, o: OptionConfig)
    requires o in options
    ensures o.values.Keys <= Fields(options) && OPTION_LABEL_FIELD in Fields(options)
  {
  }

  /** The loop that writes an option's fields, in any order of iteration. */
  method WriteFields(id: string, values: map<string, string>, start: map<string, string>) returns (env: map<string, string>, path: Option<string>)
    requires FieldsApart(id, values.Keys)
    ensures env == start + FieldEnv(id, values)
    ensures path == if PATH_FIELD in values then Some(values[PATH_FIELD]) else None
  {
    env, path := start, None;
    var rest := values.Keys;
    WritingStarts(id, values, start);
    while rest != {}
      invariant Writing(id, values, rest, start, env, path)
      decreases |rest|
    {
      var field :| field in rest;
      WritingNext(id, values, rest, start, env, path, field);
      if field == PATH_FIELD {
        path := Some(values[field]);
      }
      env := env[ParamFieldEnvName(id, field) := values[field]];
      rest := rest - {field};
    }
    WritingEnds(id, values, start, env, path);
  }

  /** The loop with `rest` still to be written. */
  ghost predicate Writing(id: string, values: map<string, string>, rest: set<string>, start: map<string, string>, env: map<string, string>, path: Option<string>) {
    rest <= values.Keys && WroteFields(id, values, values.Keys - rest, start, env) && PathAmong(values, values.Keys - rest, path)
  }

  lemma WritingStarts(id: string, values: map<string, string>, start: map<string, string>)
    ensures Writing(id, values, values.Keys, start, start, None)
  {
  }

  lemma WritingNext(id: string, values: map<string, string>, rest: set<string>, start: map<string, string>, env: map<string, string>,
                    path: Option<string>, field: string)
    requires Writing(id, values, rest, start, env, path) && FieldsApart(id, values.Keys) && field in rest
    ensures Writing(id, values, rest - {field}, start, env[ParamFieldEnvName(id, field) := values[field]],
                    if field == PATH_FIELD then Some(values[field]) else path)
  {
    var done := values.Keys - rest;
    assert values.Keys - (rest - {field}) == done + {field};
    WroteNext(id, values, done, start, env, field);
  }

  lemma WritingEnds(id: string, values: map<string, string>, start: map<string, string>, env: map<string, string>, path: Option<string>)
    requires Writing(id, values, {}, start, env, path) && FieldsApart(id, values.Keys)
    ensures env == start + FieldEnv(id, values) && path == if PATH_FIELD in values then Some(values[PATH_FIELD]) else None
  {
    assert values.Keys - {} == values.Keys;
    WroteAll(id, values, start, env);
  }

  ghost predicate PathAmong(values: map<string, string>, done: set<string>, path: Option<string>) {
    done <= values.Keys && path == if PATH_FIELD in done then Some(values[PATH_FIELD]) else None
  }

  ghost predicate WroteFields(id: string, values: map<string, string>, done: set<string>, start: map<string, string>, env: map<string, string>) {
    && done <= values.Keys && env.Keys == start.Keys + FieldNames(id, done)
    && (forall n :: n in start && n !in FieldNames(id, done) ==> env[n] == start[n])
    && (forall f :: f in done ==> env[ParamFieldEnvName(id, f)] == values[f])
  }

  lemma WroteNext(id: string, values: map<string, string>, done: set<string>, start: map<string, string>, env: map<string, string>, field: string)
    requires WroteFields(id, values, done, start, env) && FieldsApart(id, values.Keys) && field in values && field !in done
    ensures WroteFields(id, values, done + {field}, start, env[ParamFieldEnvName(id, field) := values[field]])
  {
  }

  lemma WroteAll(id: string, values: map<string, string>, start: map<string, string>, env: map<string, string>)
    requires WroteFields(id, values, values.Keys, start, env) && FieldsApart(id, values.Keys)
    ensures env == start + FieldEnv(id, values)
  {
  }

  /** The names the caller sent, in any order of iteration. */
  method CheckQuery(job: Job, query: Query) returns (ok: bool)
    ensures ok <==> QueryOk(job, query)
  {
    var keys := query.Keys;
    while keys != {}
      invariant keys <= query.Keys
      invariant forall key :: key in query && key !in keys && key != WAIT_PARAM ==> Declared(job, key) && |query[key]| <= 1
      decreases |keys|
    {
      var key :| key in keys;
      keys := keys - {key};
      if key == WAIT_PARAM {
        continue;
      }
      if !Declared(job, key) || |query[key]| > 1 {
        return false;
      }
    }
    ok := true;
  }

  /** resolveParameters for a validated job. None: refused. */
  method ResolveParameters(catalogs: Catalogs, job: Job, query: Query) returns (r: Option<Resolved>)
    requires CollisionFree(catalogs, job.parameters)
    ensures r == Resolve(catalogs, job, query)
  {
    var ok := CheckQuery(job, query);
    if !ok {
      return None;
    }
    r := ResolveEach(catalogs, job.parameters, query);
    if r.None? || job.workdirParam == "" {
      return;
    }
    var resolved := r.value;
    if job.workdirParam !in resolved.paths {
      return None;
    }
    r := Some(resolved.(workdirPath := resolved.paths[job.workdirParam]));
  }

  method ResolveEach(catalogs: Catalogs, params: seq<ParameterConfig>, query: Query) returns (r: Option<Resolved>)
    requires CollisionFree(catalogs, params)
    ensures r == RecordAll(params, ChoicesOf(catalogs, params, query))
  {
    r := ResolveChoices(catalogs, params, query, ChoicesOf(catalogs, params, query));
  }

  ghost predicate AreChoices(catalogs: Catalogs, params: seq<ParameterConfig>, query: Query, cs: seq<Option<Choice>>) {
    |cs| == |params| && forall i :: 0 <= i < |params| ==> IsChoice(catalogs, params[i], query, cs[i])
  }

  ghost predicate EachApart(catalogs: Catalogs, params: seq<ParameterConfig>) {
    forall i :: 0 <= i < |params| ==> ApartSelf(catalogs, params[i])
  }

  ghost predicate ApartSelf(catalogs: Catalogs, p: ParameterConfig) {
    NamesApart(p, SourceOptions(catalogs, p))
  }

  ghost predicate IsChoice(catalogs: Catalogs, p: ParameterConfig, query: Query, c: Option<Choice>) {
    c == Choose(catalogs, p, RawValue(p, query))
  }

  /** The loop over the declared parameters. */
  method ResolveChoices(catalogs: Catalogs, params: seq<ParameterConfig>, query: Query, ghost cs: seq<Option<Choice>>) returns (r: Option<Resolved>)
    requires EachApart(catalogs, params) && AreChoices(catalogs, params, query, cs)
    ensures r == RecordAll(params, cs)
  {
    hide Record, IsChoice, ApartSelf;
    var resolved := NOTHING;
    for i := 0 to |params|
      invariant RecordUpTo(params, cs, i) == Some(resolved)
    {
      var next := ResolveOne(catalogs, params[i], query, resolved, cs[i]);
      if next.None? {
        RefusedEarly(params, cs, i + 1, |params|);
        return None;
      }
      resolved := next.value;
    }
    r := Some(resolved);
  }

  lemma {:induction false} RefusedEarly(params: seq<ParameterConfig>, cs: seq<Option<Choice>>, i: nat, n: nat)
    requires i <= n <= |params| == |cs| && RecordUpTo(params, cs, i).None?
    ensures RecordUpTo(params, cs, n).None?
  {
    if i < n {
      RefusedEarly(params, cs, i, n - 1);
    }
  }

  /** The loop body for one parameter. */
  method ResolveOne(catalogs: Catalogs, p: ParameterConfig, query: Query, resolved: Resolved, ghost c: Option<Choice>) returns (r: Option<Resolved>)
    requires ApartSelf(catalogs, p) && IsChoice(catalogs, p, query, c)
    ensures r == if c.None? then None else Some(Record(resolved, p, c.value))
  {
    var value := TrimSpace(First(query, p.id));
    if value == "" {
      value := TrimSpace(p.defaultValue);
    }
    if value == "" {
      if p.required {
        return None;
      }
      RecordPlain(resolved, p, Blank);
      return Some(resolved.(values := resolved.values[p.id := ""], env := resolved.env[ParamEnvName(p.id) := ""]));
    }
    r := ResolveValue(catalogs, p, value, resolved);
  }

  /** The switch on the parameter's type. */
  method ResolveValue(catalogs: Catalogs, p: ParameterConfig, given: string, resolved: Resolved) returns (r: Option<Resolved>)
    requires given != "" && NamesApart(p, SourceOptions(catalogs, p))
    ensures var c := Choose(catalogs, p, given);
      r == if c.None? then None else Some(Record(resolved, p, c.value))
  {
    var value, next := given, resolved;
    if p.kind.BooleanType? {
      var normalized := NormalizeBoolean(value);
      if normalized.None? {
        return None;
      }
      value := normalized.value;
    } else if p.kind.ChoiceType? {
      var options := ParameterOptions(catalogs, p);
      var selected := FindOption(options, value);
      if selected.None? || !PathsOk(selected.value) {
        return None;
      }
      next := SelectOption(catalogs, p, selected.value, resolved);
      RecordOption(resolved, p, value, selected.value);
      return Some(next.(values := next.values[p.id := value], env := next.env[ParamEnvName(p.id) := value]));
    }
    RecordPlain(resolved, p, Given(value, None));
    r := Some(next.(values := next.values[p.id := value], env := next.env[ParamEnvName(p.id) := value]));
  }

  lemma RecordPlain(r: Resolved, p: ParameterConfig, c: Choice)
    requires c.Blank? || c.option.None?
    ensures Record(r, p, c) == r.(values := r.values[p.id := ValueOf(c)], env := r.env[ParamEnvName(p.id) := ValueOf(c)])
  {
  }

  ghost function Selected(r: Resolved, p: ParameterConfig, o: OptionConfig): Resolved {
    Resolved(r.values, r.env + OptionEnv(p.id, o), r.options[p.id := o],
             if PATH_FIELD in o.values then r.paths[p.id := o.values[PATH_FIELD]] else r.paths, r.workdirPath)
  }

  lemma RecordOption(r: Resolved, p: ParameterConfig, value: string, o: OptionConfig)
    ensures var s := Selected(r, p, o);
      Record(r, p, Given(value, Some(o))) == s.(values := s.values[p.id := value], env := s.env[ParamEnvName(p.id) := value])
  {
    OneMore(r.env, OptionEnv(p.id, o), ParamEnvName(p.id), value);
  }

  lemma OneMore(m: map<string, string>, a: map<string, string>, k: string, v: string)
    ensures m + (a + map[k := v]) == (m + a)[k := v]
  {
  }

  lemma OneFirst(m: map<string, string>, k: string, v: string, a: map<string, string>)
    ensures m + (map[k := v] + a) == m[k := v] + a
  {
  }

  /** Recording a selected option. */
  method SelectOption(catalogs: Catalogs, p: ParameterConfig, selected: OptionConfig, resolved: Resolved) returns (r: Resolved)
    requires NamesApart(p, SourceOptions(catalogs, p)) && selected in SourceOptions(catalogs, p)
    ensures r == Selected(resolved, p, selected)
  {
    OptionFields(SourceOptions(catalogs, p), selected);
    OneFirst(resolved.env, ParamFieldEnvName(p.id, OPTION_LABEL_FIELD), selected.title, FieldEnv(p.id, selected.values));
    var env := resolved.env[ParamFieldEnvName(p.id, OPTION_LABEL_FIELD) := selected.title];
    var path;
    env, path := WriteFields(p.id, selected.values, env);
    var paths := resolved.paths;
    if path.Some? {
      paths := paths[p.id := path.value];
    }
    r := Resolved(resolved.values, env, resolved.options[p.id := selected], paths, resolved.workdirPath);
  }
}
