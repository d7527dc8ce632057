/** Parameter validation and resolution (paramenv.go, ctrlvalidate.go,
  * paramresolve.go). */
module Parameters {
  import opened Model
  import opened Environment

  datatype OptionConfig = OptionConfig(value: string, title: string, labels: seq<string>, values: map<string, string>)

  datatype ParameterType = StringType | ChoiceType | BooleanType

  /** catalog == "": the options are inline. */
  datatype ParameterConfig = ParameterConfig(
    id: string, kind: ParameterType, defaultValue: string, required: bool,
    options: seq<OptionConfig>, catalog: string, catalogLabels: seq<string>)

  type Catalogs = map<string, seq<OptionConfig>>

  datatype Job = Job(parameters: seq<ParameterConfig>, workdirParam: string)

  type Query = map<string, seq<string>>

  datatype Resolved = Resolved(values: map<string, string>, env: map<string, string>, options: map<string, OptionConfig>,
                               paths: map<string, string>, workdirPath: string)

  const WAIT_PARAM := "wait"
  const PATH_FIELD := "path"

  // ---- values -------------------------------------------------------------------------------

  /** unicode.IsSpace */
  predicate IsSpace(c: char) {
    var n := c as int;
    || 0x09 <= n <= 0x0D || n == 0x20 || n == 0x85 || n == 0xA0 || n == 0x1680 || 0x2000 <= n <= 0x200A
    || n == 0x2028 || n == 0x2029 || n == 0x202F || n == 0x205F || n == 0x3000
  }

  function TrimLeft(s: string): string {
    if s != "" && IsSpace(s[0]) then TrimLeft(s[1..]) else s
  }

  function TrimRight(s: string): string {
    if s != "" && IsSpace(s[|s| - 1]) then TrimRight(s[..|s| - 1]) else s
  }

  /** strings.TrimSpace */
  function TrimSpace(s: string): string {
    TrimRight(TrimLeft(s))
  }

  predicate Trimmed(s: string) {
    s == "" || (!IsSpace(s[0]) && !IsSpace(s[|s| - 1]))
  }

  lemma {:induction false} TrimLeftTrims(s: string)
    ensures TrimLeft(s) == "" || !IsSpace(TrimLeft(s)[0])
  {
    if s != "" && IsSpace(s[0]) {
      TrimLeftTrims(s[1..]);
    }
  }

  lemma {:induction false} TrimRightTrims(s: string)
    ensures var r := TrimRight(s);
      r == "" || (!IsSpace(r[|r| - 1]) && s != "" && r[0] == s[0])
  {
    if s != "" && IsSpace(s[|s| - 1]) {
      TrimRightTrims(s[..|s| - 1]);
    }
  }

  lemma TrimmedIsFixpoint(s: string)
    ensures Trimmed(TrimSpace(s))
    ensures Trimmed(s) ==> TrimSpace(s) == s
  {
    TrimLeftTrims(s);
    TrimRightTrims(TrimLeft(s));
  }

  function LowerChar(c: char): char {
    if 'A' <= c <= 'Z' then c - 'A' + 'a' else c
  }

  function ToLower(s: string): (r: string)
    ensures |r| == |s|
    ensures forall i :: 0 <= i < |s| ==> r[i] == LowerChar(s[i])
  {
    seq(|s|, i requires 0 <= i < |s| => LowerChar(s[i]))
  }

  /** The words for true, compared letter by letter. */
  predicate IsTrueWord(v: string) {
    || (|v| == 1 && v[0] == '1')
    || (|v| == 2 && v[0] == 'o' && v[1] == 'n')
    || (|v| == 3 && v[0] == 'y' && v[1] == 'e' && v[2] == 's')
    || (|v| == 4 && v[0] == 't' && v[1] == 'r' && v[2] == 'u' && v[3] == 'e')
  }

  predicate IsFalseWord(v: string) {
    || (|v| == 1 && v[0] == '0')
    || (|v| == 2 && v[0] == 'n' && v[1] == 'o')
    || (|v| == 3 && v[0] == 'o' && v[1] == 'f' && v[2] == 'f')
    || (|v| == 5 && v[0] == 'f' && v[1] == 'a' && v[2] == 'l' && v[3] == 's' && v[4] == 'e')
  }

  lemma BooleanWords(v: string)
    ensures IsTrueWord(v) <==> v == "1" || v == "true" || v == "yes" || v == "on"
    ensures IsFalseWord(v) <==> v == "0" || v == "false" || v == "no" || v == "off"
  {
  }

  function ParseBoolean(value: string): Option<bool> {
    var v := ToLower(TrimSpace(value));
    if IsTrueWord(v) then Some(true)
    else if IsFalseWord(v) then Some(false)
    else None
  }

  function BooleanText(b: bool): string {
    if b then "true" else "false"
  }

  /** normalizeBooleanValue. Only ASCII letters lower to letters of these words. */
  function NormalizeBoolean(value: string): Option<string> {
    var b := ParseBoolean(value);
    if b.Some? then Some(BooleanText(b.value)) else None
  }

  lemma ParseCanonical(b: bool)
    ensures ParseBoolean(BooleanText(b)) == Some(b)
  {
  }

  // ---- options ------------------------------------------------------------------------------

  function FilterOptions(options: seq<OptionConfig>, required: seq<string>): (r: seq<OptionConfig>)
    ensures forall o :: o in r ==> o in options && LabelsSatisfied(required, o.labels)
  {
    if options == [] then []
    else
      var n := |options| - 1;
      FilterOptions(options[..n], required) + if LabelsSatisfied(required, options[n].labels) then [options[n]] else []
  }

  /** Every option the collision check considers. */
  function SourceOptions(catalogs: Catalogs, p: ParameterConfig): seq<OptionConfig> {
    if !p.kind.ChoiceType? then []
    else if p.catalog == "" then p.options
    else if p.catalog in catalogs then catalogs[p.catalog]
    else []
  }

  /** parameterOptions: what the parameter can select now. */
  function ParameterOptions(catalogs: Catalogs, p: ParameterConfig): (r: seq<OptionConfig>)
    ensures forall o :: o in r ==> o in SourceOptions(catalogs, p)
  {
    if p.kind.ChoiceType? && p.catalog != "" then FilterOptions(SourceOptions(catalogs, p), p.catalogLabels)
    else SourceOptions(catalogs, p)
  }

  function FindOption(options: seq<OptionConfig>, value: string): (r: Option<OptionConfig>)
    ensures r.Some? ==> r.value in options && r.value.value == value
    ensures r.None? ==> forall o :: o in options ==> o.value != value
  {
    if options == [] then None
    else if options[0].value == value then Some(options[0])
    else FindOption(options[1..], value)
  }

  predicate HasSegment(path: string, segment: string) {
    segment in Segments(path)
  }

  function Segments(path: string): (r: seq<string>)
    ensures |r| > 0
  {
    if path == "" then [""]
    else
      var rest := Segments(path[1..]);
      if path[0] == '/' then [""] + rest else [[path[0]] + rest[0]] + rest[1..]
  }

  /** validateRelativeWorkspacePath. path.Clean leaves a path alone that passes
    * the other checks. */
  predicate ValidPath(path: string) {
    && TrimSpace(path) != "" && TrimSpace(path) == path
    && '\0' !in path && '\\' !in path && path[0] != '/' && path[0] != '~'
    && !HasSegment(path, "") && !HasSegment(path, ".") && !HasSegment(path, "..")
  }

  // ---- names of a parameter -------------------------------------------------------------------

  /** The option fields of a parameter, with the display label. */
  function Fields(options: seq<OptionConfig>): set<string> {
    if options == [] then {} else {OPTION_LABEL_FIELD} + set o, f | o in options && f in o.values :: f
  }

  function FieldNames(id: string, fields: set<string>): set<string> {
    set f | f in fields :: ParamFieldEnvName(id, f)
  }

  /** Every variable name a parameter can produce. */
  function NameSet(p: ParameterConfig, options: seq<OptionConfig>): set<string> {
    {ParamEnvName(p.id)} + FieldNames(p.id, Fields(options))
  }

  ghost predicate FieldsApart(id: string, fields: set<string>) {
    && (forall f, g :: f in fields && g in fields && ParamFieldEnvName(id, f) == ParamFieldEnvName(id, g) ==> f == g)
    && (forall f :: f in fields ==> ParamFieldEnvName(id, f) != ParamEnvName(id))
  }

  /** No two declarations of one parameter produce the same name. */
  ghost predicate NamesApart(p: ParameterConfig, options: seq<OptionConfig>) {
    FieldsApart(p.id, Fields(options))
  }

  function NamesOf(catalogs: Catalogs, p: ParameterConfig): set<string> {
    NameSet(p, SourceOptions(catalogs, p))
  }

  function AllNames(catalogs: Catalogs, params: seq<ParameterConfig>): set<string> {
    set i, n | 0 <= i < |params| && n in NamesOf(catalogs, params[i]) :: n
  }

  /** What validation guarantees of a job: no two declarations, of one parameter
    * or of two, produce the same variable. */
  ghost predicate CollisionFree(catalogs: Catalogs, params: seq<ParameterConfig>) {
    && (forall i :: 0 <= i < |params| ==> NamesApart(params[i], SourceOptions(catalogs, params[i])))
    && (forall i, j :: 0 <= i < j < |params| ==>
          NamesOf(catalogs, params[i]) !! NamesOf(catalogs, params[j]))
  }

  class EnvCollisionChecker {
    var owners: map<string, string>

    constructor ()
      ensures owners == map[]
    {
      owners := map[];
    }

    /** envCollisionChecker.add */
    method Add(name: string, owner: string) returns (ok: bool)
      modifies this
      ensures ok <==> !IsReservedEnvName(name) && name !in old(owners)
      ensures owners == if ok then old(owners)[name := owner] else old(owners)
    {
      if IsReservedEnvName(name) {
        return false;
      }
      if name in owners {
        return false;
      }
      owners := owners[name := owner];
      ok := true;
    }
  }

  /** What adding the fields one by one has established so far. */
  ghost predicate AddedSo(id: string, before: set<string>, done: set<string>, now: set<string>) {
    && ParamEnvName(id) !in before && FieldsApart(id, done) && FieldNames(id, done) !! before
    && now == before + {ParamEnvName(id)} + FieldNames(id, done)
  }

  lemma AddedNext(id: string, before: set<string>, done: set<string>, now: set<string>, field: string)
    requires AddedSo(id, before, done, now) && field !in done
    ensures var name := ParamFieldEnvName(id, field);
      && (name !in now ==> AddedSo(id, before, done + {field}, now + {name}))
      && (name in now ==> !FieldsApart(id, done + {field}) || name in before)
  {
  }

  /** paramEnvNames and the checker, for one parameter. */
  method AddNames(checker: EnvCollisionChecker, p: ParameterConfig, options: seq<OptionConfig>) returns (ok: bool)
    modifies checker
    ensures ok <==> NamesApart(p, options) && NameSet(p, options) !! old(checker.owners).Keys
    ensures ok ==> checker.owners.Keys == old(checker.owners).Keys + NameSet(p, options)
  {
    ghost var before := checker.owners.Keys;
    NameSetHas(p, options);
    var added := AddParamName(checker, p.id);
    if !added {
      return false;
    }
    AddedFirst(p.id, before);
    ok := AddFieldNames(checker, p.id, Fields(options), before);
    if ok { AddedAll(p, options, before, checker.owners.Keys); }
  }

  method AddFieldNames(checker: EnvCollisionChecker, id: string, fields: set<string>, ghost before: set<string>) returns (ok: bool)
    requires AddedSo(id, before, {}, checker.owners.Keys)
    modifies checker
    ensures ok ==> AddedSo(id, before, fields, checker.owners.Keys)
    ensures !ok ==> !FieldsApart(id, fields) || FieldNames(id, fields) * before != {}
  {
    hide AddedSo, FieldsApart, FieldNames;
    var rest := fields;
    ghost var done: set<string> := {};
    while rest != {}
      invariant done + rest == fields && done !! rest
      invariant AddedSo(id, before, done, checker.owners.Keys)
      decreases |rest|
    {
      var field :| field in rest;
      AddedNext(id, before, done, checker.owners.Keys, field);
      ok := AddFieldName(checker, id, field);
      if !ok {
        AddedClash(id, fields, before, done, field);
        return;
      }
      done := done + {field};
      rest := rest - {field};
    }
    assert done == fields;
    ok := true;
  }

  lemma NameSetHas(p: ParameterConfig, options: seq<OptionConfig>)
    ensures ParamEnvName(p.id) in NameSet(p, options)
  {
  }

  lemma AddedFirst(id: string, before: set<string>)
    requires ParamEnvName(id) !in before
    ensures AddedSo(id, before, {}, before + {ParamEnvName(id)})
  {
  }

  method AddParamName(checker: EnvCollisionChecker, id: string) returns (ok: bool)
    modifies checker
    ensures ok <==> ParamEnvName(id) !in old(checker.owners)
    ensures checker.owners.Keys == if ok then old(checker.owners).Keys + {ParamEnvName(id)} else old(checker.owners).Keys
  {
    ParamNamesAreApart(ParamEnvName(id), NormalizeEnvSegment(id));
    ok := checker.Add(ParamEnvName(id), id);
  }

  lemma AddedClash(id: string, fields: set<string>, before: set<string>, done: set<string>, field: string)
    requires field in fields && done <= fields
    requires !FieldsApart(id, done + {field}) || ParamFieldEnvName(id, field) in before
    ensures !FieldsApart(id, fields) || FieldNames(id, fields) * before != {}
  {
    assert ParamFieldEnvName(id, field) in FieldNames(id, fields);
    if ParamFieldEnvName(id, field) in before {
      assert ParamFieldEnvName(id, field) in FieldNames(id, fields) * before;
    }
  }

  lemma AddedAll(p: ParameterConfig, options: seq<OptionConfig>, before: set<string>, now: set<string>)
    requires AddedSo(p.id, before, Fields(options), now)
    ensures NamesApart(p, options) && NameSet(p, options) !! before && now == before + NameSet(p, options)
  {
  }

  method AddFieldName(checker: EnvCollisionChecker, id: string, field: string) returns (ok: bool)
    modifies checker
    ensures ok <==> ParamFieldEnvName(id, field) !in old(checker.owners)
    ensures checker.owners.Keys == if ok then old(checker.owners).Keys + {ParamFieldEnvName(id, field)} else old(checker.owners).Keys
  {
    FieldNameRest(id, field);
    ParamNamesAreApart(ParamFieldEnvName(id, field), NormalizeEnvSegment(id) + "_" + NormalizeEnvSegment(field));
    ok := checker.Add(ParamFieldEnvName(id, field), id);
  }

  lemma FieldNameRest(id: string, field: string)
    ensures ParamFieldEnvName(id, field) == PARAM_ENV_PREFIX + (NormalizeEnvSegment(id) + "_" + NormalizeEnvSegment(field))
  {
  }

  /** The collision part of validateJobParameters accepts exactly the
    * collision-free jobs. */
  method CheckCollisions(catalogs: Catalogs, params: seq<ParameterConfig>) returns (ok: bool)
    ensures ok <==> CollisionFree(catalogs, params)
  {
    var checker := new EnvCollisionChecker();
    for i := 0 to |params|
      invariant CollisionFree(catalogs, params[..i])
      invariant checker.owners.Keys == AllNames(catalogs, params[..i])
    {
      var p := params[i];
      var options := SourceOptions(catalogs, p);
      AllNamesNext(catalogs, params, i);
      DisjointFromAll(catalogs, params[..i], NamesOf(catalogs, p));
      CollisionStep(catalogs, params, i);
      ok := AddNames(checker, p, options);
      if !ok {
        if CollisionFree(catalogs, params) { CollisionPrefix(catalogs, params, i + 1); }
        return;
      }
    }
    assert params[..|params|] == params;
    ok := true;
  }

  lemma AllNamesNext(catalogs: Catalogs, params: seq<ParameterConfig>, i: nat)
    requires i < |params|
    ensures AllNames(catalogs, params[..i + 1]) == AllNames(catalogs, params[..i]) + NamesOf(catalogs, params[i])
  {
  }

  ghost predicate ApartFromAll(catalogs: Catalogs, params: seq<ParameterConfig>, names: set<string>) {
    forall k :: 0 <= k < |params| ==> names !! NamesOf(catalogs, params[k])
  }

  lemma DisjointFromAll(catalogs: Catalogs, params: seq<ParameterConfig>, names: set<string>)
    ensures names !! AllNames(catalogs, params) <==> ApartFromAll(catalogs, params, names)
  {
  }

  lemma CollisionStep(catalogs: Catalogs, params: seq<ParameterConfig>, i: nat)
    requires i < |params| && CollisionFree(catalogs, params[..i])
    ensures NamesApart(params[i], SourceOptions(catalogs, params[i])) && ApartFromAll(catalogs, params[..i], NamesOf(catalogs, params[i]))
            <==> CollisionFree(catalogs, params[..i + 1])
  {
    var after := params[..i + 1];
    assert after == params[..i] + [params[i]];
    if CollisionFree(catalogs, after) {
      assert NamesApart(after[i], SourceOptions(catalogs, after[i]));
      forall k | 0 <= k < i
        ensures NamesOf(catalogs, params[i]) !! NamesOf(catalogs, params[..i][k])
      {
        assert NamesOf(catalogs, after[k]) !! NamesOf(catalogs, after[i]);
      }
    }
  }

  lemma CollisionPrefix(catalogs: Catalogs, params: seq<ParameterConfig>, i: nat)
    requires i <= |params| && CollisionFree(catalogs, params)
    ensures CollisionFree(catalogs, params[..i])
  {
  }
}
