/** `O2SparcService` and `O2SparcSolver` (src/sparc/client/services/o2sparc.py): option
    resolution from the environment and the configuration, the version in the user
    agent, and the solver's job bookkeeping. Every osparc SDK call is a parameter: the
    environment, the user agent, upload and download results, the created job id and
    the outcome of starting it are given, not computed. */
module O2Sparc {
  import opened PyRuntime
  import opened PyStrings
  import opened ConfigStore

  // ---------------------------------------------------------------------------
  // Option resolution (O2SparcService.__init__)

  /** The option names, in loop order. */
  const OptionNames: seq<string> := ["host", "username", "password"]

  /** `f"O2SPARC_{name.upper()}"`. */
  function EnvName(name: string): string {
    "O2SPARC_" + Upper(name)
  }

  /** `env_name.lower()`. */
  function ConfigName(name: string): string {
    Lower(EnvName(name))
  }

  /** For a lower-case name the configuration key is `o2sparc_<name>`. */
  lemma ConfigNameOfLowerName(name: string)
    requires LowerAscii(name)
    ensures ConfigName(name) == "o2sparc_" + name
  {
    LowerConcat("O2SPARC_", Upper(name));
    LowerUpper(name);
    assert Lower("O2SPARC_") == "o2sparc_";
  }

  /** `config or {}`: `None` (and an empty mapping) reads as the empty mapping. */
  function Effective(config: Option<Section>): (r: Section)
    ensures config.None? ==> r == map[]
    ensures config.Some? ==> r == config.value
  {
    if config.Some? then config.value else map[]
  }

  /** `a or b` on optional strings: `None` and `""` are falsy. */
  function PyOr(a: Option<string>, b: Option<string>): (r: Option<string>)
    ensures a.Some? && a.value != "" ==> r == a
    ensures a.None? || a.value == "" ==> r == b
  {
    if a.Some? && a.value != "" then a else b
  }

  /** `os.environ.get(env_name) or config.get(config_name)`. */
  function Resolve(env: map<string, string>, config: Option<Section>, name: string): Option<string> {
    PyOr(MapGet(env, EnvName(name)), MapGet(Effective(config), ConfigName(name)))
  }

  /** The environment wins when it holds a non-empty value; otherwise the configuration
      is consulted, and `None` means neither has the option. */
  lemma ResolveRule(env: map<string, string>, config: Option<Section>, name: string)
    ensures EnvName(name) in env && env[EnvName(name)] != "" ==>
      Resolve(env, config, name) == Some(env[EnvName(name)])
    ensures EnvName(name) !in env || env[EnvName(name)] == "" ==>
      Resolve(env, config, name) == MapGet(Effective(config), ConfigName(name))
    ensures Resolve(env, config, name).None? <==>
      (EnvName(name) !in env || env[EnvName(name)] == "") && ConfigName(name) !in Effective(config)
  {
  }

  /** The `kwargs` the loop builds, name by name. */
  function ResolveAll(names: seq<string>, env: map<string, string>, config: Option<Section>, acc: map<string, string>): map<string, string>
    decreases |names|
  {
    if names == [] then acc
    else
      var v := Resolve(env, config, names[0]);
      ResolveAll(names[1..], env, config, if v.Some? then acc[names[0] := v.value] else acc)
  }

  /** After the loop over `names`: a name is bound exactly when its resolved value is
      not `None`, and then to that value; other keys keep their binding. */
  lemma {:induction false} ResolveAllContents(names: seq<string>, env: map<string, string>, config: Option<Section>, acc: map<string, string>)
    ensures var m := ResolveAll(names, env, config, acc);
      && (forall n :: n in m <==> n in acc || (n in names && Resolve(env, config, n).Some?))
      && (forall n :: n in names && Resolve(env, config, n).Some? ==> m[n] == Resolve(env, config, n).value)
      && (forall n :: n in acc && n !in names ==> m[n] == acc[n])
    decreases |names|
  {
    if names != [] {
      var v := Resolve(env, config, names[0]);
      var acc' := if v.Some? then acc[names[0] := v.value] else acc;
      ResolveAllContents(names[1..], env, config, acc');
      assert forall n :: n in names <==> n == names[0] || n in names[1..];
    }
  }

  /** The loop of lines 118-124 over `names` (`OptionNames` in the service): a name is
      passed to the SDK configuration exactly when its resolved value is not `None`, and
      then with that value. */
  method ResolveOptions(names: seq<string>, env: map<string, string>, config: Option<Section>) returns (kwargs: map<string, string>)
    ensures kwargs == ResolveAll(names, env, config, map[])
    ensures forall n :: n in kwargs <==> n in names && Resolve(env, config, n).Some?
    ensures forall n :: n in kwargs ==> Some(kwargs[n]) == Resolve(env, config, n)
  {
    kwargs := map[];
    var i := 0;
    while i < |names|
      invariant 0 <= i <= |names|
      invariant ResolveAll(names, env, config, map[]) == ResolveAll(names[i..], env, config, kwargs)
    {
      var name := names[i];
      assert names[i..][0] == name && names[i..][1..] == names[i + 1..];
      var value := PyOr(MapGet(env, EnvName(name)), MapGet(Effective(config), ConfigName(name)));
      if value.Some? {
        kwargs := kwargs[name := value.value];
      }
      i := i + 1;
    }
    ResolveAllContents(names, env, config, map[]);
  }

  /** `kwargs.get(n)` for a listed option is its resolved value. */
  lemma KwargLookup(names: seq<string>, env: map<string, string>, config: Option<Section>, kwargs: map<string, string>, n: string)
    requires forall m :: m in kwargs <==> m in names && Resolve(env, config, m).Some?
    requires forall m :: m in kwargs ==> Some(kwargs[m]) == Resolve(env, config, m)
    requires n in names
    ensures MapGet(kwargs, n) == Resolve(env, config, n)
  {
  }

  /** The three options the service passes, read back out of the loop's `kwargs`. */
  lemma ResolvedFields(env: map<string, string>, config: Option<Section>, kwargs: map<string, string>)
    requires forall m :: m in kwargs <==> m in OptionNames && Resolve(env, config, m).Some?
    requires forall m :: m in kwargs ==> Some(kwargs[m]) == Resolve(env, config, m)
    ensures MapGet(kwargs, "host") == Resolve(env, config, "host")
    ensures MapGet(kwargs, "username") == Resolve(env, config, "username")
    ensures MapGet(kwargs, "password") == Resolve(env, config, "password")
  {
    assert MapGet(kwargs, "host") == Resolve(env, config, "host") by {
      KwargLookup(OptionNames, env, config, kwargs, "host");
    }
    assert MapGet(kwargs, "username") == Resolve(env, config, "username") by {
      KwargLookup(OptionNames, env, config, kwargs, "username");
    }
    assert MapGet(kwargs, "password") == Resolve(env, config, "password") by {
      KwargLookup(OptionNames, env, config, kwargs, "password");
    }
  }

  /** `config.get("pennsieve_profile_name", "prod") == "test"`. */
  predicate DebugMode(config: Option<Section>) {
    MapGet(Effective(config), "pennsieve_profile_name").GetOr("prod") == "test"
  }

  lemma DebugModeRule(config: Option<Section>)
    ensures DebugMode(config) <==> "pennsieve_profile_name" in Effective(config) &&
                                   Effective(config)["pennsieve_profile_name"] == "test"
    ensures config.None? ==> !DebugMode(config)
  {
  }

  /** The part of `osparc.Configuration` the service sets. */
  datatype Configuration = Configuration(
    host: Option<string>,
    username: Option<string>,
    password: Option<string>,
    debug: bool)

  /** `osparc.Configuration(**kwargs)` followed by setting `debug`. */
  function ConfigurationOf(kwargs: map<string, string>, debug: bool): (c: Configuration)
    ensures c.host == MapGet(kwargs, "host") && c.username == MapGet(kwargs, "username")
    ensures c.password == MapGet(kwargs, "password") && c.debug == debug
  {
    Configuration(MapGet(kwargs, "host"), MapGet(kwargs, "username"), MapGet(kwargs, "password"), debug)
  }

  /** `user_agent.split("/")[1]`. */
  function Info(userAgent: string): (r: Result<string>)
    ensures r.Err? ==> r.error == IndexError("list index out of range")
    ensures r.Ok? ==> '/' !in r.value
  {
    var parts := Split(userAgent, '/');
    if |parts| >= 2 then Ok(parts[1]) else Err(IndexError("list index out of range"))
  }

  /** `info()` fails exactly when the user agent holds no '/'. */
  lemma InfoFailsIffNoSlash(userAgent: string)
    ensures Info(userAgent).Err? <==> '/' !in userAgent
  {
    SplitHasSeveralFields(userAgent, '/');
  }

  /** `info()` is the field right after the first '/': the version in
      `<generator>/<version>` and in `<generator>/<version>/<rest>`. */
  lemma InfoIsSecondField(generator: string, version: string, rest: Option<string>)
    requires '/' !in generator && '/' !in version
    ensures var ua := if rest.Some? then generator + "/" + version + "/" + rest.value else generator + "/" + version;
      Info(ua) == Ok(version)
  {
    if rest.Some? {
      var t := version + "/" + rest.value;
      assert generator + "/" + version + "/" + rest.value == generator + ['/'] + t;
      SplitField(generator, '/', t);
      assert t == version + ['/'] + rest.value;
      SplitField(version, '/', rest.value);
    } else {
      assert generator + "/" + version == generator + ['/'] + version;
      SplitField(generator, '/', version);
      SplitNoSep(version, '/');
    }
  }

  lemma InfoOfDefaultAgent()
    ensures Info("OpenAPI-Generator/0.5.0/python") == Ok("0.5.0")
  {
    InfoIsSecondField("OpenAPI-Generator", "0.5.0", Some("python"));
    assert "OpenAPI-Generator" + "/" + "0.5.0" + "/" + "python" == "OpenAPI-Generator/0.5.0/python";
  }

  class O2SparcService {
    var configuration: Configuration
    /** The SDK client's `user_agent`. */
    const userAgent: string

    /** `O2SparcService(config=None, connect=True)` in environment `env`; `connect` only
        touches the SDK's connection pool, which is not modelled. */
    constructor (env: map<string, string>, userAgent: string, config: Option<Section> := None)
      ensures this.userAgent == userAgent
      ensures configuration.host == Resolve(env, config, "host")
      ensures configuration.username == Resolve(env, config, "username")
      ensures configuration.password == Resolve(env, config, "password")
      ensures configuration.debug <==> DebugMode(config)
    {
      var kwargs := ResolveOptions(OptionNames, env, config);
      ResolvedFields(env, config, kwargs);
      configuration := ConfigurationOf(kwargs, DebugMode(config));
      this.userAgent := userAgent;
    }

    /** `info()`. */
    method GetInfo() returns (r: Result<string>)
      ensures r == Info(userAgent)
    {
      return Info(userAgent);
    }

    /** `set_profile(username, password)`: stores both credentials in the configuration,
        then returns what `get_profile()` (an SDK call, given as `login`) returns. */
    method SetProfile(username: string, password: string, login: Result<string>) returns (r: Result<string>)
      modifies this
      ensures configuration == old(configuration).(username := Some(username), password := Some(password))
      ensures r == login
    {
      configuration := configuration.(username := Some(username), password := Some(password));
      r := login;
    }
  }

  // ---------------------------------------------------------------------------
  // Job bookkeeping (O2SparcSolver)

  /** A job input: `str`, `int`, `float`, or a `pathlib.Path` (and whether it is a file). */
  datatype Input = Text(s: string) | Integer(i: int) | Float(x: real) | PathInput(path: string, isFile: bool)

  /** An input as handed to `create_job`: copied unchanged, or the uploaded file. */
  datatype JobInput = Value(input: Input) | UploadedFile(fileId: string)

  datatype Job = Job(id: string, inputs: map<string, JobInput>)

  function NotAFileMessage(key: string): string {
    "Input " + key + " is not a file."
  }

  /** A Python dict as its items in insertion order. */
  predicate DistinctKeys<V>(pairs: seq<(string, V)>) {
    forall i, j :: 0 <= i < j < |pairs| ==> pairs[i].0 != pairs[j].0
  }

  /** The keys of a dict given by its items. */
  function KeySet<V>(pairs: seq<(string, V)>): set<string> {
    set i | 0 <= i < |pairs| :: pairs[i].0
  }

  lemma KeySetCons<V>(pairs: seq<(string, V)>)
    requires pairs != []
    ensures KeySet(pairs) == {pairs[0].0} + KeySet(pairs[1..])
  {
    var rest := pairs[1..];
    forall x | x in KeySet(pairs) ensures x in {pairs[0].0} + KeySet(rest) {
      var i :| 0 <= i < |pairs| && pairs[i].0 == x;
      if i > 0 {
        assert rest[i - 1] == pairs[i];
      }
    }
    forall x | x in KeySet(rest) ensures x in KeySet(pairs) {
      var i :| 0 <= i < |rest| && rest[i].0 == x;
      assert rest[i] == pairs[i + 1];
    }
  }

  /** The items after the first of a dict are again distinct, and none repeats the first key. */
  lemma DistinctTail<V>(pairs: seq<(string, V)>)
    requires pairs != [] && DistinctKeys(pairs)
    ensures DistinctKeys(pairs[1..]) && pairs[0].0 !in KeySet(pairs[1..])
  {
    var rest := pairs[1..];
    forall i, j | 0 <= i < j < |rest| ensures rest[i].0 != rest[j].0 {
      assert rest[i] == pairs[i + 1] && rest[j] == pairs[j + 1];
    }
    forall j | 0 <= j < |rest| ensures rest[j].0 != pairs[0].0 {
      assert rest[j] == pairs[j + 1];
    }
  }

  predicate IsMissingFile(inp: Input) {
    inp.PathInput? && !inp.isFile
  }

  /** What one input becomes; `upload` is `files_api.upload_file`. */
  function MapInput(inp: Input, upload: string -> string): JobInput
    requires !IsMissingFile(inp)
  {
    if inp.PathInput? then UploadedFile(upload(inp.path)) else Value(inp)
  }

  /** The loop of lines 40-47, continuing from the inputs mapped so far. */
  function MapInputsFrom(pairs: seq<(string, Input)>, upload: string -> string, acc: map<string, JobInput>): Result<map<string, JobInput>>
    decreases |pairs|
  {
    if pairs == [] then Ok(acc)
    else if IsMissingFile(pairs[0].1) then Err(RuntimeError(NotAFileMessage(pairs[0].0)))
    else MapInputsFrom(pairs[1..], upload, acc[pairs[0].0 := MapInput(pairs[0].1, upload)])
  }

  /** Mapping succeeds exactly when no Path input is missing its file. */
  lemma {:induction false} MapInputsOkIff(pairs: seq<(string, Input)>, upload: string -> string, acc: map<string, JobInput>)
    ensures MapInputsFrom(pairs, upload, acc).Ok? <==> forall i :: 0 <= i < |pairs| ==> !IsMissingFile(pairs[i].1)
    decreases |pairs|
  {
    if pairs != [] && !IsMissingFile(pairs[0].1) {
      MapInputsOkIff(pairs[1..], upload, acc[pairs[0].0 := MapInput(pairs[0].1, upload)]);
      assert forall i :: 1 <= i < |pairs| ==> pairs[i] == pairs[1..][i - 1];
    }
  }

  /** On failure the error names the FIRST input whose path is not a file. */
  lemma {:induction false} MapInputsFirstError(pairs: seq<(string, Input)>, upload: string -> string, acc: map<string, JobInput>, k: nat)
    requires k < |pairs| && IsMissingFile(pairs[k].1)
    requires forall i :: 0 <= i < k ==> !IsMissingFile(pairs[i].1)
    ensures MapInputsFrom(pairs, upload, acc) == Err(RuntimeError(NotAFileMessage(pairs[k].0)))
    decreases k
  {
    if k > 0 {
      MapInputsFirstError(pairs[1..], upload, acc[pairs[0].0 := MapInput(pairs[0].1, upload)], k - 1);
    }
  }

  /** On success the key set is preserved, Path inputs are replaced by their upload and
      every other input is copied unchanged. */
  lemma {:induction false} MapInputsContents(pairs: seq<(string, Input)>, upload: string -> string, acc: map<string, JobInput>)
    requires DistinctKeys(pairs)
    requires forall i :: 0 <= i < |pairs| ==> pairs[i].0 !in acc
    requires MapInputsFrom(pairs, upload, acc).Ok?
    ensures var m := MapInputsFrom(pairs, upload, acc).value;
      && m.Keys == acc.Keys + KeySet(pairs)
      && (forall k :: k in acc ==> m[k] == acc[k])
      && forall i :: 0 <= i < |pairs| ==>
           !IsMissingFile(pairs[i].1) &&
           m[pairs[i].0] == (if pairs[i].1.PathInput? then UploadedFile(upload(pairs[i].1.path)) else Value(pairs[i].1))
    decreases |pairs|
  {
    if pairs != [] {
      var acc' := acc[pairs[0].0 := MapInput(pairs[0].1, upload)];
      var rest := pairs[1..];
      DistinctTail(pairs);
      KeySetCons(pairs);
      assert forall i :: 0 <= i < |rest| ==> rest[i].0 !in acc' by {
        forall i | 0 <= i < |rest| ensures rest[i].0 !in acc' {
          assert rest[i] == pairs[i + 1];
        }
      }
      MapInputsContents(rest, upload, acc');
      var m := MapInputsFrom(pairs, upload, acc).value;
      forall i | 0 <= i < |pairs|
        ensures m[pairs[i].0] == (if pairs[i].1.PathInput? then UploadedFile(upload(pairs[i].1.path)) else Value(pairs[i].1))
      {
        if i > 0 {
          assert rest[i - 1] == pairs[i];
        }
      }
    }
  }

  /** `osparc.Job` results: a dictionary value, which attributes `dir` reports for it,
      and its `id`; or any other value. */
  datatype Output = DictOutput(attributes: set<string>, id: string) | OtherOutput(description: string)

  /** The test of line 86. `dir` of a dictionary lists its attributes, not its keys. */
  predicate Downloadable(r: Output) {
    r.DictOutput? && "filename" in r.attributes && "id" in r.attributes
  }

  datatype ResultValue = Downloaded(path: string) | Returned(output: Output)

  /** The loop of lines 84-90; `download` is `files_api.download_file`. */
  function ResultsFrom(outputs: seq<(string, Output)>, download: string -> string, acc: map<string, ResultValue>): map<string, ResultValue>
    decreases |outputs|
  {
    if outputs == [] then acc
    else
      var r := outputs[0].1;
      var v := if Downloadable(r) then Downloaded(download(r.id)) else Returned(r);
      ResultsFrom(outputs[1..], download, acc[outputs[0].0 := v])
  }

  /** The results have exactly the keys of the outputs; downloadable entries become the
      downloaded path, the rest are returned unchanged. */
  lemma {:induction false} ResultsContents(outputs: seq<(string, Output)>, download: string -> string, acc: map<string, ResultValue>)
    requires DistinctKeys(outputs)
    ensures var m := ResultsFrom(outputs, download, acc);
      && m.Keys == acc.Keys + KeySet(outputs)
      && (forall k :: k in acc && k !in KeySet(outputs) ==> m[k] == acc[k])
      && forall i :: 0 <= i < |outputs| ==>
           m[outputs[i].0] == (if Downloadable(outputs[i].1) then Downloaded(download(outputs[i].1.id)) else Returned(outputs[i].1))
    decreases |outputs|
  {
    if outputs != [] {
      var rest := outputs[1..];
      DistinctTail(outputs);
      KeySetCons(outputs);
      var r := outputs[0].1;
      var v := if Downloadable(r) then Downloaded(download(r.id)) else Returned(r);
      ResultsContents(rest, download, acc[outputs[0].0 := v]);
      var m := ResultsFrom(outputs, download, acc);
      forall i | 0 <= i < |outputs|
        ensures m[outputs[i].0] == (if Downloadable(outputs[i].1) then Downloaded(download(outputs[i].1.id)) else Returned(outputs[i].1))
      {
        if i > 0 {
          assert rest[i - 1] == outputs[i];
        }
      }
    }
  }

  function NotDoneMessage(jobId: string): string {
    "The job with job_id=" + jobId + " is not done yet."
  }

  class O2SparcSolver {
    /** `_jobs`: the jobs created through this solver, in order. */
    var jobs: seq<Job>

    constructor ()
      ensures jobs == []
    {
      jobs := [];
    }

    /** `submit_job(job_inputs)`. `created` is what `create_job` returns (the new job's
        id) or raises, `started` what `start_job` raises, if anything. */
    method SubmitJob(jobInputs: seq<(string, Input)>, upload: string -> string,
                     created: Result<string>, started: Option<PyError>) returns (r: Result<string>)
      requires DistinctKeys(jobInputs)
      modifies this
      ensures var mapped := MapInputsFrom(jobInputs, upload, map[]);
        && (mapped.Err? ==> jobs == old(jobs) && r == Err(mapped.error))
        && (mapped.Ok? && created.Err? ==> jobs == old(jobs) && r == Err(created.error))
        && (mapped.Ok? && created.Ok? ==>
              && jobs == old(jobs) + [Job(created.value, mapped.value)]
              && r == (if started.Some? then Err(started.value) else Ok(created.value)))
    {
      var inputs: map<string, JobInput> := map[];
      var i := 0;
      while i < |jobInputs|
        invariant 0 <= i <= |jobInputs|
        invariant MapInputsFrom(jobInputs, upload, map[]) == MapInputsFrom(jobInputs[i..], upload, inputs)
      {
        assert jobInputs[i..][0] == jobInputs[i] && jobInputs[i..][1..] == jobInputs[i + 1..];
        var key := jobInputs[i].0;
        var inp := jobInputs[i].1;
        if inp.PathInput? {
          if !inp.isFile {
            return Err(RuntimeError(NotAFileMessage(key)));
          }
          inputs := inputs[key := UploadedFile(upload(inp.path))];
        } else {
          inputs := inputs[key := Value(inp)];
        }
        i := i + 1;
      }
      if created.Err? {
        return Err(created.error);
      }
      jobs := jobs + [Job(created.value, inputs)];
      if started.Some? {
        return Err(started.value);
      }
      return Ok(created.value);
    }

    /** `get_results(job_id)`: `done` is the truth of `job_done(job_id)`, `outputs` the
        items of `outputs.results` in order. */
    method GetResults(jobId: string, done: bool, outputs: seq<(string, Output)>, download: string -> string)
      returns (r: Result<map<string, ResultValue>>)
      requires DistinctKeys(outputs)
      ensures !done ==> r == Err(RuntimeError(NotDoneMessage(jobId)))
      ensures done ==> r == Ok(ResultsFrom(outputs, download, map[]))
      ensures done ==> r.value.Keys == KeySet(outputs)
    {
      if !done {
        return Err(RuntimeError(NotDoneMessage(jobId)));
      }
      var results: map<string, ResultValue> := map[];
      var i := 0;
      while i < |outputs|
        invariant 0 <= i <= |outputs|
        invariant ResultsFrom(outputs, download, map[]) == ResultsFrom(outputs[i..], download, results)
      {
        assert outputs[i..][0] == outputs[i] && outputs[i..][1..] == outputs[i + 1..];
        var key := outputs[i].0;
        var out := outputs[i].1;
        if Downloadable(out) {
          results := results[key := Downloaded(download(out.id))];
        } else {
          results := results[key := Returned(out)];
        }
        i := i + 1;
      }
      ResultsContents(outputs, download, map[]);
      return Ok(results);
    }
  }
}
