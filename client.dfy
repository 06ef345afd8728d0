/** `SparcClient` (src/sparc/client/client.py): reads the configuration, walks the
    service modules and their attributes, and for every concrete `ServiceBase` subclass
    appends the MODULE name to the class-level list `module_names`, builds an instance
    with `connect=False` and the profile's section, binds it under the module name
    (the last binding wins) and, when asked, connects it straight away.

    The walk is specified by the functions below, which follow the loops step by step
    (`StepClass`, `RunAttrs`, `RunModules`, `Construct`); the lemmas then state what the
    walk amounts to. `SparcClient.New` runs the loops on objects and is proved to end
    in exactly the state `Construct` computes. */
module Client {
  import opened PyRuntime
  import opened ConfigStore
  import opened ServiceBase
  import opened Reflection
  import opened SeqUtil
  import ServicesPackage

  const NoConfigMessage := "Configuration file not given"

  /** The default `config_file` of the constructor. */
  const DefaultConfigFile := "config/config.ini"

  /** The filter of client.py: a class, a subclass of `ServiceBase`, not abstract. */
  predicate Registrable(v: AttrValue) {
    v.Class? && v.cls.isServiceSubclass && !IsAbstract(v.cls)
  }

  /** A service instance: the module it is bound under, its class and the arguments
      it was built with. */
  datatype Instance = Instance(moduleName: string, cls: ClassDesc, config: Section, connectArg: bool)

  /** What happened to instances, in order: built (its index), or its `connect()` called. */
  datatype Event = Built(index: nat) | ConnectCalled(index: nat)

  /** The state the walk threads through: the shared `module_names` list, the name to
      instance bindings (`setattr`), the instances built, the event log, and the
      exception that stopped the walk, if any. */
  datatype Trace = Trace(
    names: seq<string>,
    bindings: map<string, nat>,
    instances: seq<Instance>,
    events: seq<Event>,
    err: Option<PyError>)

  /** The resolved profile name, `config[current_config]` (`None`: no such section), and
      the constructor's `connect` flag. */
  datatype Env = Env(profile: string, section: Option<Section>, connect: bool)

  predicate BindingsValid(bindings: map<string, nat>, instances: seq<Instance>) {
    forall m :: m in bindings ==> bindings[m] < |instances|
  }

  /** Lines 47-51 for one qualifying class, in their order: append the module name,
      evaluate `config[current_config]`, build, bind, then optionally connect. */
  function StepClass(moduleName: string, c: ClassDesc, env: Env, t: Trace): Trace {
    if t.err.Some? then t
    else
      var names := t.names + [moduleName];
      if env.section.None? then t.(names := names, err := Some(KeyError(env.profile)))
      else if c.constructorRaises then t.(names := names, err := Some(ServiceError(c.name, "__init__")))
      else
        var i := |t.instances|;
        var built := t.(
          names := names,
          bindings := t.bindings[moduleName := i],
          instances := t.instances + [Instance(moduleName, c, env.section.value, false)],
          events := t.events + [Built(i)]);
        if !env.connect then built
        else
          var called := built.(events := built.events + [ConnectCalled(i)]);
          if c.connectRaises then called.(err := Some(ServiceError(c.name, "connect"))) else called
  }

  function StepAttr(moduleName: string, a: Attr, env: Env, t: Trace): Trace {
    if Registrable(a.value) then StepClass(moduleName, a.value.cls, env, t) else t
  }

  /** The inner loop, over `dir(module)`. */
  function RunAttrs(moduleName: string, attrs: seq<Attr>, env: Env, t: Trace): Trace
    decreases |attrs|
  {
    if attrs == [] then t else RunAttrs(moduleName, attrs[1..], env, StepAttr(moduleName, attrs[0], env, t))
  }

  function StepModule(m: ModuleDesc, env: Env, t: Trace): Trace {
    if t.err.Some? then t
    else if m.importError.Some? then t.(err := Some(m.importError.value))
    else RunAttrs(m.name, m.attrs, env, t)
  }

  /** The outer loop, over `iter_modules`. */
  function RunModules(ms: seq<ModuleDesc>, env: Env, t: Trace): Trace
    decreases |ms|
  {
    if ms == [] then t else RunModules(ms[1..], env, StepModule(ms[0], env, t))
  }

  function Start(names0: seq<string>): Trace {
    Trace(names0, map[], [], [], None)
  }

  /** `not config_file`: no path, or the empty path. */
  predicate NoConfigFile(configFile: Option<string>) {
    configFile.None? || configFile.value == ""
  }

  /** The default path passes the emptiness test: without arguments the constructor goes
      on to the configuration, and with no such file it raises KeyError("global"). */
  lemma DefaultConfigFileGiven(ms: seq<ModuleDesc>, names0: seq<string>)
    ensures !NoConfigFile(Some(DefaultConfigFile))
    ensures Construct(Some(DefaultConfigFile), None, ms, true, names0) == Start(names0).(err := Some(KeyError("global")))
  {
    EmptyConfigHasNoGlobal();
  }

  /** The configuration after line 25-26: the file's contents when the path is a file
      (`Some`), the empty configuration otherwise. */
  function ConfigOf(file: Option<Config>): Config {
    if file.Some? then file.value else EmptyConfig
  }

  function EnvFor(cfg: Config, profile: string, connect: bool): Env {
    Env(profile, SectionView(cfg, profile), connect)
  }

  /** `SparcClient(config_file, connect)` started with `module_names == names0`. */
  function Construct(configFile: Option<string>, file: Option<Config>, ms: seq<ModuleDesc>,
                     connect: bool, names0: seq<string>): Trace
  {
    if NoConfigFile(configFile) then Start(names0).(err := Some(RuntimeError(NoConfigMessage)))
    else
      var cfg := ConfigOf(file);
      match Lookup(cfg, "global", "default_profile")
      case Err(e) => Start(names0).(err := Some(e))
      case Ok(profile) => RunModules(ms, EnvFor(cfg, profile, connect), Start(names0))
  }

  // ---------------------------------------------------------------------------
  // What the walk amounts to

  /** The qualifying classes of one module, paired with the module's name, in `dir` order. */
  function QualifyingIn(moduleName: string, attrs: seq<Attr>): (q: seq<(string, ClassDesc)>)
    ensures |q| <= |attrs|
    ensures forall i :: 0 <= i < |q| ==> q[i].0 == moduleName && Registrable(Class(q[i].1))
    ensures forall j :: 0 <= j < |attrs| && Registrable(attrs[j].value) ==>
      (moduleName, attrs[j].value.cls) in q
  {
    if attrs == [] then []
    else
      (if Registrable(attrs[0].value) then [(moduleName, attrs[0].value.cls)] else [])
      + QualifyingIn(moduleName, attrs[1..])
  }

  /** The qualifying classes of all modules, in visiting order. */
  function Qualifying(ms: seq<ModuleDesc>): (q: seq<(string, ClassDesc)>)
    ensures forall i :: 0 <= i < |q| ==>
      Registrable(Class(q[i].1)) && exists k :: 0 <= k < |ms| && q[i].0 == ms[k].name
    ensures forall k, j :: 0 <= k < |ms| && 0 <= j < |ms[k].attrs| && Registrable(ms[k].attrs[j].value) ==>
      (ms[k].name, ms[k].attrs[j].value.cls) in q
  {
    if ms == [] then []
    else
      var q0 := QualifyingIn(ms[0].name, ms[0].attrs);
      var rest := Qualifying(ms[1..]);
      assert forall i :: 0 <= i < |rest| ==> exists k :: 0 <= k < |ms| && rest[i].0 == ms[k].name by {
        forall i | 0 <= i < |rest| ensures exists k :: 0 <= k < |ms| && rest[i].0 == ms[k].name {
          var k' :| 0 <= k' < |ms[1..]| && rest[i].0 == ms[1..][k'].name;
          assert rest[i].0 == ms[k' + 1].name;
        }
      }
      q0 + rest
  }

  /** `QualifyingIn` keeps the registrable attributes and drops the rest, each in place:
      with the singleton case below, it distributes over concatenation, so every
      registrable attribute appears exactly once, in `dir` order. */
  lemma {:induction false} QualifyingInAppend(moduleName: string, a1: seq<Attr>, a2: seq<Attr>)
    ensures QualifyingIn(moduleName, a1 + a2) == QualifyingIn(moduleName, a1) + QualifyingIn(moduleName, a2)
    decreases |a1|
  {
    if a1 == [] {
      assert a1 + a2 == a2;
    } else {
      assert (a1 + a2)[0] == a1[0];
      assert (a1 + a2)[1..] == a1[1..] + a2;
      QualifyingInAppend(moduleName, a1[1..], a2);
    }
  }

  lemma QualifyingInSingle(moduleName: string, a: Attr)
    ensures Registrable(a.value) ==> QualifyingIn(moduleName, [a]) == [(moduleName, a.value.cls)]
    ensures !Registrable(a.value) ==> QualifyingIn(moduleName, [a]) == []
  {
    assert [a][1..] == [];
  }

  /** `Qualifying` is the concatenation of the modules' own qualifying classes, in order. */
  lemma {:induction false} QualifyingAppend(m1: seq<ModuleDesc>, m2: seq<ModuleDesc>)
    ensures Qualifying(m1 + m2) == Qualifying(m1) + Qualifying(m2)
    decreases |m1|
  {
    if m1 == [] {
      assert m1 + m2 == m2;
    } else {
      assert (m1 + m2)[0] == m1[0];
      assert (m1 + m2)[1..] == m1[1..] + m2;
      QualifyingAppend(m1[1..], m2);
    }
  }

  lemma QualifyingSingle(m: ModuleDesc)
    ensures Qualifying([m]) == QualifyingIn(m.name, m.attrs)
  {
    assert [m][1..] == [];
  }

  /** The registration steps for a sequence of qualifying classes. */
  function Register(q: seq<(string, ClassDesc)>, env: Env, t: Trace): Trace
    decreases |q|
  {
    if q == [] then t else Register(q[1..], env, StepClass(q[0].0, q[0].1, env, t))
  }

  lemma {:induction false} RegisterAbsorbs(q: seq<(string, ClassDesc)>, env: Env, t: Trace)
    requires t.err.Some?
    ensures Register(q, env, t) == t
    decreases |q|
  {
    if q != [] {
      RegisterAbsorbs(q[1..], env, t);
    }
  }

  lemma {:induction false} RunAttrsAbsorbs(moduleName: string, attrs: seq<Attr>, env: Env, t: Trace)
    requires t.err.Some?
    ensures RunAttrs(moduleName, attrs, env, t) == t
    decreases |attrs|
  {
    if attrs != [] {
      RunAttrsAbsorbs(moduleName, attrs[1..], env, t);
    }
  }

  /** Once an exception is raised, no later module is touched. */
  lemma {:induction false} RunModulesAbsorbs(ms: seq<ModuleDesc>, env: Env, t: Trace)
    requires t.err.Some?
    ensures RunModules(ms, env, t) == t
    decreases |ms|
  {
    if ms != [] {
      RunModulesAbsorbs(ms[1..], env, t);
    }
  }

  /** An exception in the inner loop ends the whole walk where it was raised. */
  lemma StopWalk(moduleName: string, attrs: seq<Attr>, ms: seq<ModuleDesc>, env: Env, t: Trace)
    requires t.err.Some?
    ensures RunModules(ms, env, RunAttrs(moduleName, attrs, env, t)) == t
  {
    RunAttrsAbsorbs(moduleName, attrs, env, t);
    RunModulesAbsorbs(ms, env, t);
  }

  lemma {:induction false} RegisterAppend(q1: seq<(string, ClassDesc)>, q2: seq<(string, ClassDesc)>, env: Env, t: Trace)
    ensures Register(q1 + q2, env, t) == Register(q2, env, Register(q1, env, t))
    decreases |q1|
  {
    if q1 == [] {
      assert q1 + q2 == q2;
    } else {
      assert (q1 + q2)[1..] == q1[1..] + q2;
      RegisterAppend(q1[1..], q2, env, StepClass(q1[0].0, q1[0].1, env, t));
    }
  }

  /** The inner loop registers exactly the module's qualifying classes, in order. */
  lemma {:induction false} RunAttrsRegisters(moduleName: string, attrs: seq<Attr>, env: Env, t: Trace)
    ensures RunAttrs(moduleName, attrs, env, t) == Register(QualifyingIn(moduleName, attrs), env, t)
    decreases |attrs|
  {
    if attrs != [] {
      var t1 := StepAttr(moduleName, attrs[0], env, t);
      RunAttrsRegisters(moduleName, attrs[1..], env, t1);
      var rest := QualifyingIn(moduleName, attrs[1..]);
      var q := QualifyingIn(moduleName, attrs);
      if Registrable(attrs[0].value) {
        assert q == [(moduleName, attrs[0].value.cls)] + rest;
        assert q[1..] == rest;
      } else {
        assert q == rest;
      }
    }
  }

  /** Without import failures, the whole walk registers the qualifying classes of all
      modules, in order. */
  lemma {:induction false} RunModulesRegisters(ms: seq<ModuleDesc>, env: Env, t: Trace)
    requires NoImportFails(ms)
    ensures RunModules(ms, env, t) == Register(Qualifying(ms), env, t)
    decreases |ms|
  {
    if ms != [] {
      var q0 := QualifyingIn(ms[0].name, ms[0].attrs);
      var t1 := StepModule(ms[0], env, t);
      assert ms[0].importError.None?;
      if t.err.Some? {
        RegisterAbsorbs(q0, env, t);
      } else {
        RunAttrsRegisters(ms[0].name, ms[0].attrs, env, t);
      }
      assert t1 == Register(q0, env, t);
      assert NoImportFails(ms[1..]) by {
        forall k | 0 <= k < |ms[1..]| ensures ms[1..][k].importError.None? {
          assert ms[1..][k] == ms[k + 1];
        }
      }
      RunModulesRegisters(ms[1..], env, t1);
      RegisterAppend(q0, Qualifying(ms[1..]), env, t);
    }
  }

  lemma {:induction false} RunModulesAppend(ms1: seq<ModuleDesc>, ms2: seq<ModuleDesc>, env: Env, t: Trace)
    ensures RunModules(ms1 + ms2, env, t) == RunModules(ms2, env, RunModules(ms1, env, t))
    decreases |ms1|
  {
    if ms1 == [] {
      assert ms1 + ms2 == ms2;
    } else {
      assert (ms1 + ms2)[1..] == ms1[1..] + ms2;
      RunModulesAppend(ms1[1..], ms2, env, StepModule(ms1[0], env, t));
    }
  }

  /** No qualifying class raises, and a profile section exists if any class qualifies. */
  predicate CleanFor(q: seq<(string, ClassDesc)>, env: Env) {
    && (q != [] ==> env.section.Some?)
    && forall i :: 0 <= i < |q| ==> !q[i].1.constructorRaises && (env.connect ==> !q[i].1.connectRaises)
  }

  /** The instances built for `q`, each with `connect=False` and the section. */
  function InstancesFor(q: seq<(string, ClassDesc)>, section: Section): (r: seq<Instance>)
    ensures |r| == |q|
    ensures forall i :: 0 <= i < |q| ==> r[i] == Instance(q[i].0, q[i].1, section, false)
  {
    if q == [] then [] else [Instance(q[0].0, q[0].1, section, false)] + InstancesFor(q[1..], section)
  }

  /** The events of `n` registrations numbered from `start`: each build, followed at once
      by its `connect()` call when `connect` is set. */
  function Schedule(start: nat, n: nat, connect: bool): seq<Event>
    decreases n
  {
    if n == 0 then []
    else [Built(start)] + (if connect then [ConnectCalled(start)] else []) + Schedule(start + 1, n - 1, connect)
  }

  lemma {:induction false} ScheduleAt(start: nat, n: nat, connect: bool)
    ensures var s := Schedule(start, n, connect);
      && (connect ==>
            && |s| == 2 * n
            && forall i :: 0 <= i < |s| ==>
                 s[i] == if i % 2 == 0 then Built(start + i / 2) else ConnectCalled(start + i / 2))
      && (!connect ==> |s| == n && forall i :: 0 <= i < |s| ==> s[i] == Built(start + i))
    decreases n
  {
    if n > 0 {
      ScheduleAt(start + 1, n - 1, connect);
      var s := Schedule(start, n, connect);
      var s' := Schedule(start + 1, n - 1, connect);
      if connect {
        assert s == [Built(start), ConnectCalled(start)] + s';
        forall i | 2 <= i < |s|
          ensures s[i] == if i % 2 == 0 then Built(start + i / 2) else ConnectCalled(start + i / 2)
        {
          assert s[i] == s'[i - 2];
          assert (i - 2) % 2 == i % 2 && (i - 2) / 2 == i / 2 - 1;
        }
      } else {
        assert s == [Built(start)] + s';
        forall i | 1 <= i < |s| ensures s[i] == Built(start + i) {
          assert s[i] == s'[i - 1];
        }
      }
    }
  }

  /** One clean registration step: append the name, bind it to the next index, build,
      and log the build (and the connect call). */
  lemma StepClassClean(moduleName: string, c: ClassDesc, env: Env, t: Trace)
    requires t.err.None? && env.section.Some? && !c.constructorRaises && (env.connect ==> !c.connectRaises)
    ensures StepClass(moduleName, c, env, t) == Trace(
      t.names + [moduleName],
      t.bindings[moduleName := |t.instances|],
      t.instances + [Instance(moduleName, c, env.section.value, false)],
      t.events + Schedule(|t.instances|, 1, env.connect),
      None)
  {
    assert Schedule(|t.instances|, 1, env.connect) ==
      [Built(|t.instances|)] + (if env.connect then [ConnectCalled(|t.instances|)] else []);
  }

  lemma ScheduleSplit(start: nat, n: nat, connect: bool)
    requires n > 0
    ensures Schedule(start, n, connect) == Schedule(start, 1, connect) + Schedule(start + 1, n - 1, connect)
  {
    assert Schedule(start + 1, 0, connect) == [];
  }

  lemma CleanForTail(q: seq<(string, ClassDesc)>, env: Env)
    requires q != [] && CleanFor(q, env)
    ensures CleanFor(q[1..], env)
    ensures env.section.Some? && !q[0].1.constructorRaises && (env.connect ==> !q[0].1.connectRaises)
  {
    forall j | 0 <= j < |q[1..]|
      ensures !q[1..][j].1.constructorRaises && (env.connect ==> !q[1..][j].1.connectRaises)
    {
      assert q[1..][j] == q[j + 1];
    }
  }

  /** The trace a clean registration of `q` ends in, started from `t`. */
  function CleanResult(q: seq<(string, ClassDesc)>, env: Env, t: Trace): Trace {
    Trace(
      t.names + Keys(q),
      AssignIndexed(t.bindings, Keys(q), |t.instances|),
      t.instances + InstancesFor(q, env.section.GetOr(map[])),
      t.events + Schedule(|t.instances|, |q|, env.connect),
      None)
  }

  lemma CleanResultEmpty(env: Env, t: Trace)
    requires t.err.None?
    ensures CleanResult([], env, t) == t
  {
    assert t.names + Keys<string, ClassDesc>([]) == t.names;
    assert t.instances + InstancesFor([], env.section.GetOr(map[])) == t.instances;
    assert t.events + Schedule(|t.instances|, 0, env.connect) == t.events;
  }

  lemma KeysCons(q: seq<(string, ClassDesc)>, names: seq<string>)
    requires q != []
    ensures names + Keys(q) == (names + [q[0].0]) + Keys(q[1..])
  {
    assert Keys(q) == [q[0].0] + Keys(q[1..]);
  }

  lemma InstancesCons(q: seq<(string, ClassDesc)>, section: Section, inst: seq<Instance>)
    requires q != []
    ensures inst + InstancesFor(q, section)
         == (inst + [Instance(q[0].0, q[0].1, section, false)]) + InstancesFor(q[1..], section)
  {
    assert InstancesFor(q, section) == [Instance(q[0].0, q[0].1, section, false)] + InstancesFor(q[1..], section);
  }

  lemma ScheduleCons(i: nat, n: nat, connect: bool, events: seq<Event>)
    requires n > 0
    ensures events + Schedule(i, n, connect) == (events + Schedule(i, 1, connect)) + Schedule(i + 1, n - 1, connect)
  {
    ScheduleSplit(i, n, connect);
  }

  lemma CleanResultStep(q: seq<(string, ClassDesc)>, env: Env, t: Trace)
    requires q != [] && t.err.None? && CleanFor(q, env)
    ensures CleanResult(q, env, t) == CleanResult(q[1..], env, StepClass(q[0].0, q[0].1, env, t))
  {
    CleanForTail(q, env);
    StepClassClean(q[0].0, q[0].1, env, t);
    KeysCons(q, t.names);
    assert Keys(q)[0] == q[0].0 && Keys(q)[1..] == Keys(q[1..]);
    InstancesCons(q, env.section.GetOr(map[]), t.instances);
    ScheduleCons(|t.instances|, |q|, env.connect, t.events);
  }

  /** The closed form of a registration run in which nothing raises. */
  lemma {:induction false} RegisterClean(q: seq<(string, ClassDesc)>, env: Env, t: Trace)
    requires t.err.None? && CleanFor(q, env)
    ensures Register(q, env, t) == CleanResult(q, env, t)
    decreases |q|
  {
    if q == [] {
      CleanResultEmpty(env, t);
    } else {
      CleanForTail(q, env);
      CleanResultStep(q, env, t);
      RegisterClean(q[1..], env, StepClass(q[0].0, q[0].1, env, t));
    }
  }

  /** A run with a starting error-free trace ends without an exception exactly when it
      is clean. */
  lemma {:induction false} RegisterFailsIffUnclean(q: seq<(string, ClassDesc)>, env: Env, t: Trace)
    requires t.err.None?
    ensures Register(q, env, t).err.None? <==> CleanFor(q, env)
    decreases |q|
  {
    if q != [] {
      var t1 := StepClass(q[0].0, q[0].1, env, t);
      if t1.err.Some? {
        RegisterAbsorbs(q[1..], env, t1);
        assert !CleanFor(q, env) by {
          if env.section.Some? {
            assert q[0].1.constructorRaises || (env.connect && q[0].1.connectRaises);
          }
        }
      } else {
        RegisterFailsIffUnclean(q[1..], env, t1);
        assert CleanFor(q, env) <==> CleanFor(q[1..], env) by {
          assert forall j :: 0 <= j < |q[1..]| ==> q[1..][j] == q[j + 1];
          assert forall j :: 1 <= j < |q| ==> q[j] == q[1..][j - 1];
        }
      }
    }
  }

  /** Every configuration precondition for a run in which nothing raises. */
  predicate CleanRun(configFile: Option<string>, file: Option<Config>, ms: seq<ModuleDesc>, connect: bool) {
    && !NoConfigFile(configFile)
    && Lookup(ConfigOf(file), "global", "default_profile").Ok?
    && NoImportFails(ms)
    && CleanFor(Qualifying(ms), EnvFor(ConfigOf(file), Lookup(ConfigOf(file), "global", "default_profile").value, connect))
  }

  /** The profile section of a run (empty when no class needs it). */
  function ProfileSection(file: Option<Config>): Section
    requires Lookup(ConfigOf(file), "global", "default_profile").Ok?
  {
    SectionView(ConfigOf(file), Lookup(ConfigOf(file), "global", "default_profile").value).GetOr(map[])
  }

  /** A clean construction: the qualifying classes' module names are appended to
      `module_names` in order, one instance is built per qualifying class with
      `connect=False` and the profile section, the bindings are the last-write-wins
      assignment of module names to instances, and the event log is the build/connect
      schedule. */
  lemma ConstructClean(configFile: Option<string>, file: Option<Config>, ms: seq<ModuleDesc>,
                       connect: bool, names0: seq<string>)
    requires CleanRun(configFile, file, ms, connect)
    ensures var q := Qualifying(ms);
      Construct(configFile, file, ms, connect, names0) == Trace(
        names0 + Keys(q),
        AssignIndexed(map[], Keys(q), 0),
        InstancesFor(q, ProfileSection(file)),
        Schedule(0, |q|, connect),
        None)
  {
    var cfg := ConfigOf(file);
    var profile := Lookup(cfg, "global", "default_profile").value;
    var env := EnvFor(cfg, profile, connect);
    RunModulesRegisters(ms, env, Start(names0));
    RegisterClean(Qualifying(ms), env, Start(names0));
    assert [] + InstancesFor(Qualifying(ms), ProfileSection(file)) == InstancesFor(Qualifying(ms), ProfileSection(file));
    assert [] + Schedule(0, |Qualifying(ms)|, connect) == Schedule(0, |Qualifying(ms)|, connect);
  }

  /** Count and order: exactly one `module_names` entry and one instance per qualifying
      class, in visiting order; every instance built with `connect=False` and the same
      profile section. */
  lemma RegistrationCountAndOrder(configFile: Option<string>, file: Option<Config>, ms: seq<ModuleDesc>,
                                  connect: bool, names0: seq<string>)
    requires CleanRun(configFile, file, ms, connect)
    ensures var t := Construct(configFile, file, ms, connect, names0); var q := Qualifying(ms);
      && t.err.None?
      && |t.names| == |names0| + |q| && t.names[..|names0|] == names0
      && |t.instances| == |q|
      && (forall i :: 0 <= i < |q| ==> t.names[|names0| + i] == q[i].0)
      && (forall i :: 0 <= i < |q| ==>
            t.instances[i] == Instance(q[i].0, q[i].1, ProfileSection(file), false))
  {
    ConstructClean(configFile, file, ms, connect, names0);
    var t := Construct(configFile, file, ms, connect, names0);
    assert t.names[..|names0|] == names0;
  }

  /** Last write wins: a module name is bound iff some qualifying class came from that
      module, and then to the instance of the LAST such class. */
  lemma LastRegistrationWins(configFile: Option<string>, file: Option<Config>, ms: seq<ModuleDesc>,
                             connect: bool, names0: seq<string>)
    requires CleanRun(configFile, file, ms, connect)
    ensures var t := Construct(configFile, file, ms, connect, names0); var ks := Keys(Qualifying(ms));
      && (forall m :: m in t.bindings <==> m in ks)
      && (forall m :: m in ks ==> t.bindings[m] == LastIndex(ks, m))
      && (forall m :: m in t.bindings ==>
            t.bindings[m] < |t.instances| && t.instances[t.bindings[m]].moduleName == m
            && forall j :: t.bindings[m] < j < |t.instances| ==> t.instances[j].moduleName != m)
  {
    ConstructClean(configFile, file, ms, connect, names0);
    var q := Qualifying(ms);
    var ks := Keys(q);
    var inst := InstancesFor(q, ProfileSection(file));
    var t := Construct(configFile, file, ms, connect, names0);
    assert t.bindings == AssignIndexed(map[], ks, 0) && t.instances == inst;
    AssignIndexedLastWins(map[], ks, 0);
    assert |inst| == |ks| && forall i :: 0 <= i < |inst| ==> inst[i].moduleName == ks[i];
  }

  /** With `connect=True` each instance's `connect()` is called once, right after it is
      built and before the next class is processed; with `connect=False` never. */
  lemma EagerConnectSchedule(configFile: Option<string>, file: Option<Config>, ms: seq<ModuleDesc>,
                             connect: bool, names0: seq<string>)
    requires CleanRun(configFile, file, ms, connect)
    ensures var t := Construct(configFile, file, ms, connect, names0); var e := t.events;
      && (connect ==>
            && |e| == 2 * |t.instances|
            && forall i :: 0 <= i < |e| ==>
                 e[i] == if i % 2 == 0 then Built(i / 2) else ConnectCalled(i / 2))
      && (!connect ==> |e| == |t.instances| && forall i :: 0 <= i < |e| ==> e[i] == Built(i))
  {
    ConstructClean(configFile, file, ms, connect, names0);
    var n := |Qualifying(ms)|;
    var t := Construct(configFile, file, ms, connect, names0);
    assert t.events == Schedule(0, n, connect) && |t.instances| == n;
    ScheduleAt(0, n, connect);
  }

  /** A falsy `config_file` raises `RuntimeError` before any configuration is read or
      any module is touched. */
  lemma NoConfigFileRaises(configFile: Option<string>, file: Option<Config>, ms: seq<ModuleDesc>,
                           connect: bool, names0: seq<string>)
    requires NoConfigFile(configFile)
    ensures Construct(configFile, file, ms, connect, names0) ==
      Start(names0).(err := Some(RuntimeError(NoConfigMessage)))
  {
  }

  /** A missing `global` section or `default_profile` key raises `KeyError`, with
      `module_names` untouched; a path that is not a file always does so. */
  lemma MissingGlobalProfileRaises(configFile: Option<string>, file: Option<Config>, ms: seq<ModuleDesc>,
                                   connect: bool, names0: seq<string>)
    requires !NoConfigFile(configFile)
    requires Lookup(ConfigOf(file), "global", "default_profile").Err?
    ensures var t := Construct(configFile, file, ms, connect, names0);
      && t == Start(names0).(err := Some(Lookup(ConfigOf(file), "global", "default_profile").error))
      && (file.None? ==> t.err == Some(KeyError("global")))
  {
  }

  /** When the profile names no section, `config[current_config]` raises `KeyError`
      at the FIRST qualifying class, after its module name was appended; with no
      qualifying class at all, construction succeeds. */
  lemma MissingProfileSection(configFile: Option<string>, file: Option<Config>, ms: seq<ModuleDesc>,
                              connect: bool, names0: seq<string>)
    requires !NoConfigFile(configFile)
    requires Lookup(ConfigOf(file), "global", "default_profile").Ok?
    requires SectionView(ConfigOf(file), Lookup(ConfigOf(file), "global", "default_profile").value).None?
    requires NoImportFails(ms)
    ensures var t := Construct(configFile, file, ms, connect, names0); var q := Qualifying(ms);
      && (q == [] ==> t == Start(names0))
      && (q != [] ==> t == Start(names0).(
            names := names0 + [q[0].0],
            err := Some(KeyError(Lookup(ConfigOf(file), "global", "default_profile").value))))
  {
    var cfg := ConfigOf(file);
    var profile := Lookup(cfg, "global", "default_profile").value;
    var env := EnvFor(cfg, profile, connect);
    var q := Qualifying(ms);
    RunModulesRegisters(ms, env, Start(names0));
    if q != [] {
      var t1 := StepClass(q[0].0, q[0].1, env, Start(names0));
      RegisterAbsorbs(q[1..], env, t1);
    }
  }

  /** With a readable profile and no import failure, construction succeeds exactly when
      no qualifying class raises in its constructor (or in `connect()`, when connecting)
      and a profile section exists for the classes that need one. */
  lemma ConstructSucceedsIffClean(configFile: Option<string>, file: Option<Config>, ms: seq<ModuleDesc>,
                                  connect: bool, names0: seq<string>)
    requires !NoConfigFile(configFile)
    requires Lookup(ConfigOf(file), "global", "default_profile").Ok?
    requires NoImportFails(ms)
    ensures Construct(configFile, file, ms, connect, names0).err.None? <==> CleanRun(configFile, file, ms, connect)
  {
    var cfg := ConfigOf(file);
    var env := EnvFor(cfg, Lookup(cfg, "global", "default_profile").value, connect);
    RunModulesRegisters(ms, env, Start(names0));
    RegisterFailsIffUnclean(Qualifying(ms), env, Start(names0));
  }

  /** A module that fails to import stops the walk with that module's import error, keeping
      everything registered from the modules before it; later modules are not touched. */
  lemma ImportFailureStopsWalk(configFile: Option<string>, file: Option<Config>, ms: seq<ModuleDesc>,
                               connect: bool, names0: seq<string>, k: nat)
    requires !NoConfigFile(configFile)
    requires Lookup(ConfigOf(file), "global", "default_profile").Ok?
    requires k < |ms| && ms[k].importError.Some? && NoImportFails(ms[..k])
    ensures var cfg := ConfigOf(file);
      var env := EnvFor(cfg, Lookup(cfg, "global", "default_profile").value, connect);
      var before := Register(Qualifying(ms[..k]), env, Start(names0));
      Construct(configFile, file, ms, connect, names0) ==
        if before.err.None? then before.(err := Some(ms[k].importError.value)) else before
  {
    var cfg := ConfigOf(file);
    var env := EnvFor(cfg, Lookup(cfg, "global", "default_profile").value, connect);
    assert ms == ms[..k] + ms[k..];
    RunModulesAppend(ms[..k], ms[k..], env, Start(names0));
    RunModulesRegisters(ms[..k], env, Start(names0));
    var before := RunModules(ms[..k], env, Start(names0));
    var after := StepModule(ms[k], env, before);
    assert ms[k..][0] == ms[k];
    assert after.err.Some?;
    RunModulesAbsorbs(ms[k + 1..], env, after);
    assert ms[k..][1..] == ms[k + 1..];
  }


  /** client.py imports the services package (`from .services import *`) before the
      class exists, and the package walks the same modules at import time. When that
      walk succeeded, the client's walk meets no import failure and registers exactly
      the qualifying classes. */
  lemma PackageImportedFirst(configFile: Option<string>, file: Option<Config>, ms: seq<ModuleDesc>,
                             connect: bool, names0: seq<string>, g: ServicesPackage.Namespace)
    requires !NoConfigFile(configFile)
    requires Lookup(ConfigOf(file), "global", "default_profile").Ok?
    requires ServicesPackage.ExportModules(ms, g).1.None?
    ensures var cfg := ConfigOf(file);
      var env := EnvFor(cfg, Lookup(cfg, "global", "default_profile").value, connect);
      Construct(configFile, file, ms, connect, names0) == Register(Qualifying(ms), env, Start(names0))
  {
    var cfg := ConfigOf(file);
    var env := EnvFor(cfg, Lookup(cfg, "global", "default_profile").value, connect);
    ServicesPackage.ExportSucceedsIffImports(ms, g);
    RunModulesRegisters(ms, env, Start(names0));
  }
  /** Invariant of every run, failing or not: each instance comes from a registrable
      class (so it overrides all six members), was built with `connect=False` and the
      profile section, and every binding points at an instance of its own module. */
  predicate WellBuilt(t: Trace, env: Env) {
    && BindingsValid(t.bindings, t.instances)
    && (forall m :: m in t.bindings ==> t.instances[t.bindings[m]].moduleName == m)
    && forall i :: 0 <= i < |t.instances| ==>
         && Registrable(Class(t.instances[i].cls))
         && !t.instances[i].connectArg
         && Some(t.instances[i].config) == env.section
  }

  lemma StepClassWellBuilt(moduleName: string, c: ClassDesc, env: Env, t: Trace)
    requires WellBuilt(t, env) && Registrable(Class(c))
    ensures WellBuilt(StepClass(moduleName, c, env, t), env)
  {
    if t.err.None? && env.section.Some? && !c.constructorRaises {
      var i := |t.instances|;
      var inst := t.instances + [Instance(moduleName, c, env.section.value, false)];
      var b := t.bindings[moduleName := i];
      assert forall j :: 0 <= j < i ==> inst[j] == t.instances[j];
      assert BindingsValid(b, inst);
    }
  }

  lemma {:induction false} RunAttrsWellBuilt(moduleName: string, attrs: seq<Attr>, env: Env, t: Trace)
    requires WellBuilt(t, env)
    ensures WellBuilt(RunAttrs(moduleName, attrs, env, t), env)
    decreases |attrs|
  {
    if attrs != [] {
      if Registrable(attrs[0].value) {
        StepClassWellBuilt(moduleName, attrs[0].value.cls, env, t);
      }
      RunAttrsWellBuilt(moduleName, attrs[1..], env, StepAttr(moduleName, attrs[0], env, t));
    }
  }

  lemma {:induction false} RunModulesWellBuilt(ms: seq<ModuleDesc>, env: Env, t: Trace)
    requires WellBuilt(t, env)
    ensures WellBuilt(RunModules(ms, env, t), env)
    decreases |ms|
  {
    if ms != [] {
      var t1 := StepModule(ms[0], env, t);
      if t.err.None? && ms[0].importError.None? {
        RunAttrsWellBuilt(ms[0].name, ms[0].attrs, env, t);
      }
      RunModulesWellBuilt(ms[1..], env, t1);
    }
  }

  /** The client never holds an abstract service: every built instance's class runs its
      own code for all six members of the contract. */
  lemma InstancesAreConcrete(configFile: Option<string>, file: Option<Config>, ms: seq<ModuleDesc>,
                             connect: bool, names0: seq<string>)
    ensures var t := Construct(configFile, file, ms, connect, names0);
      && BindingsValid(t.bindings, t.instances)
      && forall i, m :: 0 <= i < |t.instances| ==>
           t.instances[i].cls.isServiceSubclass && Dispatch(t.instances[i].cls, m) == Override
  {
    if !NoConfigFile(configFile) && Lookup(ConfigOf(file), "global", "default_profile").Ok? {
      var cfg := ConfigOf(file);
      var env := EnvFor(cfg, Lookup(cfg, "global", "default_profile").value, connect);
      RunModulesWellBuilt(ms, env, Start(names0));
      var t := Construct(configFile, file, ms, connect, names0);
      forall i, m | 0 <= i < |t.instances| ensures Dispatch(t.instances[i].cls, m) == Override {
        ConcreteNeverRunsBase(t.instances[i].cls, m);
      }
    }
  }

  /** `module_names` is a class attribute: a second client built over the same modules
      appends the same names again, so the list holds every name twice. */
  lemma AccumulatesAcrossClients(configFile: Option<string>, file: Option<Config>, ms: seq<ModuleDesc>, connect: bool)
    requires CleanRun(configFile, file, ms, connect)
    ensures var first := Construct(configFile, file, ms, connect, []);
      var second := Construct(configFile, file, ms, connect, first.names);
      && second.names == first.names + first.names
      && |second.names| == 2 * |second.instances|
  {
    ConstructClean(configFile, file, ms, connect, []);
    var first := Construct(configFile, file, ms, connect, []);
    ConstructClean(configFile, file, ms, connect, first.names);
    assert [] + Keys(Qualifying(ms)) == Keys(Qualifying(ms));
  }

  // ---------------------------------------------------------------------------
  // SparcClient.connect()

  /** `connect()`: for each entry of `module_names`, in order, look the name up (a name
      this client never bound raises `AttributeError`) and call that instance's
      `connect()`; `acc` is the event log so far. */
  function Replay(names: seq<string>, b: map<string, nat>, inst: seq<Instance>, acc: seq<Event>): (seq<Event>, Option<PyError>)
    requires BindingsValid(b, inst)
    decreases |names|
  {
    if names == [] then (acc, None)
    else if names[0] !in b then (acc, Some(AttributeError(names[0])))
    else
      var k := b[names[0]];
      var acc' := acc + [ConnectCalled(k)];
      if inst[k].cls.connectRaises then (acc', Some(ServiceError(inst[k].cls.name, "connect")))
      else Replay(names[1..], b, inst, acc')
  }

  /** When every name is bound and no bound instance raises, `connect()` calls the bound
      instance of each entry once, in list order, without rediscovery. */
  lemma {:induction false} ReplayConnectsEachName(names: seq<string>, b: map<string, nat>, inst: seq<Instance>, acc: seq<Event>)
    requires BindingsValid(b, inst)
    requires forall i :: 0 <= i < |names| ==> names[i] in b && !inst[b[names[i]]].cls.connectRaises
    ensures var r := Replay(names, b, inst, acc);
      && r.1.None?
      && |r.0| == |acc| + |names| && r.0[..|acc|] == acc
      && forall i :: 0 <= i < |names| ==> r.0[|acc| + i] == ConnectCalled(b[names[i]])
    decreases |names|
  {
    if names != [] {
      var acc' := acc + [ConnectCalled(b[names[0]])];
      ReplayConnectsEachName(names[1..], b, inst, acc');
      var r := Replay(names, b, inst, acc);
      assert r == Replay(names[1..], b, inst, acc');
      assert r.0[..|acc|] == r.0[..|acc'|][..|acc|];
      forall i | 0 <= i < |names| ensures r.0[|acc| + i] == ConnectCalled(b[names[i]]) {
        if i == 0 {
          assert r.0[|acc|] == r.0[..|acc'|][|acc|];
        } else {
          assert r.0[|acc| + i] == r.0[|acc'| + (i - 1)];
          assert names[1..][i - 1] == names[i];
        }
      }
    }
  }

  /** A name listed twice connects the same instance twice. */
  lemma DuplicateNameConnectsTwice(names: seq<string>, b: map<string, nat>, inst: seq<Instance>, i: nat, j: nat)
    requires BindingsValid(b, inst)
    requires forall k :: 0 <= k < |names| ==> names[k] in b && !inst[b[names[k]]].cls.connectRaises
    requires i < j < |names| && names[i] == names[j]
    ensures var e := Replay(names, b, inst, []).0;
      i < |e| && j < |e| && e[i] == e[j] == ConnectCalled(b[names[i]])
  {
    ReplayConnectsEachName(names, b, inst, []);
  }

  /** The object behind the class attribute `SparcClient.module_names`, shared by every
      client. */
  class ModuleNames {
    var names: seq<string>

    constructor ()
      ensures names == []
    {
      names := [];
    }
  }

  class SparcClient {
    /** The class-level list; every client holds the same object. */
    const moduleNames: ModuleNames
    /** `setattr(self, module_name, c)`: module name to index into `instances`. */
    var bindings: map<string, nat>
    var instances: seq<Instance>
    /** Builds and `connect()` calls, in order: a record for the proofs only. */
    ghost var events: seq<Event>

    ghost predicate Valid()
      reads this
    {
      BindingsValid(bindings, instances)
    }

    ghost function Snapshot(): Trace
      reads this, moduleNames
    {
      Trace(moduleNames.names, bindings, instances, events, None)
    }

    constructor Blank(shared: ModuleNames)
      ensures moduleNames == shared
      ensures bindings == map[] && instances == [] && events == []
    {
      moduleNames := shared;
      bindings := map[];
      instances := [];
      events := [];
    }

    /** `SparcClient(config_file="config/config.ini", connect=True)`. `file` is the parsed
        file when the path is a file, `modules` what `iter_modules`/`import_module`/`dir` would yield. The
        shared list changes even when construction raises. */
    static method New(shared: ModuleNames, file: Option<Config>, modules: seq<ModuleDesc>,
                      configFile: Option<string> := Some(DefaultConfigFile), connect: bool := true)
      returns (r: Result<SparcClient>)
      modifies shared
      ensures var t := Construct(configFile, file, modules, connect, old(shared.names));
        && shared.names == t.names
        && (r.Err? <==> t.err.Some?)
        && (r.Err? ==> r.error == t.err.value)
        && (r.Ok? ==> && fresh(r.value) && r.value.moduleNames == shared && r.value.Valid()
                      && r.value.bindings == t.bindings && r.value.instances == t.instances
                      && r.value.events == t.events)
    {
      if configFile.None? || configFile.value == "" {
        return Err(RuntimeError(NoConfigMessage));
      }
      var cfg := if file.Some? then file.value else EmptyConfig;
      var profile := Lookup(cfg, "global", "default_profile");
      if profile.Err? {
        return Err(profile.error);
      }
      var env := Env(profile.value, SectionView(cfg, profile.value), connect);
      var c := new SparcClient.Blank(shared);
      ghost var goal := Construct(configFile, file, modules, connect, old(shared.names));
      assert goal == RunModules(modules, env, c.Snapshot());
      var i := 0;
      while i < |modules|
        invariant 0 <= i <= |modules|
        invariant fresh(c) && c.moduleNames == shared
        invariant c.Valid()
        invariant goal == RunModules(modules[i..], env, c.Snapshot())
      {
        var m := modules[i];
        assert modules[i..][0] == m && modules[i..][1..] == modules[i + 1..];
        if m.importError.Some? {
          RunModulesAbsorbs(modules[i + 1..], env, c.Snapshot().(err := Some(m.importError.value)));
          return Err(m.importError.value);
        }
        var j := 0;
        while j < |m.attrs|
          invariant 0 <= j <= |m.attrs|
          invariant fresh(c) && c.moduleNames == shared
          invariant c.Valid()
          invariant goal == RunModules(modules[i + 1..], env, RunAttrs(m.name, m.attrs[j..], env, c.Snapshot()))
        {
          var a := m.attrs[j];
          assert m.attrs[j..][0] == a && m.attrs[j..][1..] == m.attrs[j + 1..];
          if Registrable(a.value) {
            var err := c.RegisterClass(m.name, a.value.cls, env);
            if err.Some? {
              StopWalk(m.name, m.attrs[j + 1..], modules[i + 1..], env, c.Snapshot().(err := err));
              return Err(err.value);
            }
          }
          j := j + 1;
        }
        i := i + 1;
      }
      return Ok(c);
    }

    /** Lines 47-51 for one qualifying class: append the module name to the shared list,
        look up the profile section, build, bind, and connect when asked; `err` is the
        exception raised on the way, if any. */
    method RegisterClass(moduleName: string, cls: ClassDesc, env: Env) returns (err: Option<PyError>)
      requires Valid()
      modifies this, moduleNames
      ensures Valid()
      ensures Trace(moduleNames.names, bindings, instances, events, err) ==
        StepClass(moduleName, cls, env, old(Snapshot()))
    {
      moduleNames.names := moduleNames.names + [moduleName];
      if env.section.None? {
        return Some(KeyError(env.profile));
      }
      if cls.constructorRaises {
        return Some(ServiceError(cls.name, "__init__"));
      }
      var k := |instances|;
      instances := instances + [Instance(moduleName, cls, env.section.value, false)];
      bindings := bindings[moduleName := k];
      events := events + [Built(k)];
      if env.connect {
        events := events + [ConnectCalled(k)];
        if cls.connectRaises {
          return Some(ServiceError(cls.name, "connect"));
        }
      }
      return None;
    }

    /** `connect()`: replays `module_names` in order; `raised` is the exception that
        stopped it, if any. */
    method Connect() returns (raised: Option<PyError>)
      requires Valid()
      modifies this
      ensures Valid() && bindings == old(bindings) && instances == old(instances)
      ensures (events, raised) == Replay(moduleNames.names, bindings, instances, old(events))
    {
      var names := moduleNames.names;
      var i := 0;
      while i < |names|
        invariant 0 <= i <= |names|
        invariant bindings == old(bindings) && instances == old(instances)
        invariant Replay(names, bindings, instances, old(events)) == Replay(names[i..], bindings, instances, events)
      {
        assert names[i..][0] == names[i] && names[i..][1..] == names[i + 1..];
        var n := names[i];
        if n !in bindings {
          return Some(AttributeError(n));
        }
        var k := bindings[n];
        events := events + [ConnectCalled(k)];
        if instances[k].cls.connectRaises {
          return Some(ServiceError(instances[k].cls.name, "connect"));
        }
        i := i + 1;
      }
      return None;
    }

    /** `alive()`. */
    function Alive(): (r: bool)
      ensures r
    {
      true
    }
  }
}
