/** The package initialiser of `sparc.client.services` (services/__init__.py): on import
    it walks its own modules and copies every CLASS attribute of each (any class, not
    only services: `ServiceBase` and imported helper classes too) into the package
    namespace under the attribute's own name; a later module overwrites an earlier one.
    The loop runs at module level, so its variables are package globals as well, and
    each successful import also binds the submodule under its own name in the package. */
module ServicesPackage {
  import opened PyRuntime
  import opened ServiceBase
  import opened Reflection
  import opened SeqUtil

  /** A value in the package namespace. */
  datatype NsValue =
    | ClassObject(cls: ClassDesc)
    | ModuleObject(moduleName: string)
    | Str(s: string)
    | OtherObject(description: string)

  type Namespace = map<string, NsValue>

  /** The loop's own variables, bound in the package namespace as it runs. */
  const LoopVariables: set<string> := {"_", "module_name", "module", "attribute_name", "attribute"}

  /** The first and the last item of each `iter_modules` tuple, both bound to `_`. */
  const FinderValue := OtherObject("module finder")
  const IsPkgValue := OtherObject("ispkg flag")

  /** The value `getattr` yields for an attribute; only its class-ness is modelled. */
  function ValueOf(v: AttrValue): (r: NsValue)
    ensures r.ClassObject? <==> v.Class?
    ensures v.Class? ==> r.cls == v.cls
  {
    if v.Class? then ClassObject(v.cls) else OtherObject("non-class attribute")
  }

  /** The inner loop over `dir(module)`: `attribute_name` and `attribute` are bound,
      then an `isclass` attribute is copied under its name. */
  function ExportAttrs(attrs: seq<Attr>, g: Namespace): Namespace
    decreases |attrs|
  {
    if attrs == [] then g
    else
      var a := attrs[0];
      var g1 := g["attribute_name" := Str(a.name)]["attribute" := ValueOf(a.value)];
      ExportAttrs(attrs[1..], if a.value.Class? then g1[a.name := ClassObject(a.value.cls)] else g1)
  }

  /** The outer loop over `iter_modules`. The tuple targets are bound left to right, so
      `_` ends as the flag; an import failure then stops the loop with the module's own
      import error; otherwise the import binds the submodule, then `module`. */
  function ExportModules(ms: seq<ModuleDesc>, g: Namespace): (Namespace, Option<PyError>)
    decreases |ms|
  {
    if ms == [] then (g, None)
    else
      var m := ms[0];
      var h := g["_" := FinderValue]["module_name" := Str(m.name)]["_" := IsPkgValue];
      if m.importError.Some? then (h, Some(m.importError.value))
      else ExportModules(ms[1..], ExportAttrs(m.attrs, h[m.name := ModuleObject(m.name)]["module" := ModuleObject(m.name)]))
  }

  // ---------------------------------------------------------------------------
  // The same loops as sequences of assignments

  function HeaderWrites(moduleName: string): seq<(string, NsValue)> {
    [("_", FinderValue), ("module_name", Str(moduleName)), ("_", IsPkgValue)]
  }

  function ImportWrites(moduleName: string): seq<(string, NsValue)> {
    [(moduleName, ModuleObject(moduleName)), ("module", ModuleObject(moduleName))]
  }

  /** The export of one attribute: its (name, class) pair when it is a class, else nothing. */
  function ClassPair(a: Attr): seq<(string, NsValue)> {
    if a.value.Class? then [(a.name, ClassObject(a.value.cls))] else []
  }

  function AttrWrites(a: Attr): seq<(string, NsValue)> {
    [("attribute_name", Str(a.name)), ("attribute", ValueOf(a.value))] + ClassPair(a)
  }

  function AttrsWrites(attrs: seq<Attr>): seq<(string, NsValue)>
    decreases |attrs|
  {
    if attrs == [] then [] else AttrWrites(attrs[0]) + AttrsWrites(attrs[1..])
  }

  function ModuleWrites(m: ModuleDesc): seq<(string, NsValue)> {
    HeaderWrites(m.name) + ImportWrites(m.name) + AttrsWrites(m.attrs)
  }

  /** Every assignment of a walk over modules that all import. */
  function Writes(ms: seq<ModuleDesc>): seq<(string, NsValue)>
    decreases |ms|
  {
    if ms == [] then [] else ModuleWrites(ms[0]) + Writes(ms[1..])
  }

  /** The class attributes of one module, as (name, value) pairs in `dir` order. */
  function ClassPairs(attrs: seq<Attr>): (r: seq<(string, NsValue)>)
    ensures forall i :: 0 <= i < |r| ==> r[i].1.ClassObject?
    ensures forall j :: 0 <= j < |attrs| && attrs[j].value.Class? ==>
      (attrs[j].name, ClassObject(attrs[j].value.cls)) in r
    decreases |attrs|
  {
    if attrs == [] then [] else ClassPair(attrs[0]) + ClassPairs(attrs[1..])
  }

  /** The class attributes of all modules, in visiting order. */
  function ClassAttrs(ms: seq<ModuleDesc>): (r: seq<(string, NsValue)>)
    ensures forall i :: 0 <= i < |r| ==> r[i].1.ClassObject?
    decreases |ms|
  {
    if ms == [] then [] else ClassPairs(ms[0].attrs) + ClassAttrs(ms[1..])
  }

  function ModuleNames(ms: seq<ModuleDesc>): seq<string>
    decreases |ms|
  {
    if ms == [] then [] else [ms[0].name] + ModuleNames(ms[1..])
  }

  /** `ClassPairs` keeps the class attributes and drops the rest, each in place: it
      distributes over concatenation. */
  lemma {:induction false} ClassPairsAppend(a1: seq<Attr>, a2: seq<Attr>)
    ensures ClassPairs(a1 + a2) == ClassPairs(a1) + ClassPairs(a2)
    decreases |a1|
  {
    if a1 == [] {
      assert a1 + a2 == a2;
    } else {
      assert (a1 + a2)[0] == a1[0];
      assert (a1 + a2)[1..] == a1[1..] + a2;
      ClassPairsAppend(a1[1..], a2);
    }
  }

  lemma ClassPairsSingle(a: Attr)
    ensures ClassPairs([a]) == ClassPair(a)
    ensures a.value.Class? ==> ClassPairs([a]) == [(a.name, ClassObject(a.value.cls))]
    ensures !a.value.Class? ==> ClassPairs([a]) == []
  {
    assert [a][1..] == [];
  }

  lemma {:induction false} ClassAttrsAppend(m1: seq<ModuleDesc>, m2: seq<ModuleDesc>)
    ensures ClassAttrs(m1 + m2) == ClassAttrs(m1) + ClassAttrs(m2)
    decreases |m1|
  {
    if m1 == [] {
      assert m1 + m2 == m2;
    } else {
      assert (m1 + m2)[0] == m1[0];
      assert (m1 + m2)[1..] == m1[1..] + m2;
      ClassAttrsAppend(m1[1..], m2);
    }
  }

  lemma ClassAttrsSingle(m: ModuleDesc)
    ensures ClassAttrs([m]) == ClassPairs(m.attrs)
  {
    assert [m][1..] == [];
  }

  // ---------------------------------------------------------------------------
  // The loops are those assignments

  lemma HeaderAssigns(moduleName: string, g: Namespace)
    ensures AssignAll(g, HeaderWrites(moduleName))
      == g["_" := FinderValue]["module_name" := Str(moduleName)]["_" := IsPkgValue]
  {
    var a, b, c := ("_", FinderValue), ("module_name", Str(moduleName)), ("_", IsPkgValue);
    assert HeaderWrites(moduleName) == [a] + ([b] + ([c] + []));
    AssignAllCons(g, a, [b] + ([c] + []));
    AssignAllCons(g[a.0 := a.1], b, [c] + []);
    AssignAllCons(g[a.0 := a.1][b.0 := b.1], c, []);
  }

  lemma ImportAssigns(moduleName: string, g: Namespace)
    ensures AssignAll(g, ImportWrites(moduleName))
      == g[moduleName := ModuleObject(moduleName)]["module" := ModuleObject(moduleName)]
  {
    var a, b := (moduleName, ModuleObject(moduleName)), ("module", ModuleObject(moduleName));
    assert ImportWrites(moduleName) == [a] + ([b] + []);
    AssignAllCons(g, a, [b] + []);
    AssignAllCons(g[a.0 := a.1], b, []);
  }

  lemma AttrAssigns(a: Attr, g: Namespace)
    ensures var g1 := g["attribute_name" := Str(a.name)]["attribute" := ValueOf(a.value)];
      AssignAll(g, AttrWrites(a)) == if a.value.Class? then g1[a.name := ClassObject(a.value.cls)] else g1
  {
    var p, q := ("attribute_name", Str(a.name)), ("attribute", ValueOf(a.value));
    assert AttrWrites(a) == [p] + ([q] + ClassPair(a));
    AssignAllCons(g, p, [q] + ClassPair(a));
    AssignAllCons(g[p.0 := p.1], q, ClassPair(a));
    if a.value.Class? {
      AssignAllCons(g[p.0 := p.1][q.0 := q.1], (a.name, ClassObject(a.value.cls)), []);
      assert ClassPair(a) == [(a.name, ClassObject(a.value.cls))] + [];
    }
  }

  /** The inner loop performs exactly its attributes' assignments, in order. */
  lemma {:induction false} ExportAttrsAssigns(attrs: seq<Attr>, g: Namespace)
    ensures ExportAttrs(attrs, g) == AssignAll(g, AttrsWrites(attrs))
    decreases |attrs|
  {
    if attrs != [] {
      AttrAssigns(attrs[0], g);
      AssignAllAppend(g, AttrWrites(attrs[0]), AttrsWrites(attrs[1..]));
      ExportAttrsAssigns(attrs[1..], AssignAll(g, AttrWrites(attrs[0])));
    }
  }

  /** Without import failures, the package namespace ends as the in-order assignment of
      every binding the walk makes. */
  lemma {:induction false} ExportIsAssignAll(ms: seq<ModuleDesc>, g: Namespace)
    requires NoImportFails(ms)
    ensures ExportModules(ms, g) == (AssignAll(g, Writes(ms)), None)
    decreases |ms|
  {
    if ms != [] {
      var m := ms[0];
      assert m.importError.None?;
      assert NoImportFails(ms[1..]) by {
        forall k | 0 <= k < |ms[1..]| ensures ms[1..][k].importError.None? {
          assert ms[1..][k] == ms[k + 1];
        }
      }
      var h := AssignAll(g, HeaderWrites(m.name));
      var i := AssignAll(h, ImportWrites(m.name));
      HeaderAssigns(m.name, g);
      ImportAssigns(m.name, h);
      ExportAttrsAssigns(m.attrs, i);
      ExportIsAssignAll(ms[1..], ExportAttrs(m.attrs, i));
      AssignAllAppend(g, HeaderWrites(m.name), ImportWrites(m.name));
      AssignAllAppend(g, HeaderWrites(m.name) + ImportWrites(m.name), AttrsWrites(m.attrs));
      AssignAllAppend(g, ModuleWrites(m), Writes(ms[1..]));
    }
  }

  // ---------------------------------------------------------------------------
  // What the namespace holds

  /** Under a name that is not a loop variable, one attribute binds what its export does. */
  lemma AttrWritesOnKey(a: Attr, n: string)
    requires n !in LoopVariables
    ensures OnKey(AttrWrites(a), n) == OnKey(ClassPair(a), n)
  {
    var p, q := ("attribute_name", Str(a.name)), ("attribute", ValueOf(a.value));
    assert AttrWrites(a) == [p] + ([q] + ClassPair(a));
    OnKeyCons(p, [q] + ClassPair(a), n);
    OnKeyCons(q, ClassPair(a), n);
  }

  lemma {:induction false} AttrsWritesOnKey(attrs: seq<Attr>, n: string)
    requires n !in LoopVariables
    ensures OnKey(AttrsWrites(attrs), n) == OnKey(ClassPairs(attrs), n)
    decreases |attrs|
  {
    if attrs != [] {
      AttrWritesOnKey(attrs[0], n);
      AttrsWritesOnKey(attrs[1..], n);
      OnKeyAppend(AttrWrites(attrs[0]), AttrsWrites(attrs[1..]), n);
      OnKeyAppend(ClassPair(attrs[0]), ClassPairs(attrs[1..]), n);
    }
  }

  lemma ModuleWritesOnKey(m: ModuleDesc, n: string)
    requires n !in LoopVariables && n != m.name
    ensures OnKey(ModuleWrites(m), n) == OnKey(ClassPairs(m.attrs), n)
  {
    var hw := HeaderWrites(m.name);
    var iw := ImportWrites(m.name);
    assert OnKey(hw, n) == [] by {
      assert hw == [hw[0]] + ([hw[1]] + ([hw[2]] + []));
      OnKeyCons(hw[0], [hw[1]] + ([hw[2]] + []), n);
      OnKeyCons(hw[1], [hw[2]] + [], n);
      OnKeyCons(hw[2], [], n);
    }
    assert OnKey(iw, n) == [] by {
      assert iw == [iw[0]] + ([iw[1]] + []);
      OnKeyCons(iw[0], [iw[1]] + [], n);
      OnKeyCons(iw[1], [], n);
    }
    OnKeyAppend(hw, iw, n);
    OnKeyAppend(hw + iw, AttrsWrites(m.attrs), n);
    AttrsWritesOnKey(m.attrs, n);
  }

  /** Under a name that is neither a loop variable nor a module name, the walk binds
      exactly what the class exports bind. */
  lemma {:induction false} WritesOnKey(ms: seq<ModuleDesc>, n: string)
    requires n !in LoopVariables && n !in ModuleNames(ms)
    ensures OnKey(Writes(ms), n) == OnKey(ClassAttrs(ms), n)
    decreases |ms|
  {
    if ms != [] {
      assert n != ms[0].name && n !in ModuleNames(ms[1..]);
      ModuleWritesOnKey(ms[0], n);
      WritesOnKey(ms[1..], n);
      OnKeyAppend(ModuleWrites(ms[0]), Writes(ms[1..]), n);
      OnKeyAppend(ClassPairs(ms[0].attrs), ClassAttrs(ms[1..]), n);
    }
  }

  lemma PairKeyIn<K, V>(pairs: seq<(K, V)>, p: (K, V))
    requires p in pairs
    ensures p.0 in Keys(pairs)
  {
    var i :| 0 <= i < |pairs| && pairs[i] == p;
    assert Keys(pairs)[i] == p.0;
  }

  /** Each module that imports is written under its own name. */
  lemma {:induction false} ModulesWritten(ms: seq<ModuleDesc>, k: nat)
    requires k < |ms|
    ensures (ms[k].name, ModuleObject(ms[k].name)) in Writes(ms)
    decreases k
  {
    assert ModuleWrites(ms[0])[3] == (ms[0].name, ModuleObject(ms[0].name));
    if k > 0 {
      ModulesWritten(ms[1..], k - 1);
    }
  }

  /** Names other than the loop variables and the module names: the namespace is the old
      one with every class attribute assigned in visiting order. */
  lemma ClassView(ms: seq<ModuleDesc>, g: Namespace, n: string)
    requires NoImportFails(ms) && n !in LoopVariables && n !in ModuleNames(ms)
    ensures MapGet(ExportModules(ms, g).0, n) == MapGet(AssignAll(g, ClassAttrs(ms)), n)
  {
    ExportIsAssignAll(ms, g);
    AssignAllOnKey(g, Writes(ms), n);
    WritesOnKey(ms, n);
    AssignAllOnKey(g, ClassAttrs(ms), n);
  }

  /** The class view of `ClassView`, spelled out for every such name at once. */
  lemma OrdinaryNamesBound(ms: seq<ModuleDesc>, g: Namespace)
    requires NoImportFails(ms)
    ensures var r := ExportModules(ms, g).0; var ps := ClassAttrs(ms); var ks := Keys(ps);
      forall n :: n !in LoopVariables && n !in ModuleNames(ms) ==>
        && (n in r <==> n in g || n in ks)
        && (n in ks ==> r[n] == ps[LastIndex(ks, n)].1 && r[n].ClassObject?)
        && (n in g && n !in ks ==> r[n] == g[n])
  {
    var r := ExportModules(ms, g).0;
    var ps := ClassAttrs(ms);
    AssignAllLastWins(g, ps);
    forall n | n !in LoopVariables && n !in ModuleNames(ms)
      ensures MapGet(r, n) == MapGet(AssignAll(g, ps), n)
    {
      ClassView(ms, g, n);
    }
  }

  /** Every module name, and the loop's `_`, `module_name` and `module`, end bound. */
  lemma WalkNamesBound(ms: seq<ModuleDesc>, g: Namespace)
    requires NoImportFails(ms)
    ensures var r := ExportModules(ms, g).0;
      && (forall k :: 0 <= k < |ms| ==> ms[k].name in r)
      && (ms != [] ==> "_" in r && "module_name" in r && "module" in r)
  {
    var w := Writes(ms);
    ExportIsAssignAll(ms, g);
    AssignAllLastWins(g, w);
    forall k | 0 <= k < |ms| ensures ms[k].name in Keys(w) {
      ModulesWritten(ms, k);
      PairKeyIn(w, (ms[k].name, ModuleObject(ms[k].name)));
    }
    if ms != [] {
      var mw := ModuleWrites(ms[0]);
      assert mw[0].0 == "_" && mw[1].0 == "module_name" && mw[4].0 == "module";
      assert w[0] == mw[0] && w[1] == mw[1] && w[4] == mw[4];
      assert Keys(w)[0] == "_" && Keys(w)[1] == "module_name" && Keys(w)[4] == "module";
    }
  }

  /** What the namespace holds after a successful import. Every other name than the loop
      variables and the module names keeps its old binding unless a class attribute has
      that name, and then it holds the LAST class of that name in visiting order; every
      module name and the loop's tuple targets and `module` are bound as well. */
  lemma ExportedNamespace(ms: seq<ModuleDesc>, g: Namespace)
    requires NoImportFails(ms)
    ensures var r := ExportModules(ms, g); var ps := ClassAttrs(ms); var ks := Keys(ps);
      && r.1.None?
      && (forall n :: n !in LoopVariables && n !in ModuleNames(ms) ==>
            && (n in r.0 <==> n in g || n in ks)
            && (n in ks ==> r.0[n] == ps[LastIndex(ks, n)].1 && r.0[n].ClassObject?)
            && (n in g && n !in ks ==> r.0[n] == g[n]))
      && (forall k :: 0 <= k < |ms| ==> ms[k].name in r.0)
      && (ms != [] ==> "_" in r.0 && "module_name" in r.0 && "module" in r.0)
  {
    ExportIsAssignAll(ms, g);
    OrdinaryNamesBound(ms, g);
    WalkNamesBound(ms, g);
  }

  /** The package's import-time walk succeeds exactly when every module imports. */
  lemma {:induction false} ExportSucceedsIffImports(ms: seq<ModuleDesc>, g: Namespace)
    ensures ExportModules(ms, g).1.None? <==> NoImportFails(ms)
    decreases |ms|
  {
    if ms != [] {
      var m := ms[0];
      var h := g["_" := FinderValue]["module_name" := Str(m.name)]["_" := IsPkgValue];
      if m.importError.None? {
        ExportSucceedsIffImports(ms[1..], ExportAttrs(m.attrs, h[m.name := ModuleObject(m.name)]["module" := ModuleObject(m.name)]));
        assert NoImportFails(ms) <==> NoImportFails(ms[1..]) by {
          assert forall k :: 0 <= k < |ms[1..]| ==> ms[1..][k] == ms[k + 1];
          assert forall k :: 1 <= k < |ms| ==> ms[k] == ms[1..][k - 1];
        }
      }
    }
  }

  /** A module that fails to import stops the export: the namespace is what the modules
      before it bound, plus its own tuple targets, and later modules are not read. */
  lemma ImportFailureStopsExport(ms: seq<ModuleDesc>, g: Namespace, k: nat)
    requires k < |ms| && ms[k].importError.Some? && NoImportFails(ms[..k])
    ensures ExportModules(ms, g)
      == (AssignAll(g, Writes(ms[..k]) + HeaderWrites(ms[k].name)), Some(ms[k].importError.value))
  {
    ExportPrefix(ms, g, k);
    ExportIsAssignAll(ms[..k], g);
    var g' := AssignAll(g, Writes(ms[..k]));
    HeaderAssigns(ms[k].name, g');
    AssignAllAppend(g, Writes(ms[..k]), HeaderWrites(ms[k].name));
    assert ms[k..][0] == ms[k];
  }

  lemma {:induction false} ExportPrefix(ms: seq<ModuleDesc>, g: Namespace, k: nat)
    requires k <= |ms| && NoImportFails(ms[..k])
    ensures ExportModules(ms, g) == ExportModules(ms[k..], ExportModules(ms[..k], g).0)
    decreases k
  {
    if k > 0 {
      var m := ms[0];
      assert m.importError.None? by {
        assert ms[..k][0] == m;
      }
      var tail := ms[1..][..k - 1];
      assert NoImportFails(tail) by {
        forall j | 0 <= j < |tail| ensures tail[j].importError.None? {
          assert tail[j] == ms[..k][j + 1];
        }
      }
      var h := g["_" := FinderValue]["module_name" := Str(m.name)]["_" := IsPkgValue];
      ExportPrefix(ms[1..], ExportAttrs(m.attrs, h[m.name := ModuleObject(m.name)]["module" := ModuleObject(m.name)]), k - 1);
      assert ms[1..][k - 1..] == ms[k..];
      assert ms[..k][1..] == ms[1..][..k - 1];
      assert ms[..k][0] == m;
    }
  }

  /** The package module object; `globals` is its namespace. */
  class Package {
    var globals: Namespace

    constructor (initial: Namespace)
      ensures globals == initial
    {
      globals := initial;
    }

    /** The import-time loop of the package; `err` is the exception that stopped it. */
    method ExportClasses(modules: seq<ModuleDesc>) returns (err: Option<PyError>)
      modifies this
      ensures (globals, err) == ExportModules(modules, old(globals))
    {
      var i := 0;
      while i < |modules|
        invariant 0 <= i <= |modules|
        invariant ExportModules(modules, old(globals)) == ExportModules(modules[i..], globals)
      {
        var m := modules[i];
        assert modules[i..][0] == m && modules[i..][1..] == modules[i + 1..];
        // `for (_, module_name, _) in ...` binds its targets left to right
        globals := globals["_" := FinderValue]["module_name" := Str(m.name)]["_" := IsPkgValue];
        if m.importError.Some? {
          return Some(m.importError.value);
        }
        // the import binds the submodule in its package; then `module` is bound
        globals := globals[m.name := ModuleObject(m.name)]["module" := ModuleObject(m.name)];
        ghost var g0 := globals;
        var j := 0;
        while j < |m.attrs|
          invariant 0 <= j <= |m.attrs|
          invariant ExportAttrs(m.attrs, g0) == ExportAttrs(m.attrs[j..], globals)
        {
          var a := m.attrs[j];
          assert m.attrs[j..][0] == a && m.attrs[j..][1..] == m.attrs[j + 1..];
          globals := globals["attribute_name" := Str(a.name)];
          globals := globals["attribute" := ValueOf(a.value)];
          if a.value.Class? {
            globals := globals[a.name := ClassObject(a.value.cls)];
          }
          j := j + 1;
        }
        i := i + 1;
      }
      return None;
    }
  }
}
