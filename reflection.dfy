/** The runtime reflection behind service discovery (`iter_modules`, `import_module`,
    `dir`, `getattr`, `isclass`) given as plain data: the modules a directory yields, in
    `iter_modules` order, each with its attributes in `dir` order. */
module Reflection {
  import opened PyRuntime
  import opened ServiceBase

  /** An attribute's value: a class, or anything else (a function, a module, a constant). */
  datatype AttrValue = NotAClass | Class(cls: ClassDesc)

  datatype Attr = Attr(name: string, value: AttrValue)

  /** A module of the services package. `importError`: what executing the module's body
      raises under `import_module` (an ImportError of a missing dependency, a SyntaxError,
      a NameError, ...); `None` when the import succeeds. */
  datatype ModuleDesc = ModuleDesc(name: string, importError: Option<PyError>, attrs: seq<Attr>)

  predicate NoImportFails(ms: seq<ModuleDesc>) {
    forall k :: 0 <= k < |ms| ==> ms[k].importError.None?
  }
}
