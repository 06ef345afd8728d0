/** The capability contract of `services/_default.py`: the abstract base `ServiceBase`
    declares six abstract members, and a class is concrete (instantiable, and so
    registrable) only when every one of them has a concrete override. */
module ServiceBase {
  import opened PyRuntime

  /** The six members `ServiceBase` declares with `@abstractmethod`. */
  datatype Member = Init | Connect | Info | GetProfile | SetProfile | Close

  const AbstractMembers: set<Member> := {Init, Connect, Info, GetProfile, SetProfile, Close}

  /** What reflection can tell about a Python class.
      `isServiceSubclass`: `issubclass(cls, ServiceBase)` (true of `ServiceBase` itself);
      `implemented`: the members of the six that the class or an ancestor below
      `ServiceBase` defines without `@abstractmethod`;
      `otherAbstract`: the class has abstract methods of its own beyond the six;
      `constructorRaises`, `connectRaises`: whether its `__init__` / `connect()` raise. */
  datatype ClassDesc = ClassDesc(
    name: string,
    isServiceSubclass: bool,
    implemented: set<Member>,
    otherAbstract: bool,
    constructorRaises: bool,
    connectRaises: bool)

  /** `inspect.isabstract(cls)` for a subclass of `ServiceBase`. */
  predicate IsAbstract(c: ClassDesc) {
    !(AbstractMembers <= c.implemented) || c.otherAbstract
  }

  /** Which body a call to member `m` on an instance of `c` runs. */
  datatype Body = Override | BaseBody

  function Dispatch(c: ClassDesc, m: Member): (b: Body)
    ensures b == BaseBody <==> m !in c.implemented
  {
    if m in c.implemented then Override else BaseBody
  }

  /** Every base body in `_default.py` raises `NotImplementedError`. */
  function RunBaseBody(m: Member): (r: Result<()>)
    ensures r.Err? && r.error == NotImplementedError
  {
    Err(NotImplementedError)
  }

  /** A concrete subclass never falls through to a base body: all six members of the
      contract run the subclass's own code. */
  lemma ConcreteNeverRunsBase(c: ClassDesc, m: Member)
    requires !IsAbstract(c)
    ensures Dispatch(c, m) == Override
  {
    assert m in AbstractMembers;
  }

  /** A subclass missing any one of the six members is abstract. */
  lemma MissingMemberIsAbstract(c: ClassDesc, m: Member)
    requires m !in c.implemented
    ensures IsAbstract(c)
  {
    assert m in AbstractMembers;
  }

  /** `ServiceBase` itself, as every service module sees it after importing it. */
  const ServiceBaseClass := ClassDesc("ServiceBase", true, {}, false, false, false)

  /** `ServiceBase` is a subclass of itself but abstract. */
  lemma ServiceBaseIsAbstract()
    ensures ServiceBaseClass.isServiceSubclass && IsAbstract(ServiceBaseClass)
    ensures forall m :: Dispatch(ServiceBaseClass, m) == BaseBody
  {
    assert Init in AbstractMembers;
  }

  /** The test double `DummyService` (tests/dummyservices/dummymodule.py). */
  const DummyServiceClass := ClassDesc("DummyService", true, AbstractMembers, false, false, false)

  /** What the members of `DummyService` return. `__init__` and `close` return `None`. */
  datatype Value = NoneValue | BoolValue(b: bool) | StrValue(s: string)

  function DummyCall(m: Member): (v: Value)
    ensures m == Connect ==> v == BoolValue(true)
    ensures m == Info ==> v == StrValue("info")
    ensures m == GetProfile ==> v == StrValue("get_profile")
    ensures m == SetProfile ==> v == StrValue("set_profile")
    ensures m == Init || m == Close ==> v == NoneValue
  {
    match m
    case Connect => BoolValue(true)
    case Info => StrValue("info")
    case GetProfile => StrValue("get_profile")
    case SetProfile => StrValue("set_profile")
    case _ => NoneValue
  }

  /** `DummyService` overrides all six members, so it is concrete. */
  lemma DummyServiceIsConcrete()
    ensures DummyServiceClass.isServiceSubclass && !IsAbstract(DummyServiceClass)
  {
  }
}
