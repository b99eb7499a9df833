/**
 * The injection target of a managed bean: which injection actions run on a new
 * instance and in what order (superclass levels first; within a level fields,
 * then methods with injection points, then parameterless initializers), the
 * lazily cached constructor, and the life-cycle callbacks.
 */
module Injection {
  import opened Wrappers

  /** A Java class: its name and its superclass link (`Null` above `java.lang.Object`). */
  datatype JClass = Null | Class(name: string, superclass: JClass)

  const ObjectClassName: string := "java.lang.Object"

  /** A parameter annotation; only `@Observes` and `@Disposes` matter here. */
  datatype Annotation = Observes | Disposes | OtherAnnotation(name: string)

  datatype MemberKind = FieldMember | MethodMember | ConstructorMember

  /**
   * A reflective member: the class that declares it, its name, the types of its
   * parameters (so that overloads are different members, as reflective equality
   * makes them), its kind, whether it carries `@Produces`, and the annotations of
   * each of its parameters.
   */
  datatype Member = Member(
    declaringClass: string,
    name: string,
    parameterTypes: seq<string>,
    kind: MemberKind,
    produces: bool,
    parameterAnnotations: seq<seq<Annotation>>)

  /** What an injection point's annotated element is: a constructor, or anything else. */
  datatype Annotated = AnnotatedConstructor(ctor: Member) | AnnotatedOther

  datatype InjectionPoint = InjectionPoint(member: Member, annotated: Annotated)

  /** A method of the annotated type, and whether it carries `@Inject`. */
  datatype AnnotatedMethod = AnnotatedMethod(javaMember: Member, injectAnnotated: bool)

  /**
   * The annotated type of the bean: its class name, its methods (inherited ones
   * included) and the no-argument constructor of its class, if it has one.
   */
  datatype AnnotatedType = AnnotatedType(javaClass: string, methods: seq<AnnotatedMethod>, noArgConstructor: Option<Member>)

  /** The constructor the target builds instances with. */
  datatype AnnotatedConstructorImpl = AnnotatedConstructorImpl(javaMember: Option<Member>, declaringType: string)

  /** One injection action performed on an instance. */
  datatype Injection =
    | FieldInjection(member: Member)
    | MethodInjection(member: Member)
    | InitializerInjection(member: Member)

  /** The class level an injection action belongs to. */
  function Level(e: Injection): string
  {
    e.member.declaringClass
  }

  /** The position of an action's kind in a level: fields, then methods, then initializers. */
  function Rank(e: Injection): nat
  {
    match e
    case FieldInjection(_) => 0
    case MethodInjection(_) => 1
    case InitializerInjection(_) => 2
  }

  /** Whether any parameter of a method carries annotation `a`. */
  function HasParameterAnnotation(params: seq<seq<Annotation>>, a: Annotation): (r: bool)
    ensures r <==> exists i, j :: 0 <= i < |params| && 0 <= j < |params[i]| && params[i][j] == a
  {
    if params == [] then false
    else if a in params[0] then true
    else
      var rest := HasParameterAnnotation(params[1..], a);
      assert forall i, j :: 1 <= i < |params| && 0 <= j < |params[i]| ==> params[i][j] == params[1..][i - 1][j];
      rest
  }

  /** A producer method: its member carries `@Produces`. */
  predicate IsProducerMethod(p: InjectionPoint)
  {
    p.member.produces
  }

  /** An observer method: a method with a parameter annotated `@Observes`. */
  predicate IsObserverMethod(p: InjectionPoint): (r: bool)
    ensures r <==>
      && p.member.kind == MethodMember
      && exists i, j :: 0 <= i < |p.member.parameterAnnotations| && 0 <= j < |p.member.parameterAnnotations[i]|
           && p.member.parameterAnnotations[i][j] == Observes
  {
    p.member.kind == MethodMember && HasParameterAnnotation(p.member.parameterAnnotations, Observes)
  }

  /** A disposal method: a method with a parameter annotated `@Disposes`. */
  predicate IsDisposalMethod(p: InjectionPoint): (r: bool)
    ensures r <==>
      && p.member.kind == MethodMember
      && exists i, j :: 0 <= i < |p.member.parameterAnnotations| && 0 <= j < |p.member.parameterAnnotations[i]|
           && p.member.parameterAnnotations[i][j] == Disposes
  {
    p.member.kind == MethodMember && HasParameterAnnotation(p.member.parameterAnnotations, Disposes)
  }

  /** An injection point whose field is injected at class level `level`. */
  predicate InjectsField(p: InjectionPoint, level: string)
  {
    p.member.declaringClass == level && p.member.kind == FieldMember
  }

  /** An injection point whose method may be injected at class level `level`. */
  predicate InjectsMethod(p: InjectionPoint, level: string)
  {
    && p.member.declaringClass == level
    && p.member.kind == MethodMember
    && !IsProducerMethod(p)
    && !IsDisposalMethod(p)
    && !IsObserverMethod(p)
  }

  /** An initializer of class level `level`: an `@Inject` method declared there with no parameters. */
  predicate IsInitializer(m: AnnotatedMethod, level: string)
  {
    m.javaMember.declaringClass == level && m.injectAnnotated && |m.javaMember.parameterTypes| == 0
  }

  /** The field injections of one class level, in the order of the injection points. */
  function FieldPlan(points: seq<InjectionPoint>, level: string): (r: seq<Injection>)
    ensures forall k :: 0 <= k < |r| ==> r[k].FieldInjection? && Level(r[k]) == level
    decreases |points|
  {
    if points == [] then []
    else
      var p := points[|points| - 1];
      FieldPlan(points[..|points| - 1], level) + (if InjectsField(p, level) then [FieldInjection(p.member)] else [])
  }

  /**
   * The method injections of one class level: one per method that has an eligible
   * injection point, in the order of its first such point; no method occurs twice.
   */
  function MethodPlan(points: seq<InjectionPoint>, level: string): (r: seq<Injection>)
    ensures forall k :: 0 <= k < |r| ==> r[k].MethodInjection? && Level(r[k]) == level
    ensures forall a, b :: 0 <= a < b < |r| ==> r[a] != r[b]
    decreases |points|
  {
    if points == [] then []
    else
      var p := points[|points| - 1];
      var done := MethodPlan(points[..|points| - 1], level);
      done + (if InjectsMethod(p, level) && MethodInjection(p.member) !in done then [MethodInjection(p.member)] else [])
  }

  /** The initializer calls of one class level, in the order of the type's methods. */
  function InitializerPlan(methods: seq<AnnotatedMethod>, level: string): (r: seq<Injection>)
    ensures forall k :: 0 <= k < |r| ==> r[k].InitializerInjection? && Level(r[k]) == level
    decreases |methods|
  {
    if methods == [] then []
    else
      var m := methods[|methods| - 1];
      InitializerPlan(methods[..|methods| - 1], level) + (if IsInitializer(m, level) then [InitializerInjection(m.javaMember)] else [])
  }

  /** A field is injected at a level exactly when one of its injection points is declared there. */
  lemma {:induction false} FieldPlanMembers(points: seq<InjectionPoint>, level: string, f: Member)
    ensures FieldInjection(f) in FieldPlan(points, level) <==> exists p :: p in points && InjectsField(p, level) && p.member == f
    decreases |points|
  {
    if points != [] {
      var front := points[..|points| - 1];
      assert points == front + [points[|points| - 1]];
      FieldPlanMembers(front, level, f);
    }
  }

  /**
   * A method is injected at a level exactly when it has an injection point declared
   * there and it is not a producer, disposal or observer method.
   */
  lemma {:induction false} MethodPlanMembers(points: seq<InjectionPoint>, level: string, m: Member)
    ensures MethodInjection(m) in MethodPlan(points, level) <==> exists p :: p in points && InjectsMethod(p, level) && p.member == m
    decreases |points|
  {
    if points != [] {
      var front := points[..|points| - 1];
      assert points == front + [points[|points| - 1]];
      MethodPlanMembers(front, level, m);
    }
  }

  /** The initializers run at a level are exactly the parameterless `@Inject` methods declared there. */
  lemma {:induction false} InitializerPlanMembers(methods: seq<AnnotatedMethod>, level: string, m: Member)
    ensures InitializerInjection(m) in InitializerPlan(methods, level) <==>
      exists am :: am in methods && IsInitializer(am, level) && am.javaMember == m
    decreases |methods|
  {
    if methods != [] {
      var front := methods[..|methods| - 1];
      assert methods == front + [methods[|methods| - 1]];
      InitializerPlanMembers(front, level, m);
    }
  }

  /**
   * Everything injected at one class level: only members that level declares;
   * fields, then methods, then initializers; no method twice.
   */
  function LevelPlan(points: seq<InjectionPoint>, methods: seq<AnnotatedMethod>, level: string): (r: seq<Injection>)
    ensures forall k :: 0 <= k < |r| ==> Level(r[k]) == level
    ensures forall a, b :: 0 <= a < b < |r| ==> Rank(r[a]) <= Rank(r[b])
    ensures forall a, b :: 0 <= a < b < |r| && r[a].MethodInjection? ==> r[a] != r[b]
  {
    var fields, meths, inits := FieldPlan(points, level), MethodPlan(points, level), InitializerPlan(methods, level);
    var r := fields + meths + inits;
    assert forall k :: 0 <= k < |r| ==>
      if k < |fields| then r[k] == fields[k]
      else if k < |fields| + |meths| then r[k] == meths[k - |fields|]
      else r[k] == inits[k - |fields| - |meths|];
    r
  }

  /** Whether injection stops at this class (it is `null` or `java.lang.Object`). */
  predicate IsRoot(cls: JClass)
  {
    cls.Null? || cls.name == ObjectClassName
  }

  /** The injection actions for an instance of class `cls`: its superclass's first, then its own level's. */
  function Plan(points: seq<InjectionPoint>, methods: seq<AnnotatedMethod>, cls: JClass): seq<Injection>
  {
    if IsRoot(cls) then []
    else Plan(points, methods, cls.superclass) + LevelPlan(points, methods, cls.name)
  }

  /** The class levels injection visits, from `cls` itself up to, not including, `java.lang.Object`. */
  function Chain(cls: JClass): (names: seq<string>)
    ensures ObjectClassName !in names
  {
    if IsRoot(cls) then [] else [cls.name] + Chain(cls.superclass)
  }

  /** No class name occurs twice on the superclass chain. */
  predicate DistinctNames(names: seq<string>)
  {
    forall i, j :: 0 <= i < j < |names| ==> names[i] != names[j]
  }

  /** One step up a chain of distinct names: the class's own name does not occur above it. */
  lemma ChainStep(cls: JClass)
    requires !IsRoot(cls) && DistinctNames(Chain(cls))
    ensures Chain(cls) == [cls.name] + Chain(cls.superclass)
    ensures DistinctNames(Chain(cls.superclass)) && cls.name !in Chain(cls.superclass)
  {
    var up := Chain(cls.superclass);
    forall i, j | 0 <= i < j < |up| ensures up[i] != up[j] {
      assert up[i] == Chain(cls)[i + 1] && up[j] == Chain(cls)[j + 1];
    }
    forall k | 0 <= k < |up| ensures up[k] != cls.name {
      assert up[k] == Chain(cls)[k + 1] && Chain(cls)[0] == cls.name;
    }
  }

  /** Every action belongs to a class level on the chain. */
  lemma {:induction false} PlanLevels(points: seq<InjectionPoint>, methods: seq<AnnotatedMethod>, cls: JClass)
    ensures forall k :: 0 <= k < |Plan(points, methods, cls)| ==> Level(Plan(points, methods, cls)[k]) in Chain(cls)
  {
    if !IsRoot(cls) {
      PlanLevels(points, methods, cls.superclass);
      var inherited := Plan(points, methods, cls.superclass);
      var own := LevelPlan(points, methods, cls.name);
      assert forall k :: 0 <= k < |inherited + own| ==>
        (inherited + own)[k] == if k < |inherited| then inherited[k] else own[k - |inherited|];
    }
  }

  /**
   * Superclass levels first: along the actions, a level's distance above `cls` on
   * the chain never grows back, so every action of a superclass precedes every
   * action of its subclasses.
   */
  lemma {:induction false} SuperclassLevelsFirst(
    points: seq<InjectionPoint>, methods: seq<AnnotatedMethod>, cls: JClass, i: nat, j: nat, ki: nat, kj: nat)
    requires DistinctNames(Chain(cls))
    requires i < j < |Plan(points, methods, cls)|
    requires ki < |Chain(cls)| && Chain(cls)[ki] == Level(Plan(points, methods, cls)[i])
    requires kj < |Chain(cls)| && Chain(cls)[kj] == Level(Plan(points, methods, cls)[j])
    ensures kj <= ki
  {
    var inherited := Plan(points, methods, cls.superclass);
    var own := LevelPlan(points, methods, cls.name);
    var plan := Plan(points, methods, cls);
    assert plan == inherited + own;
    ChainStep(cls);
    if j < |inherited| {
      PlanLevels(points, methods, cls.superclass);
      assert plan[i] == inherited[i] && plan[j] == inherited[j];
      assert Level(inherited[i]) in Chain(cls.superclass) && Level(inherited[j]) in Chain(cls.superclass);
      assert ki != 0 && kj != 0;
      SuperclassLevelsFirst(points, methods, cls.superclass, i, j, ki - 1, kj - 1);
    } else {
      assert plan[j] == own[j - |inherited|];
      assert Chain(cls)[0] == Level(plan[j]);
      assert kj == 0;
    }
  }

  /** Within one class level, field injections come before method injections, which come before initializers. */
  lemma {:induction false} FieldsThenMethodsThenInitializers(
    points: seq<InjectionPoint>, methods: seq<AnnotatedMethod>, cls: JClass, i: nat, j: nat)
    requires DistinctNames(Chain(cls))
    requires i < j < |Plan(points, methods, cls)|
    requires Level(Plan(points, methods, cls)[i]) == Level(Plan(points, methods, cls)[j])
    ensures Rank(Plan(points, methods, cls)[i]) <= Rank(Plan(points, methods, cls)[j])
  {
    var inherited := Plan(points, methods, cls.superclass);
    var own := LevelPlan(points, methods, cls.name);
    var plan := Plan(points, methods, cls);
    assert plan == inherited + own;
    ChainStep(cls);
    if j < |inherited| {
      assert plan[i] == inherited[i] && plan[j] == inherited[j];
      FieldsThenMethodsThenInitializers(points, methods, cls.superclass, i, j);
    } else if i < |inherited| {
      PlanLevels(points, methods, cls.superclass);
      assert false;
    } else {
      assert plan[i] == own[i - |inherited|] && plan[j] == own[j - |inherited|];
    }
  }

  /** No method is injected twice into one instance. */
  lemma {:induction false} MethodsInjectedOnce(points: seq<InjectionPoint>, methods: seq<AnnotatedMethod>, cls: JClass, i: nat, j: nat)
    requires DistinctNames(Chain(cls))
    requires i < j < |Plan(points, methods, cls)|
    requires Plan(points, methods, cls)[i].MethodInjection?
    ensures Plan(points, methods, cls)[i] != Plan(points, methods, cls)[j]
  {
    var inherited := Plan(points, methods, cls.superclass);
    var own := LevelPlan(points, methods, cls.name);
    var plan := Plan(points, methods, cls);
    assert plan == inherited + own;
    ChainStep(cls);
    if j < |inherited| {
      assert plan[i] == inherited[i] && plan[j] == inherited[j];
      MethodsInjectedOnce(points, methods, cls.superclass, i, j);
    } else if i < |inherited| {
      PlanLevels(points, methods, cls.superclass);
      assert plan[i] == inherited[i] && plan[j] == own[j - |inherited|];
    } else {
      assert plan[i] == own[i - |inherited|] && plan[j] == own[j - |inherited|];
    }
  }

  /** Producer, disposal and observer methods are never injected as methods. */
  lemma {:induction false} SkippedMethodsNeverInjected(
    points: seq<InjectionPoint>, methods: seq<AnnotatedMethod>, cls: JClass, p: InjectionPoint)
    requires IsProducerMethod(p) || IsDisposalMethod(p) || IsObserverMethod(p)
    ensures MethodInjection(p.member) !in Plan(points, methods, cls)
  {
    if !IsRoot(cls) {
      SkippedMethodsNeverInjected(points, methods, cls.superclass, p);
      MethodPlanMembers(points, cls.name, p.member);
      var own := LevelPlan(points, methods, cls.name);
      var fields, meths, inits := FieldPlan(points, cls.name), MethodPlan(points, cls.name), InitializerPlan(methods, cls.name);
      assert own == fields + meths + inits;
      assert MethodInjection(p.member) !in fields && MethodInjection(p.member) !in inits;
    }
  }

  /** Visiting injection point `i` extends the field plan of the points before it. */
  lemma FieldPlanStep(points: seq<InjectionPoint>, level: string, i: nat)
    requires i < |points|
    ensures FieldPlan(points[..i + 1], level)
      == FieldPlan(points[..i], level) + (if InjectsField(points[i], level) then [FieldInjection(points[i].member)] else [])
  {
    assert points[..i + 1][..i] == points[..i];
  }

  /** Visiting injection point `i` extends the method plan of the points before it. */
  lemma MethodPlanStep(points: seq<InjectionPoint>, level: string, i: nat)
    requires i < |points|
    ensures MethodPlan(points[..i + 1], level)
      == MethodPlan(points[..i], level)
         + (if InjectsMethod(points[i], level) && MethodInjection(points[i].member) !in MethodPlan(points[..i], level)
            then [MethodInjection(points[i].member)] else [])
  {
    assert points[..i + 1][..i] == points[..i];
  }

  /** Visiting method `i` extends the initializer plan of the methods before it. */
  lemma InitializerPlanStep(methods: seq<AnnotatedMethod>, level: string, i: nat)
    requires i < |methods|
    ensures InitializerPlan(methods[..i + 1], level)
      == InitializerPlan(methods[..i], level) + (if IsInitializer(methods[i], level) then [InitializerInjection(methods[i].javaMember)] else [])
  {
    assert methods[..i + 1][..i] == methods[..i];
  }

  /** The failure of building an instance when there is no constructor to call. */
  const NoConstructor := "No constructor to build an instance with"

  /** The constructor the injection points name, the first one found, if any. */
  function NamedConstructor(points: seq<InjectionPoint>): (c: Option<Member>)
    ensures c.Some? ==> exists p :: p in points && p.annotated == AnnotatedConstructor(c.value)
    ensures c.None? <==> forall p :: p in points ==> !p.annotated.AnnotatedConstructor?
  {
    if points == [] then None
    else if points[0].annotated.AnnotatedConstructor? then Some(points[0].annotated.ctor)
    else
      assert forall p :: p in points ==> p == points[0] || p in points[1..];
      NamedConstructor(points[1..])
  }

  /**
   * The injection target of one bean class. `cachedConstructor` is the lazily built,
   * cached constructor; the other fields are fixed at creation.
   */
  class InjectionTargetImpl {
    const annotatedType: AnnotatedType
    const injectionPoints: seq<InjectionPoint>
    const postConstructMethod: Option<Member>
    const preDestroyMethod: Option<Member>
    var cachedConstructor: Option<AnnotatedConstructorImpl>

    constructor (annotatedType: AnnotatedType, points: seq<InjectionPoint>, postConstructMethod: Option<Member>, preDestroyMethod: Option<Member>)
      ensures this.annotatedType == annotatedType && injectionPoints == points
      ensures this.postConstructMethod == postConstructMethod && this.preDestroyMethod == preDestroyMethod
      ensures cachedConstructor == None
    {
      this.annotatedType := annotatedType;
      injectionPoints := points;
      this.postConstructMethod := postConstructMethod;
      this.preDestroyMethod := preDestroyMethod;
      cachedConstructor := None;
    }

    /** Injects an instance whose class is `cls`, superclass levels first. */
    method Inject(cls: JClass) returns (actions: seq<Injection>)
      ensures actions == Plan(injectionPoints, annotatedType.methods, cls)
      decreases cls
    {
      if cls.Null? || cls.name == ObjectClassName {
        return [];
      }
      var inherited := Inject(cls.superclass);
      var fields := InjectFields(cls.name);
      var meths := InjectMethods(cls.name);
      var inits := InjectInitializerMethods(cls.name);
      actions := inherited + (fields + meths + inits);
    }

    /** Injects the fields declared by class `level`. */
    method InjectFields(level: string) returns (actions: seq<Injection>)
      ensures actions == FieldPlan(injectionPoints, level)
    {
      actions := [];
      for i := 0 to |injectionPoints|
        invariant actions == FieldPlan(injectionPoints[..i], level)
      {
        var p := injectionPoints[i];
        FieldPlanStep(injectionPoints, level, i);
        if p.member.declaringClass == level {
          if p.member.kind == FieldMember {
            actions := actions + [FieldInjection(p.member)];
          }
        }
      }
      assert injectionPoints[..|injectionPoints|] == injectionPoints;
    }

    /** Injects the methods declared by class `level` that have injection points, each once. */
    method InjectMethods(level: string) returns (actions: seq<Injection>)
      ensures actions == MethodPlan(injectionPoints, level)
    {
      actions := [];
      var injectedMethods: set<Member> := {};
      for i := 0 to |injectionPoints|
        invariant actions == MethodPlan(injectionPoints[..i], level)
        invariant forall m :: m in injectedMethods <==> MethodInjection(m) in actions
      {
        var p := injectionPoints[i];
        MethodPlanStep(injectionPoints, level, i);
        if p.member.declaringClass == level {
          if p.member.kind == MethodMember
            && p.member !in injectedMethods
            && !IsProducerMethod(p)
            && !IsDisposalMethod(p)
            && !IsObserverMethod(p)
          {
            actions := actions + [MethodInjection(p.member)];
            injectedMethods := injectedMethods + {p.member};
          }
        }
      }
      assert injectionPoints[..|injectionPoints|] == injectionPoints;
    }

    /** Calls the parameterless `@Inject` methods declared by class `level`. */
    method InjectInitializerMethods(level: string) returns (actions: seq<Injection>)
      ensures actions == InitializerPlan(annotatedType.methods, level)
    {
      var methods := annotatedType.methods;
      actions := [];
      for i := 0 to |methods|
        invariant actions == InitializerPlan(methods[..i], level)
      {
        var m := methods[i];
        InitializerPlanStep(methods, level, i);
        if m.javaMember.declaringClass == level && m.injectAnnotated && |m.javaMember.parameterTypes| == 0 {
          actions := actions + [InitializerInjection(m.javaMember)];
        }
      }
      assert methods[..|methods|] == methods;
    }

    /**
     * Whether the injection points name two different constructors. (Building the
     * constructor fails exactly then.)
     */
    predicate ConflictingConstructors()
    {
      exists i, j :: 0 <= i < |injectionPoints| && 0 <= j < |injectionPoints|
        && injectionPoints[i].annotated.AnnotatedConstructor?
        && injectionPoints[j].annotated.AnnotatedConstructor?
        && injectionPoints[i].annotated != injectionPoints[j].annotated
    }

    /** The constructor built from the type's no-argument constructor. */
    function DefaultConstructor(): AnnotatedConstructorImpl
    {
      AnnotatedConstructorImpl(annotatedType.noArgConstructor, annotatedType.javaClass)
    }

    /** The constructor the injection points name, if they name one, else the default one. */
    function ChosenConstructor(): AnnotatedConstructorImpl
    {
      if NamedConstructor(injectionPoints).Some? then AnnotatedConstructorImpl(NamedConstructor(injectionPoints), annotatedType.javaClass)
      else DefaultConstructor()
    }

    /**
     * The search for the constructor the injection points name: it fails exactly
     * when they name two different constructors, and otherwise finds the one they
     * name, if any.
     */
    method FindConstructor() returns (r: Result<Option<Member>, string>)
      ensures r.Err? <==> ConflictingConstructors()
      ensures r.Ok? ==> r.value == NamedConstructor(injectionPoints)
    {
      var found: Option<Annotated> := None;
      for i := 0 to |injectionPoints|
        invariant found.None? ==> forall k :: 0 <= k < i ==> !injectionPoints[k].annotated.AnnotatedConstructor?
        invariant found.Some? ==> exists k :: 0 <= k < i && injectionPoints[k].annotated == found.value
        invariant found.Some? ==> found.value.AnnotatedConstructor?
        invariant forall k :: 0 <= k < i && injectionPoints[k].annotated.AnnotatedConstructor? ==> found == Some(injectionPoints[k].annotated)
      {
        var a := injectionPoints[i].annotated;
        if a.AnnotatedConstructor? {
          if found.None? {
            found := Some(a);
          } else if found.value != a {
            return Err("More than one constructor found for injection");
          }
        }
      }
      r := Ok(if found.Some? then Some(found.value.ctor) else None);
    }

    /**
     * The constructor to build instances with, as written: the cached one if there
     * is one; otherwise, unless the injection points name two different
     * constructors, a new one built from the no-argument constructor, whatever
     * constructor the injection points name, which is cached.
     */
    method GetConstructorAsWritten() returns (r: Result<AnnotatedConstructorImpl, string>)
      modifies this
      ensures old(cachedConstructor).Some? ==> r == Ok(old(cachedConstructor).value) && cachedConstructor == old(cachedConstructor)
      ensures old(cachedConstructor).None? ==>
        if ConflictingConstructors() then r.Err? && cachedConstructor == None
        else r == Ok(DefaultConstructor()) && cachedConstructor == Some(r.value)
    {
      if cachedConstructor.Some? {
        return Ok(cachedConstructor.value);
      }
      var named := FindConstructor();
      if named.Err? {
        return Err(named.error);
      }
      // the constructor found is not used
      cachedConstructor := Some(DefaultConstructor());
      r := Ok(cachedConstructor.value);
    }

    /**
     * The constructor to build instances with: the cached one if there is one;
     * otherwise, unless the injection points name two different constructors, the
     * one they name, or else the no-argument constructor, which is cached.
     */
    method GetConstructor() returns (r: Result<AnnotatedConstructorImpl, string>)
      modifies this
      ensures old(cachedConstructor).Some? ==> r == Ok(old(cachedConstructor).value) && cachedConstructor == old(cachedConstructor)
      ensures old(cachedConstructor).None? ==>
        if ConflictingConstructors() then r.Err? && cachedConstructor == None
        else r == Ok(ChosenConstructor()) && cachedConstructor == Some(r.value)
    {
      if cachedConstructor.Some? {
        return Ok(cachedConstructor.value);
      }
      var named := FindConstructor();
      if named.Err? {
        return Err(named.error);
      }
      cachedConstructor := Some(if named.value.Some? then AnnotatedConstructorImpl(named.value, annotatedType.javaClass) else DefaultConstructor());
      r := Ok(cachedConstructor.value);
    }

    /**
     * Builds a new instance with the constructor, as written; returns the
     * constructor used. Building fails when there is no constructor to call.
     */
    method ProduceAsWritten() returns (r: Result<Member, string>)
      modifies this
      ensures r.Ok? ==> cachedConstructor.Some? && cachedConstructor.value.javaMember == Some(r.value)
      ensures old(cachedConstructor).Some? ==>
        && cachedConstructor == old(cachedConstructor)
        && r == (if old(cachedConstructor).value.javaMember.Some? then Ok(old(cachedConstructor).value.javaMember.value) else Err(NoConstructor))
      ensures old(cachedConstructor).None? && ConflictingConstructors() ==> r.Err? && cachedConstructor == None
      ensures old(cachedConstructor).None? && !ConflictingConstructors() ==>
        && cachedConstructor == Some(DefaultConstructor())
        && r == (if annotatedType.noArgConstructor.Some? then Ok(annotatedType.noArgConstructor.value) else Err(NoConstructor))
    {
      var c := GetConstructorAsWritten();
      if c.Err? {
        return Err(c.error);
      }
      if c.value.javaMember.None? {
        return Err(NoConstructor);
      }
      r := Ok(c.value.javaMember.value);
    }

    /**
     * Builds a new instance with the constructor; returns the constructor used.
     * The constructor the injection points name is the one used, and building fails
     * only when there is no constructor to call.
     */
    method Produce() returns (r: Result<Member, string>)
      modifies this
      ensures r.Ok? ==> cachedConstructor.Some? && cachedConstructor.value.javaMember == Some(r.value)
      ensures old(cachedConstructor).Some? ==>
        && cachedConstructor == old(cachedConstructor)
        && r == (if old(cachedConstructor).value.javaMember.Some? then Ok(old(cachedConstructor).value.javaMember.value) else Err(NoConstructor))
      ensures old(cachedConstructor).None? && ConflictingConstructors() ==> r.Err? && cachedConstructor == None
      ensures old(cachedConstructor).None? && !ConflictingConstructors() ==>
        && cachedConstructor == Some(ChosenConstructor())
        && (NamedConstructor(injectionPoints).Some? ==> r == Ok(NamedConstructor(injectionPoints).value))
        && (NamedConstructor(injectionPoints).None? ==>
              r == (if annotatedType.noArgConstructor.Some? then Ok(annotatedType.noArgConstructor.value) else Err(NoConstructor)))
    {
      var c := GetConstructor();
      if c.Err? {
        return Err(c.error);
      }
      if c.value.javaMember.None? {
        return Err(NoConstructor);
      }
      r := Ok(c.value.javaMember.value);
    }

    /** The `@PostConstruct` method invoked on an instance, if there is one. */
    method PostConstruct() returns (invoked: Option<Member>)
      ensures invoked.Some? <==> postConstructMethod.Some?
      ensures invoked.Some? ==> invoked.value == postConstructMethod.value
    {
      invoked := None;
      if postConstructMethod.Some? {
        invoked := Some(postConstructMethod.value);
      }
    }

    /** The `@PreDestroy` method invoked on an instance, if there is one. */
    method PreDestroy() returns (invoked: Option<Member>)
      ensures invoked.Some? <==> preDestroyMethod.Some?
      ensures invoked.Some? ==> invoked.value == preDestroyMethod.value
    {
      invoked := None;
      if preDestroyMethod.Some? {
        invoked := Some(preDestroyMethod.value);
      }
    }

    /** Disposing of an instance does nothing. */
    method Dispose() returns (invoked: Option<Member>)
      ensures invoked == None
    {
      invoked := None;
    }
  }

  /**
   * As written, a bean whose only constructor is its `@Inject` constructor cannot
   * be produced: the constructor its injection points name is found and dropped,
   * and there is no no-argument constructor to fall back on.
   */
  method InjectConstructorOnlyBeanAsWritten() returns (r: Result<Member, string>)
    ensures r == Err(NoConstructor)
  {
    var ctor := Member("Foo", "Foo", ["Bar"], ConstructorMember, false, [[]]);
    var target := new InjectionTargetImpl(AnnotatedType("Foo", [], None), [InjectionPoint(ctor, AnnotatedConstructor(ctor))], None, None);
    r := target.ProduceAsWritten();
  }

  /** With the named constructor kept, the same bean is produced with its `@Inject` constructor. */
  method InjectConstructorOnlyBeanIsProduced() returns (r: Result<Member, string>)
    ensures r == Ok(Member("Foo", "Foo", ["Bar"], ConstructorMember, false, [[]]))
  {
    var ctor := Member("Foo", "Foo", ["Bar"], ConstructorMember, false, [[]]);
    var target := new InjectionTargetImpl(AnnotatedType("Foo", [], None), [InjectionPoint(ctor, AnnotatedConstructor(ctor))], None, None);
    r := target.Produce();
  }
}
