/**
 * The per-application registry of container managers: a table from class names
 * to the single instance of that class, filled with the built-in managers when
 * the context is created and extended on demand by instantiating a class by name.
 */
module ManagerRegistry {
  import opened Wrappers

  /** The class name under which the context registers itself. */
  const WebBeansContextName := "org.apache.webbeans.config.WebBeansContext"

  const AlternativesManagerName := "org.apache.webbeans.inject.AlternativesManager"
  const AnnotatedElementFactoryName := "org.apache.webbeans.portable.AnnotatedElementFactory"
  const BeanManagerImplName := "org.apache.webbeans.container.BeanManagerImpl"
  const CreationalContextFactoryName := "org.apache.webbeans.context.creational.CreationalContextFactory"
  const DecoratorsManagerName := "org.apache.webbeans.decorator.DecoratorsManager"
  const DefaultContextsServiceName := "org.apache.webbeans.corespi.se.DefaultContextsService"
  const DefaultJndiServiceName := "org.apache.webbeans.corespi.se.DefaultJndiService"
  const DefaultScannerServiceName := "org.apache.webbeans.corespi.se.DefaultScannerService"
  const ExtensionLoaderName := "org.apache.webbeans.portable.events.ExtensionLoader"
  const InterceptorsManagerName := "org.apache.webbeans.intercept.InterceptorsManager"
  const JmsManagerName := "org.apache.webbeans.jms.JMSManager"
  const JavassistProxyFactoryName := "org.apache.webbeans.proxy.JavassistProxyFactory"
  const OpenWebBeansConfigurationName := "org.apache.webbeans.config.OpenWebBeansConfiguration"
  const PluginLoaderName := "org.apache.webbeans.plugins.PluginLoader"
  const SerializableBeanVaultName := "org.apache.webbeans.container.SerializableBeanVault"
  const StereoTypeManagerName := "org.apache.webbeans.deployment.StereoTypeManager"
  const WebBeansNameSpaceContainerName := "org.apache.webbeans.xml.WebBeansNameSpaceContainer"
  const XmlAnnotationTypeManagerName := "org.apache.webbeans.xml.XMLAnnotationTypeManager"
  const XmlSpecializesManagerName := "org.apache.webbeans.xml.XMLSpecializesManager"

  /** The built-in managers, in the order the constructor registers them. */
  const ManagerClassNames: seq<string> := [
    AlternativesManagerName, AnnotatedElementFactoryName, BeanManagerImplName,
    CreationalContextFactoryName, DecoratorsManagerName, DefaultContextsServiceName,
    DefaultJndiServiceName, DefaultScannerServiceName, ExtensionLoaderName,
    InterceptorsManagerName, JmsManagerName, JavassistProxyFactoryName,
    OpenWebBeansConfigurationName, PluginLoaderName, SerializableBeanVaultName,
    StereoTypeManagerName, WebBeansNameSpaceContainerName, XmlAnnotationTypeManagerName,
    XmlSpecializesManagerName]

  /**
   * An object the registry can hold: the context itself, one of the managers the
   * context creates along with itself, or an instance made by name on demand,
   * with the constructor it was made with.
   */
  datatype Obj =
    | TheContext
    | BuiltInManager(className: string)
    | CreatedInstance(className: string, takesContext: bool)

  /** Why a constructor call fails: an abstract class, an exception in the constructor, or no access. */
  datatype ConstructionFailure = NotInstantiable | ConstructorThrew | NotAccessible

  /**
   * What the class loader knows about a class: whether it has a public constructor
   * taking the context, whether it has a public no-argument one, and whether
   * calling the chosen constructor fails.
   */
  datatype ClassInfo = ClassInfo(hasContextConstructor: bool, hasNoArgConstructor: bool, failure: Option<ConstructionFailure>)

  /** The `WebBeansException` thrown when creating an instance fails. */
  datatype Failure =
    | ClassNotFound(className: string)
    | NoSuitableConstructor(className: string)
    | UnableToInstantiate(className: string)
    | IllegalAccess(className: string)

  /**
   * Creates an instance of class `name`, found through `classes`: a constructor
   * taking the context is preferred over a no-argument one.
   */
  function CreateInstance(name: string, classes: map<string, ClassInfo>): (r: Result<Obj, Failure>)
    ensures name !in classes ==> r == Err(ClassNotFound(name))
    ensures r.Ok? <==>
      name in classes && classes[name].failure.None?
      && (classes[name].hasContextConstructor || classes[name].hasNoArgConstructor)
    ensures r.Ok? ==> r.value == CreatedInstance(name, classes[name].hasContextConstructor)
    ensures name in classes && !classes[name].hasContextConstructor && !classes[name].hasNoArgConstructor ==>
      r == Err(NoSuitableConstructor(name))
  {
    if name !in classes then Err(ClassNotFound(name))
    else
      var info := classes[name];
      if !info.hasContextConstructor && !info.hasNoArgConstructor then Err(NoSuitableConstructor(name))
      else if info.failure == Some(NotAccessible) then Err(IllegalAccess(name))
      else if info.failure.Some? then Err(UnableToInstantiate(name))
      else Ok(CreatedInstance(name, info.hasContextConstructor))
  }

  /** The table a freshly created context holds: itself and every built-in manager under its class name. */
  predicate IsInitialTable(m: map<string, Obj>)
  {
    && WebBeansContextName in m && m[WebBeansContextName] == TheContext
    && (forall i :: 0 <= i < |ManagerClassNames| ==>
          ManagerClassNames[i] in m && m[ManagerClassNames[i]] == BuiltInManager(ManagerClassNames[i]))
    && (forall n :: n in m ==> n == WebBeansContextName || n in ManagerClassNames)
  }

  /** The context's own class name is not the class name of a built-in manager, so no registration hides it. */
  lemma ContextIsNotAManager()
    ensures WebBeansContextName !in ManagerClassNames
  {
  }

  class WebBeansContext {
    var managerMap: map<string, Obj>

    /**
     * Registers the context itself under its own class name, then each built-in
     * manager under its class name, in the order of `ManagerClassNames`.
     */
    constructor ()
      ensures IsInitialTable(managerMap)
    {
      managerMap := map[];
      new;
      managerMap := managerMap[WebBeansContextName := TheContext];
      ContextIsNotAManager();
      for i := 0 to |ManagerClassNames|
        invariant WebBeansContextName in managerMap && managerMap[WebBeansContextName] == TheContext
        invariant forall j :: 0 <= j < i ==>
          ManagerClassNames[j] in managerMap && managerMap[ManagerClassNames[j]] == BuiltInManager(ManagerClassNames[j])
        invariant forall n :: n in managerMap ==> n == WebBeansContextName || n in ManagerClassNames[..i]
      {
        var name := ManagerClassNames[i];
        managerMap := managerMap[name := BuiltInManager(name)];
      }
    }

    /**
     * The object registered under `singletonName`; when there is none, one is
     * created and registered, so that every later call returns the same object.
     */
    method Get(singletonName: string, classes: map<string, ClassInfo>) returns (r: Result<Obj, Failure>)
      modifies this
      ensures singletonName in old(managerMap) ==> r == Ok(old(managerMap)[singletonName]) && managerMap == old(managerMap)
      ensures singletonName !in old(managerMap) ==>
        && r == CreateInstance(singletonName, classes)
        && managerMap == (if r.Ok? then old(managerMap)[singletonName := r.value] else old(managerMap))
      ensures r.Ok? ==> singletonName in managerMap && managerMap[singletonName] == r.value
    {
      if singletonName in managerMap {
        return Ok(managerMap[singletonName]);
      }
      // no singleton for this application yet: create one and save it
      r := CreateInstance(singletonName, classes);
      if r.Ok? {
        managerMap := managerMap[singletonName := r.value];
      }
    }

    /** Forgets every registration. */
    method Clear()
      modifies this
      ensures managerMap == map[]
    {
      managerMap := map[];
    }
  }

  /** A second lookup of a name returns what the first one returned, whatever the class loader says by then. */
  method GetIsMemoised(context: WebBeansContext, name: string, classes: map<string, ClassInfo>, laterClasses: map<string, ClassInfo>)
    returns (first: Result<Obj, Failure>, second: Result<Obj, Failure>)
    modifies context
    ensures first.Ok? ==> second == first
  {
    first := context.Get(name, classes);
    second := context.Get(name, laterClasses);
  }

  /** On a freshly created context, looking up a built-in manager's class name returns that manager and creates nothing. */
  method BuiltInManagersAreFound(i: nat) returns (r: Result<Obj, Failure>)
    requires i < |ManagerClassNames|
    ensures r == Ok(BuiltInManager(ManagerClassNames[i]))
  {
    var context := new WebBeansContext();
    r := context.Get(ManagerClassNames[i], map[]);
  }

  /** After `Clear`, looking up a built-in manager's name creates a new instance instead. */
  method ClearForgetsBuiltInManagers(i: nat, classes: map<string, ClassInfo>) returns (r: Result<Obj, Failure>)
    requires i < |ManagerClassNames|
    ensures r == CreateInstance(ManagerClassNames[i], classes)
    ensures r != Ok(BuiltInManager(ManagerClassNames[i]))
  {
    var context := new WebBeansContext();
    context.Clear();
    r := context.Get(ManagerClassNames[i], classes);
  }
}
