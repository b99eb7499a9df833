/**
 * The method handler behind the client proxy of a normal-scoped bean: every call
 * on the proxy is redirected to the bean's contextual instance in its scope's
 * context, which is fetched, or created with a creational context, on demand.
 */
module ClientProxy {
  import opened Wrappers

  type BeanRef = nat
  type Instance = nat
  type CreationalContextRef = nat

  /** A weak reference: `referent` is `None` once the garbage collector has cleared it. */
  datatype WeakRef = WeakRef(referent: Option<CreationalContextRef>)

  /** One creation of a contextual instance: the bean, and the creational context it was given. */
  datatype Creation = Creation(bean: BeanRef, cc: Option<CreationalContextRef>)

  /**
   * The context of a normal scope: the contextual instances it holds, the
   * creational contexts it keeps when it is an `AbstractContext`, and the
   * creations it has performed.
   */
  class ScopeContext {
    const isAbstractContext: bool
    var instances: map<BeanRef, Instance>
    var creationalContexts: map<BeanRef, CreationalContextRef>
    var creations: seq<Creation>

    constructor (isAbstractContext: bool, instances: map<BeanRef, Instance>, creationalContexts: map<BeanRef, CreationalContextRef>)
      ensures this.isAbstractContext == isAbstractContext
      ensures this.instances == instances && this.creationalContexts == creationalContexts && creations == []
    {
      this.isAbstractContext := isAbstractContext;
      this.instances := instances;
      this.creationalContexts := creationalContexts;
      creations := [];
    }

    /**
     * The contextual instance of `bean`, created with `cc` if there is none yet;
     * `created` is the instance the bean's `create(cc)` returns.
     */
    method GetOrCreate(bean: BeanRef, cc: Option<CreationalContextRef>, created: Instance) returns (instance: Instance)
      modifies this
      ensures bean in old(instances) ==> instance == old(instances)[bean] && instances == old(instances) && creations == old(creations)
      ensures bean !in old(instances) ==>
        && instance == created
        && instances == old(instances)[bean := created]
        && creations == old(creations) + [Creation(bean, cc)]
      ensures creationalContexts == old(creationalContexts)
    {
      if bean in instances {
        return instances[bean];
      }
      instances := instances[bean := created];
      creations := creations + [Creation(bean, cc)];
      instance := created;
    }
  }

  /**
   * The creational context the handler holds: `None` when its field is null (as
   * after deserialisation) or when the weak reference has been cleared.
   */
  function Held(field: Option<WeakRef>): Option<CreationalContextRef>
  {
    if field.Some? then field.value.referent else None
  }

  /**
   * The creational context a creation should use: the one the context keeps for
   * the bean when it is an `AbstractContext` that has one, else the one the handler
   * holds, else a fresh one.
   */
  function ChosenCreationalContext(
    isAbstractContext: bool, kept: map<BeanRef, CreationalContextRef>, bean: BeanRef,
    held: Option<CreationalContextRef>, newContext: CreationalContextRef): CreationalContextRef
  {
    if isAbstractContext && bean in kept then kept[bean]
    else if held.Some? then held.value
    else newContext
  }

  /** The `NullPointerException` of dereferencing the handler's null creational-context field. */
  datatype Failure = NullDereference

  /** What a proxied call is handed on with: the target instance and the creational context. */
  datatype Call = Call(target: Instance, cc: Option<CreationalContextRef>)

  class NormalScopedBeanInterceptorHandler {
    const bean: BeanRef
    /** The creational-context field: `None` while it is null, otherwise a weak reference. */
    var creationalContext: Option<WeakRef>

    constructor (bean: BeanRef, creationalContext: Option<CreationalContextRef>)
      ensures this.bean == bean && this.creationalContext == Some(WeakRef(creationalContext))
    {
      this.bean := bean;
      this.creationalContext := Some(WeakRef(creationalContext));
    }

    /** The handler as deserialisation leaves it: the transient creational-context field is null. */
    constructor Deserialised(bean: BeanRef)
      ensures this.bean == bean && creationalContext == None
    {
      this.bean := bean;
      creationalContext := None;
    }

    /**
     * The contextual instance of the bean, as the handler looks it up: the
     * instance already in `context`, or a new one created there with the chosen
     * creational context. `newContext` is the creational context the factory would
     * make and `created` the instance creation returns. `gcBeforeUse` says whether
     * the garbage collector clears the handler's weak reference between choosing
     * the creational context and handing it to the context.
     */
    method GetContextualInstanceAsWritten(
      context: ScopeContext, newContext: CreationalContextRef, created: Instance, gcBeforeUse: bool)
      returns (instance: Instance)
      modifies this, context
      ensures bean in old(context.instances) ==>
        && instance == old(context.instances)[bean]
        && context.instances == old(context.instances) && context.creations == old(context.creations)
        && creationalContext == old(creationalContext)
      ensures bean !in old(context.instances) ==>
        var adopted := context.isAbstractContext && bean in context.creationalContexts;
        var chosen := ChosenCreationalContext(context.isAbstractContext, context.creationalContexts, bean, Held(old(creationalContext)), newContext);
        var used := if gcBeforeUse && !adopted then None else Some(chosen);
        && instance == created
        && context.instances == old(context.instances)[bean := created]
        && context.creations == old(context.creations) + [Creation(bean, used)]
        && creationalContext == Some(WeakRef(used))
      ensures context.creationalContexts == old(context.creationalContexts)
    {
      if bean in context.instances {
        return context.instances[bean];
      }
      var adopted := false;
      if context.isAbstractContext {
        if bean in context.creationalContexts {
          creationalContext := Some(WeakRef(Some(context.creationalContexts[bean])));
          adopted := true;
        }
      }
      if Held(creationalContext).None? {
        // if there was no creational context set from outside, a new one is created
        creationalContext := Some(WeakRef(Some(newContext)));
      }
      if gcBeforeUse && !adopted {
        // nothing but the weak reference holds the creational context here
        creationalContext := Some(WeakRef(None));
      }
      instance := context.GetOrCreate(bean, creationalContext.value.referent, created);
    }

    /**
     * The contextual instance of the bean, with the creational context held in a
     * local variable from the moment it is chosen until the creation, so that the
     * creation always receives one, whatever the garbage collector does meanwhile.
     */
    method GetContextualInstance(context: ScopeContext, newContext: CreationalContextRef, created: Instance)
      returns (instance: Instance)
      modifies this, context
      ensures bean in old(context.instances) ==>
        && instance == old(context.instances)[bean]
        && context.instances == old(context.instances) && context.creations == old(context.creations)
        && creationalContext == old(creationalContext)
      ensures bean !in old(context.instances) ==>
        var chosen := ChosenCreationalContext(context.isAbstractContext, context.creationalContexts, bean, Held(old(creationalContext)), newContext);
        && instance == created
        && context.instances == old(context.instances)[bean := created]
        && context.creations == old(context.creations) + [Creation(bean, Some(chosen))]
        && creationalContext == Some(WeakRef(Some(chosen)))
      ensures context.creationalContexts == old(context.creationalContexts)
      ensures bean in context.instances && instance == context.instances[bean]
    {
      if bean in context.instances {
        return context.instances[bean];
      }
      if context.isAbstractContext {
        if bean in context.creationalContexts {
          creationalContext := Some(WeakRef(Some(context.creationalContexts[bean])));
        }
      }
      var cc := Held(creationalContext);
      if cc.None? {
        cc := Some(newContext);
        creationalContext := Some(WeakRef(cc));
      }
      instance := context.GetOrCreate(bean, cc, created);
    }

    /**
     * A call on the proxy, as written: the contextual instance is looked up, then
     * the creational-context field is dereferenced, which fails when it is null.
     */
    method InvokeAsWritten(
      proxy: Instance, context: ScopeContext, newContext: CreationalContextRef, created: Instance, gcBeforeUse: bool)
      returns (r: Result<Call, Failure>)
      modifies this, context
      ensures bean in old(context.instances) ==>
        && context.instances == old(context.instances) && context.creations == old(context.creations)
        && creationalContext == old(creationalContext)
        && r == (if old(creationalContext).None? then Err(NullDereference)
                 else Ok(Call(old(context.instances)[bean], old(creationalContext).value.referent)))
      ensures bean !in old(context.instances) ==>
        var adopted := context.isAbstractContext && bean in context.creationalContexts;
        var chosen := ChosenCreationalContext(context.isAbstractContext, context.creationalContexts, bean, Held(old(creationalContext)), newContext);
        var used := if gcBeforeUse && !adopted then None else Some(chosen);
        && context.instances == old(context.instances)[bean := created]
        && context.creations == old(context.creations) + [Creation(bean, used)]
        && creationalContext == Some(WeakRef(used))
        && r == Ok(Call(created, used))
      ensures context.creationalContexts == old(context.creationalContexts)
    {
      var target := GetContextualInstanceAsWritten(context, newContext, created, gcBeforeUse);
      if creationalContext.None? {
        return Err(NullDereference);
      }
      r := Ok(Call(target, creationalContext.value.referent));
    }

    /**
     * The invocation context for around-invoke interceptors, as written: it targets
     * the contextual instance and dereferences the creational-context field.
     */
    method CallAroundInvokesAsWritten(
      context: ScopeContext, newContext: CreationalContextRef, created: Instance, gcBeforeUse: bool)
      returns (r: Result<Call, Failure>)
      modifies this, context
      ensures bean in old(context.instances) ==>
        && context.instances == old(context.instances) && context.creations == old(context.creations)
        && creationalContext == old(creationalContext)
        && r == (if old(creationalContext).None? then Err(NullDereference)
                 else Ok(Call(old(context.instances)[bean], old(creationalContext).value.referent)))
      ensures bean !in old(context.instances) ==>
        var adopted := context.isAbstractContext && bean in context.creationalContexts;
        var chosen := ChosenCreationalContext(context.isAbstractContext, context.creationalContexts, bean, Held(old(creationalContext)), newContext);
        var used := if gcBeforeUse && !adopted then None else Some(chosen);
        && context.instances == old(context.instances)[bean := created]
        && context.creations == old(context.creations) + [Creation(bean, used)]
        && creationalContext == Some(WeakRef(used))
        && r == Ok(Call(created, used))
      ensures context.creationalContexts == old(context.creationalContexts)
    {
      var target := GetContextualInstanceAsWritten(context, newContext, created, gcBeforeUse);
      if creationalContext.None? {
        return Err(NullDereference);
      }
      r := Ok(Call(target, creationalContext.value.referent));
    }

    /**
     * A call on the proxy: it goes to the contextual instance, never to the proxy
     * itself, with the creational context the handler holds (none when its field is
     * null), and a new instance is always created with a creational context.
     */
    method Invoke(proxy: Instance, context: ScopeContext, newContext: CreationalContextRef, created: Instance)
      returns (call: Call)
      modifies this, context
      ensures bean in old(context.instances) ==>
        && context.instances == old(context.instances) && context.creations == old(context.creations)
        && creationalContext == old(creationalContext)
        && call == Call(old(context.instances)[bean], Held(old(creationalContext)))
      ensures bean !in old(context.instances) ==>
        var chosen := ChosenCreationalContext(context.isAbstractContext, context.creationalContexts, bean, Held(old(creationalContext)), newContext);
        && context.instances == old(context.instances)[bean := created]
        && context.creations == old(context.creations) + [Creation(bean, Some(chosen))]
        && creationalContext == Some(WeakRef(Some(chosen)))
        && call == Call(created, Some(chosen))
      ensures context.creationalContexts == old(context.creationalContexts)
      ensures bean in context.instances && call.target == context.instances[bean]
    {
      var target := GetContextualInstance(context, newContext, created);
      call := Call(target, Held(creationalContext));
    }

    /** The invocation context for around-invoke interceptors targets the contextual instance in the same way. */
    method CallAroundInvokes(context: ScopeContext, newContext: CreationalContextRef, created: Instance)
      returns (call: Call)
      modifies this, context
      ensures bean in old(context.instances) ==>
        && context.instances == old(context.instances) && context.creations == old(context.creations)
        && creationalContext == old(creationalContext)
        && call == Call(old(context.instances)[bean], Held(old(creationalContext)))
      ensures bean !in old(context.instances) ==>
        var chosen := ChosenCreationalContext(context.isAbstractContext, context.creationalContexts, bean, Held(old(creationalContext)), newContext);
        && context.instances == old(context.instances)[bean := created]
        && context.creations == old(context.creations) + [Creation(bean, Some(chosen))]
        && creationalContext == Some(WeakRef(Some(chosen)))
        && call == Call(created, Some(chosen))
      ensures context.creationalContexts == old(context.creationalContexts)
      ensures bean in context.instances && call.target == context.instances[bean]
    {
      var target := GetContextualInstance(context, newContext, created);
      call := Call(target, Held(creationalContext));
    }
  }

  /**
   * As written, a contextual instance can be created without a creational context:
   * the handler's reference had been cleared, a fresh creational context is made
   * and held only weakly, and the collector clears it before it is used.
   */
  method CreationWithoutCreationalContext() returns (used: Option<CreationalContextRef>)
    ensures used == None
  {
    var context := new ScopeContext(false, map[], map[]);
    var handler := new NormalScopedBeanInterceptorHandler(1, None);
    var _ := handler.GetContextualInstanceAsWritten(context, 7, 42, true);
    used := context.creations[0].cc;
  }

  /** With the creational context held locally, the same scenario creates with the fresh creational context. */
  method CreationWithHeldCreationalContext() returns (used: Option<CreationalContextRef>)
    ensures used == Some(7)
  {
    var context := new ScopeContext(false, map[], map[]);
    var handler := new NormalScopedBeanInterceptorHandler(1, None);
    var _ := handler.GetContextualInstance(context, 7, 42);
    used := context.creations[0].cc;
  }

  /**
   * As written, a call on a deserialised handler whose bean already has an instance
   * fails: the lookup returns early and the null field is dereferenced.
   */
  method InvokeAfterDeserialisationFails() returns (r: Result<Call, Failure>)
    ensures r == Err(NullDereference)
  {
    var context := new ScopeContext(false, map[1 := 42], map[]);
    var handler := new NormalScopedBeanInterceptorHandler.Deserialised(1);
    r := handler.InvokeAsWritten(0, context, 7, 43, false);
  }

  /** With the null field read as "no creational context", the same call reaches the existing instance. */
  method InvokeAfterDeserialisationProceeds() returns (call: Call)
    ensures call == Call(42, None)
  {
    var context := new ScopeContext(false, map[1 := 42], map[]);
    var handler := new NormalScopedBeanInterceptorHandler.Deserialised(1);
    call := handler.Invoke(0, context, 7, 43);
  }
}
