# OpenWebBeans container core, modelled in Dafny

This project models six pieces of the Apache OpenWebBeans CDI container as verified Dafny:

- **Conversation registry** (`ConversationManager`). A table from conversations to their conversation contexts. It has add, remove and lookup. It can search by conversation id, or by id and session id. It has three bulk removals: by session, by expired timeout, and of everything. Each bulk removal destroys the contexts it removes. Every `destroy()` call is recorded in a bag of `Destruction` records, so "destroyed exactly once" can be stated.
- **Injection target** (`InjectionTargetImpl`). Injection into a new instance is a trace of injection actions:
  - superclass levels come first;
  - within one level: fields, then methods with injection points (each method once, and never producer, disposal or observer methods), then parameterless `@Inject` initializers.

  The target also handles lazily built, cached constructor selection and the life-cycle callbacks.
- **Producer-field beans** (`ProducerFieldBeansBuilder`). Defines one bean per `@Produces` field declared by the class itself. Resource producer fields carrying `@Named` are rejected. Vetoed resource fields contribute nothing.
- **Client-proxy handler** (`NormalScopedBeanInterceptorHandler`). Finds the bean's contextual instance in its scope's context, or creates it there with a chosen creational context. The handler holds that creational context through a weak reference. Every proxied call goes to this instance.
- **Manager registry** (`WebBeansContext`). A memo table from class names to singletons. It starts with the context itself and its nineteen built-in managers. Missing names are filled on demand by a constructor-choice rule, and the table can be cleared.
- **Deployment scanner** (`WebBeansScanner`). Derives the beans.xml location of each marked classpath root (a `jar:` or `file:` URL). Records those locations, collects the archives, builds the annotation database once, and runs the whole scan at most once.

The modelling conventions:
- Java `null` arguments are `Option` values.
- An exception a caller can observe is the `Err` case of a `Result`.
- Classes whose fields the source updates in place are Dafny classes holding those fields. Two differences: the logs `destroyed` and `creations` are added so that destructions and creations can be stated, and collaborators that are not modelled (`context`, `logger`) are dropped.
- Loops are proved against a specification function, or against quantified postconditions for the constructor-selection loop and the conversation lookups.
- The wall clock is a `now` parameter. The class loader is a map from class names to what is known about each class. The servlet context and the classpath search are parameters. The garbage collector is a boolean oracle.

## Model

| member | source | states |
|---|---|---|
| Conversations.ConversationManager.constructor | webbeans-impl/src/main/java/org/apache/webbeans/conversation/ConversationManager.java:46-54 | a new registry holds no conversations and has destroyed nothing |
| Conversations.ConversationManager.AddConversationContext | webbeans-impl/src/main/java/org/apache/webbeans/conversation/ConversationManager.java:72-75 | the conversation now maps to the given context, replacing any earlier one; every other entry is unchanged and nothing is destroyed |
| Conversations.ConversationManager.IsConversationExistWithGivenId | webbeans-impl/src/main/java/org/apache/webbeans/conversation/ConversationManager.java:82-98 | true exactly when the id is non-null and some stored conversation has exactly that id |
| Conversations.ConversationManager.RemoveConversation | webbeans-impl/src/main/java/org/apache/webbeans/conversation/ConversationManager.java:105-110 | a null conversation is rejected and changes nothing; otherwise only that key is removed, and its previous context (or null) is returned |
| Conversations.ConversationManager.GetConversationContext | webbeans-impl/src/main/java/org/apache/webbeans/conversation/ConversationManager.java:117-122 | a null conversation is rejected; otherwise the stored context is returned, or null when the conversation is not stored; the table is not changed |
| Conversations.ConversationManager.GetPropogatedConversation | webbeans-impl/src/main/java/org/apache/webbeans/conversation/ConversationManager.java:130-149 | a null id or session id is rejected; a returned conversation is stored and matches both; null is returned only when no stored conversation matches both |
| Conversations.ConversationManager.DestroyConversationContextWithSessionId | webbeans-impl/src/main/java/org/apache/webbeans/conversation/ConversationManager.java:155-176 | a null session id is rejected and changes nothing; otherwise exactly that session's entries are removed, every other entry survives, and each removed context is destroyed exactly once |
| Conversations.ConversationManager.DestroyWithRespectToTimout | webbeans-impl/src/main/java/org/apache/webbeans/conversation/ConversationManager.java:195-220 | exactly the entries with a non-zero timeout that were idle longer than it at `now` are removed, each removed context destroyed exactly once; all others remain |
| Conversations.ConversationManager.DestroyAllConversations | webbeans-impl/src/main/java/org/apache/webbeans/conversation/ConversationManager.java:225-238 | every stored context is destroyed exactly once and the table is left empty |
| Conversations.SweepStep | webbeans-impl/src/main/java/org/apache/webbeans/conversation/ConversationManager.java:163-175 | one iterator step of a bulk removal removes the visited entry and adds exactly its destruction when, and only when, it is to be removed |
| Conversations.SweepThenDestroyAllDestroysEachOnce | webbeans-impl/src/main/java/org/apache/webbeans/conversation/ConversationManager.java:155-238 | a bulk removal followed by destroying all that remains destroys every original entry exactly once |
| Conversations.ZeroTimeoutNeverExpires | webbeans-impl/src/main/java/org/apache/webbeans/conversation/ConversationManager.java:204-206 | a conversation with timeout 0 survives every timeout sweep |
| Conversations.ExpiryIsMonotone | webbeans-impl/src/main/java/org/apache/webbeans/conversation/ConversationManager.java:204-208 | a sweep at a later time removes at least what an earlier one would |
| Injection.HasParameterAnnotation | webbeans-impl/src/main/java/org/apache/webbeans/portable/InjectionTargetImpl.java:253-263 | true exactly when some annotation of some parameter is the given one |
| Injection.IsProducerMethod | webbeans-impl/src/main/java/org/apache/webbeans/portable/InjectionTargetImpl.java:241-244 | an injection point belongs to a producer method exactly when its member carries `@Produces` |
| Injection.IsObserverMethod | webbeans-impl/src/main/java/org/apache/webbeans/portable/InjectionTargetImpl.java:246-264 | true exactly when the member is a method and some annotation of some parameter is `@Observes` |
| Injection.IsDisposalMethod | webbeans-impl/src/main/java/org/apache/webbeans/portable/InjectionTargetImpl.java:266-284 | true exactly when the member is a method and some annotation of some parameter is `@Disposes` |
| Injection.FieldPlan | webbeans-impl/src/main/java/org/apache/webbeans/portable/InjectionTargetImpl.java:113-125 | the field injections of a level are field injections of members declared at that level |
| Injection.MethodPlan | webbeans-impl/src/main/java/org/apache/webbeans/portable/InjectionTargetImpl.java:127-145 | the method injections of a level are method injections of members declared at that level, no method twice |
| Injection.InitializerPlan | webbeans-impl/src/main/java/org/apache/webbeans/portable/InjectionTargetImpl.java:151-160 | the initializer calls of a level are initializer calls of methods declared at that level |
| Injection.FieldPlanMembers | webbeans-impl/src/main/java/org/apache/webbeans/portable/InjectionTargetImpl.java:115-123 | a field is injected at a level if and only if one of its injection points is a field declared at that level |
| Injection.MethodPlanMembers | webbeans-impl/src/main/java/org/apache/webbeans/portable/InjectionTargetImpl.java:130-144 | a method is injected at a level if and only if it has an injection point declared there and it is not a producer, disposal or observer method |
| Injection.InitializerPlanMembers | webbeans-impl/src/main/java/org/apache/webbeans/portable/InjectionTargetImpl.java:153-159 | the initializers run at a level are exactly the type's parameterless `@Inject` methods declared at that level |
| Injection.LevelPlan | webbeans-impl/src/main/java/org/apache/webbeans/portable/InjectionTargetImpl.java:108-110 | one level injects only members it declares, fields before methods before initializers, and no method twice |
| Injection.Chain | webbeans-impl/src/main/java/org/apache/webbeans/portable/InjectionTargetImpl.java:101-107 | the levels visited stop before `java.lang.Object` |
| Injection.PlanLevels | webbeans-impl/src/main/java/org/apache/webbeans/portable/InjectionTargetImpl.java:101-111 | every injection action belongs to a class level on the instance's superclass chain |
| Injection.SuperclassLevelsFirst | webbeans-impl/src/main/java/org/apache/webbeans/portable/InjectionTargetImpl.java:101-111 | every action of a superclass level precedes every action of its subclass levels |
| Injection.FieldsThenMethodsThenInitializers | webbeans-impl/src/main/java/org/apache/webbeans/portable/InjectionTargetImpl.java:108-110 | within one level of the whole trace, field injections precede method injections, which precede initializer calls |
| Injection.MethodsInjectedOnce | webbeans-impl/src/main/java/org/apache/webbeans/portable/InjectionTargetImpl.java:129-141 | no method is injected twice into one instance, across all levels |
| Injection.SkippedMethodsNeverInjected | webbeans-impl/src/main/java/org/apache/webbeans/portable/InjectionTargetImpl.java:134-138 | producer methods, and methods with an `@Disposes` or `@Observes` parameter, are never injected as methods |
| Injection.InjectionTargetImpl.constructor | webbeans-impl/src/main/java/org/apache/webbeans/portable/InjectionTargetImpl.java:72-82 | the target keeps the type, injection points and callbacks it was given and has no constructor cached |
| Injection.InjectionTargetImpl.Inject | webbeans-impl/src/main/java/org/apache/webbeans/portable/InjectionTargetImpl.java:101-111 | the actions performed are the injection plan of the class (superclass levels first, stopping at null or `java.lang.Object`) |
| Injection.InjectionTargetImpl.InjectFields | webbeans-impl/src/main/java/org/apache/webbeans/portable/InjectionTargetImpl.java:113-125 | the loop performs exactly the level's field plan |
| Injection.InjectionTargetImpl.InjectMethods | webbeans-impl/src/main/java/org/apache/webbeans/portable/InjectionTargetImpl.java:127-145 | the loop and its injected-methods set perform exactly the level's method plan |
| Injection.InjectionTargetImpl.InjectInitializerMethods | webbeans-impl/src/main/java/org/apache/webbeans/portable/InjectionTargetImpl.java:151-160 | the loop performs exactly the level's initializer plan |
| Injection.NamedConstructor | webbeans-impl/src/main/java/org/apache/webbeans/portable/InjectionTargetImpl.java:217-224 | the constructor found is one that some injection point names, and none is found exactly when no injection point is a constructor |
| Injection.InjectionTargetImpl.FindConstructor | webbeans-impl/src/main/java/org/apache/webbeans/portable/InjectionTargetImpl.java:216-231 | the search fails exactly when the injection points name two different constructors, and otherwise finds the constructor they name, if any |
| Injection.InjectionTargetImpl.GetConstructorAsWritten | webbeans-impl/src/main/java/org/apache/webbeans/portable/InjectionTargetImpl.java:210-234 | a cached constructor is returned unchanged; otherwise, if the injection points name two different constructors, an error is raised and nothing is cached; otherwise the constructor built from the no-argument constructor is cached and returned, whatever constructor the injection points name |
| Injection.InjectionTargetImpl.GetConstructor | webbeans-impl/src/main/java/org/apache/webbeans/portable/InjectionTargetImpl.java:210-234 | as above, except that the constructor cached and returned is the one the injection points name when they name one, and the no-argument constructor only otherwise |
| Injection.InjectionTargetImpl.DefaultConstructor | webbeans-impl/src/main/java/org/apache/webbeans/portable/InjectionTargetImpl.java:232-239 | the constructor built from the no-argument constructor of the type's class, declared by that class |
| Injection.InjectionTargetImpl.ProduceAsWritten | webbeans-impl/src/main/java/org/apache/webbeans/portable/InjectionTargetImpl.java:85-88 | as written: instances are built with the cached constructor, cached on first use as the type's no-argument constructor; a first call whose injection points name two different constructors fails and caches nothing; building fails when the cached constructor has no constructor to call, as for a type without a no-argument constructor |
| Injection.InjectionTargetImpl.Produce | webbeans-impl/src/main/java/org/apache/webbeans/portable/InjectionTargetImpl.java:85-88 | instances are built with the cached constructor; on first use that is the constructor the injection points name, else the no-argument constructor; conflicting constructors fail and cache nothing; building fails exactly when there is no constructor to call |
| Injection.InjectionTargetImpl.PostConstruct | webbeans-impl/src/main/java/org/apache/webbeans/portable/InjectionTargetImpl.java:163-184 | the `@PostConstruct` method is invoked exactly when there is one, and nothing else is invoked |
| Injection.InjectionTargetImpl.PreDestroy | webbeans-impl/src/main/java/org/apache/webbeans/portable/InjectionTargetImpl.java:187-208 | the `@PreDestroy` method is invoked exactly when there is one, and nothing else is invoked |
| Injection.InjectionTargetImpl.Dispose | webbeans-impl/src/main/java/org/apache/webbeans/portable/InjectionTargetImpl.java:91-93 | disposing invokes nothing |
| Injection.InjectConstructorOnlyBeanAsWritten | webbeans-impl/src/main/java/org/apache/webbeans/portable/InjectionTargetImpl.java:216-233 | as written, a bean whose only constructor is its `@Inject` constructor cannot be produced |
| Injection.InjectConstructorOnlyBeanIsProduced | webbeans-impl/src/main/java/org/apache/webbeans/portable/InjectionTargetImpl.java:216-233 | with the named constructor kept, the same bean is produced with its `@Inject` constructor |
| ProducerFields.NewProducerFieldBeansBuilder | webbeans-impl/src/main/java/org/apache/webbeans/component/creation/ProducerFieldBeansBuilder.java:56-62 | a builder is created exactly when both the context and the annotated type are non-null, and it keeps both |
| ProducerFields.BeanFor | webbeans-impl/src/main/java/org/apache/webbeans/component/creation/ProducerFieldBeansBuilder.java:81-123 | a field yields no bean exactly when it is a resource field whose attributes were vetoed; a bean's producer field is the field it came from |
| ProducerFields.ProducerBeansMembers | webbeans-impl/src/main/java/org/apache/webbeans/component/creation/ProducerFieldBeansBuilder.java:71-125 | a bean is defined if and only if it is the bean of a `@Produces` field declared by the class itself |
| ProducerFields.PlainProducerFieldYieldsOneBean | webbeans-impl/src/main/java/org/apache/webbeans/component/creation/ProducerFieldBeansBuilder.java:105-123 | every considered non-resource field yields exactly one bean |
| ProducerFields.VetoedResourceYieldsNothing | webbeans-impl/src/main/java/org/apache/webbeans/component/creation/ProducerFieldBeansBuilder.java:94-104 | a resource field whose bean attributes come back null contributes no bean |
| ProducerFields.AtMostOneBeanPerField | webbeans-impl/src/main/java/org/apache/webbeans/component/creation/ProducerFieldBeansBuilder.java:69-127 | there are never more beans than considered fields |
| ProducerFields.DefineProducerFields | webbeans-impl/src/main/java/org/apache/webbeans/component/creation/ProducerFieldBeansBuilder.java:67-128 | a configuration error is raised exactly when a considered resource field carries `@Named`; otherwise the loop returns exactly the beans of the considered fields |
| ClientProxy.ScopeContext.GetOrCreate | webbeans-impl/src/main/java/org/apache/webbeans/intercept/NormalScopedBeanInterceptorHandler.java:122 | the context's get-or-create: an existing instance is returned and nothing changes; otherwise the created instance is stored and the creation is recorded with its creational context |
| ClientProxy.NormalScopedBeanInterceptorHandler.constructor | webbeans-impl/src/main/java/org/apache/webbeans/intercept/NormalScopedBeanInterceptorHandler.java:54-58 | the handler holds the given creational context weakly |
| ClientProxy.NormalScopedBeanInterceptorHandler.Deserialised | webbeans-impl/src/main/java/org/apache/webbeans/intercept/NormalScopedBeanInterceptorHandler.java:44-47 | a deserialised handler has a null creational-context field, because the field is transient |
| ClientProxy.NormalScopedBeanInterceptorHandler.GetContextualInstanceAsWritten | webbeans-impl/src/main/java/org/apache/webbeans/intercept/NormalScopedBeanInterceptorHandler.java:92-125 | an instance already in the context is returned and nothing changes, even a null field; otherwise the instance is created in the context with the creational context the `AbstractContext` keeps, else the one the handler holds, else a fresh one — or with none when the collector clears the weakly held one first — and the handler ends up referring to it |
| ClientProxy.NormalScopedBeanInterceptorHandler.GetContextualInstance | webbeans-impl/src/main/java/org/apache/webbeans/intercept/NormalScopedBeanInterceptorHandler.java:92-125 | as above, but creation always receives the chosen creational context, and afterwards the context holds the returned instance |
| ClientProxy.NormalScopedBeanInterceptorHandler.InvokeAsWritten | webbeans-impl/src/main/java/org/apache/webbeans/intercept/NormalScopedBeanInterceptorHandler.java:64-71 | as written: after the lookup, a handler whose field is still null fails with a null dereference (only possible when the instance already existed); otherwise the call goes to the contextual instance with the handler's creational context, and the new state is that of the as-written lookup |
| ClientProxy.NormalScopedBeanInterceptorHandler.CallAroundInvokesAsWritten | webbeans-impl/src/main/java/org/apache/webbeans/intercept/NormalScopedBeanInterceptorHandler.java:76-83 | as written: the around-invoke invocation context fails in the same way on a null field, and otherwise targets the contextual instance with the handler's creational context |
| ClientProxy.NormalScopedBeanInterceptorHandler.Invoke | webbeans-impl/src/main/java/org/apache/webbeans/intercept/NormalScopedBeanInterceptorHandler.java:64-71 | the call goes to the contextual instance, never to the proxy. An existing instance is passed on with the creational context the handler holds, or none when its field is null. A new instance is passed on with the chosen creational context, with which it was created and which the handler now holds |
| ClientProxy.NormalScopedBeanInterceptorHandler.CallAroundInvokes | webbeans-impl/src/main/java/org/apache/webbeans/intercept/NormalScopedBeanInterceptorHandler.java:76-83 | the around-invoke invocation context targets the contextual instance, with the same creational context and new state as a proxied call |
| ClientProxy.CreationWithoutCreationalContext | webbeans-impl/src/main/java/org/apache/webbeans/intercept/NormalScopedBeanInterceptorHandler.java:115-122 | as written, a contextual instance can be created with a null creational context |
| ClientProxy.CreationWithHeldCreationalContext | webbeans-impl/src/main/java/org/apache/webbeans/intercept/NormalScopedBeanInterceptorHandler.java:115-122 | with the creational context held locally, the same scenario creates with the fresh creational context |
| ClientProxy.InvokeAfterDeserialisationFails | webbeans-impl/src/main/java/org/apache/webbeans/intercept/NormalScopedBeanInterceptorHandler.java:67-70 | as written, a call on a deserialised handler whose bean already has an instance fails with a null dereference |
| ClientProxy.InvokeAfterDeserialisationProceeds | webbeans-impl/src/main/java/org/apache/webbeans/intercept/NormalScopedBeanInterceptorHandler.java:67-70 | with the null field read as "no creational context", the same call reaches the existing instance |
| ManagerRegistry.CreateInstance | webbeans-impl/src/main/java/org/apache/webbeans/config/WebBeansContext.java:221-269 | an unknown class, a class with neither constructor, or a failing constructor call raises an error; otherwise the instance is built with the context-taking constructor when the class has one, and with the no-argument constructor only when it does not |
| ManagerRegistry.ContextIsNotAManager | webbeans-impl/src/main/java/org/apache/webbeans/config/WebBeansContext.java:78-99 | no built-in manager registration overwrites the context's own entry |
| ManagerRegistry.WebBeansContext.constructor | webbeans-impl/src/main/java/org/apache/webbeans/config/WebBeansContext.java:75-100 | the table binds the context's own class name to the context and each of the nineteen built-in managers' class names to that manager, and nothing else |
| ManagerRegistry.WebBeansContext.Get | webbeans-impl/src/main/java/org/apache/webbeans/config/WebBeansContext.java:204-219 | a registered name returns its entry and changes nothing; an absent name gets the created instance stored and returned; a creation error leaves the table unchanged; after success the name maps to the result |
| ManagerRegistry.WebBeansContext.Clear | webbeans-impl/src/main/java/org/apache/webbeans/config/WebBeansContext.java:271-274 | the table is left empty |
| ManagerRegistry.GetIsMemoised | webbeans-impl/src/main/java/org/apache/webbeans/config/WebBeansContext.java:209-216 | a second lookup of a name returns what a successful first one returned |
| ManagerRegistry.BuiltInManagersAreFound | webbeans-impl/src/main/java/org/apache/webbeans/config/WebBeansContext.java:81-99 | on a new context, looking up a built-in manager's class name returns that manager without creating anything |
| ManagerRegistry.ClearForgetsBuiltInManagers | webbeans-impl/src/main/java/org/apache/webbeans/config/WebBeansContext.java:271-274 | after clearing, looking up a built-in manager's name creates a new instance rather than returning the built-in manager |
| Scanner.LastIndexOf | webbeans-impl/src/main/java/org/apache/webbeans/config/WebBeansScanner.java:138 | the index returned holds the character and no later index does; -1 means the character is absent |
| Scanner.UrlFileAfterScheme | webbeans-impl/src/main/java/org/apache/webbeans/config/WebBeansScanner.java:148 | the file part of a URL is everything after its scheme's colon, whatever colons follow |
| Scanner.BeansXmlLocation | webbeans-impl/src/main/java/org/apache/webbeans/config/WebBeansScanner.java:135-144 | a root whose file part ends in `.jar!/` gets `jar:` followed by its file part and `META-INF/beans.xml` (the text cut at the last `/` plus `/META-INF/beans.xml` comes to this); any other root gets `file:` followed by the same |
| Scanner.BeansXmlLocationFile | webbeans-impl/src/main/java/org/apache/webbeans/config/WebBeansScanner.java:136-144 | in both branches, the text after the scheme is the root's file part followed by `META-INF/beans.xml` |
| Scanner.MarkerLocationKeys | webbeans-impl/src/main/java/org/apache/webbeans/config/WebBeansScanner.java:128-149 | after the marked roots are visited, a key is recorded exactly when it was recorded before or is some root's file part followed by `META-INF/beans.xml` |
| Scanner.MarkerLocationOfLastRoot | webbeans-impl/src/main/java/org/apache/webbeans/config/WebBeansScanner.java:129-148 | a root's key holds the stream of that root's beans.xml location unless a later root shares its file part, since a later `put` replaces the entry |
| Scanner.MarkerStep | webbeans-impl/src/main/java/org/apache/webbeans/config/WebBeansScanner.java:129-148 | visiting one more root records exactly its location on top of what the roots before it recorded |
| Scanner.WebBeansScanner.constructor | webbeans-impl/src/main/java/org/apache/webbeans/config/WebBeansScanner.java:41-56 | a new scanner has no locations, no annotation database, no servlet context, and is not configured |
| Scanner.WebBeansScanner.Scan | webbeans-impl/src/main/java/org/apache/webbeans/config/WebBeansScanner.java:64-75 | once configured, a scan changes nothing; otherwise it records the servlet context, records the beans.xml locations and builds the annotation database over the archives, and it is configured exactly when that succeeds |
| Scanner.WebBeansScanner.ConfigureAnnotationDB | webbeans-impl/src/main/java/org/apache/webbeans/config/WebBeansScanner.java:78-103 | the annotation database is built over the archives only if there is none yet; a failure while collecting the archives is raised as a configuration error |
| Scanner.WebBeansScanner.GetArchives | webbeans-impl/src/main/java/org/apache/webbeans/config/WebBeansScanner.java:106-117 | the archives are every marked root, plus the web application's classes directory only when it exists |
| Scanner.WebBeansScanner.CreateUrlFromMarkerFile | webbeans-impl/src/main/java/org/apache/webbeans/config/WebBeansScanner.java:120-182 | every marked root is returned and has its beans.xml location recorded; a null search result yields nothing |
| Scanner.WebBeansScanner.RecordMarkerLocations | webbeans-impl/src/main/java/org/apache/webbeans/config/WebBeansScanner.java:129-149 | the loop returns every visited root and records each root's beans.xml location in visiting order, changing nothing else |
| Scanner.WebBeansScanner.CreateUrlFromWarFile | webbeans-impl/src/main/java/org/apache/webbeans/config/WebBeansScanner.java:184-196 | when the web application has a beans.xml it is recorded and the classes directory is returned; otherwise null is returned; without a servlet context this fails |

## Left out

- Concurrency. The thread safety of the conversation table's `ConcurrentHashMap` and its weakly consistent iterators is not modelled. Iteration order is unspecified, so the loops pick any unvisited key and destroyed contexts are recorded as a bag.
- Singleton lookups. `ConversationManager.getInstance`, `WebBeansContext.getInstance` and `ConversationManager.getConversationBeanReference` are lookups in a global container.
- Conversations.ConversationManager.DestroyWithRespectToTimout: integers are unbounded, so the 64-bit overflow of `now - activeTime` is not modelled. The wall clock is the `now` parameter.
- Conversations.ConversationManager.DestroyWithRespectToTimout: the clock is read once per sweep, as the `now` parameter. The code reads it again for each visited entry, so an entry visited later may be compared against a later time.
- Conversations.ConversationManager.AddConversationContext: a conversation is a value here, so a table key includes its timeout and active time. In the code the key is a mutable object whose timeout and active time the sweep reads when it visits it. There, re-adding a conversation after its active time changed replaces its entry. In the model it adds a second key, and a timeout sweep can then destroy the shared context through the stale key.
- Conversations.ConversationManager.AddConversationContext: the `NullPointerException` that the table's `put` throws for a null conversation or context is not modelled; both arguments are non-null here.
- Reflection and invocation are recorded as events and are not performed. This covers `doInjection`, `Constructor.newInstance`, `Method.invoke` and `setAccessible`. Exceptions thrown by an invoked `@PostConstruct` or `@PreDestroy` method are not modelled.
- Injection.InjectionTargetImpl.constructor: the null checks on the annotated type and on the web beans context are not modelled. The type is a non-null parameter, and the context is not part of the model.
- `InjectableConstructor.doInjection`, which line 87 calls, is not part of this model. Calling it without a constructor (a null `getJavaMember()`) is modelled as the failure `NoConstructor`. The type's no-argument constructor, which `WebBeansUtil.getNoArgConstructor` looks up, is a field of the annotated type, absent when the class has none.
- Bean construction for producer fields is outside the model: resource references, the bean builders, `validateProxyable`, `validate`, `setBeanEnableFlagForProducerBean` and `checkProducerGenericType`. Beans are records of owner, field and attributes.
  - A non-resource field whose attributes come back null still yields a bean, as in the code.
  - The order of the type's field set is a sequence, which cannot change the resulting set.
- The interceptor and decorator chain behind `super.invoke` and `InvocationContextImpl.proceed` is not modelled. Only the target instance and the creational context handed to them are.
- Scope contexts are not part of this model. `getBeanManager().getContext(scope)` is the `context` parameter. The context's `get`, `get(bean, cc)` and `getCreationalContext` follow the CDI contract: lookup, get-or-create, and lookup of the kept creational context.
- After deserialisation the transient `creationalContext` field is null; the model has a separate `Deserialised` constructor for that state. The lookup handles it at line 115 like a cleared reference. InterceptorHandler.java, the superclass that makes the handler serialisable, is not part of this model.
- ClientProxy.NormalScopedBeanInterceptorHandler.InvokeAsWritten: the weak reference being cleared between the lookup and the `creationalContext.get()` that follows is not modelled. The creational context passed on is the handler's reference as it stands after the lookup. The same holds for ClientProxy.NormalScopedBeanInterceptorHandler.CallAroundInvokesAsWritten and the corrected Invoke and CallAroundInvokes.
- ClientProxy.NormalScopedBeanInterceptorHandler.GetContextualInstanceAsWritten: the collector oracle never clears a creational context adopted from an `AbstractContext`, because that context holds it strongly.
- The managers' typed getters (`getBeanManagerImpl` and the others) are plain field accessors. The managers themselves are represented by their class names. After `clear`, those getters still return the original managers while `get` creates new instances. ManagerRegistry.ClearForgetsBuiltInManagers shows the second half.
- `this.getClass().getName()` is the fixed name `org.apache.webbeans.config.WebBeansContext`; subclasses of the context are not modelled. The class loader is a map from class names to what is known about each class. Class-loading failures other than "not found" are not modelled.
- Scanning I/O is outside the model: `ClasspathUrlFinder`, `WarUrlFinder`, `ServletContext.getResource`, `URL.openStream`, `AnnotationDB.scanArchives` and `crossReferenceMetaAnnotations`, along with their exceptions and logging. Their results are parameters, and a stream is represented by its URL.
- Scanner.WebBeansScanner.Scan: the only failure modelled is a missing servlet context. In the code that failure is a null dereference, which is wrapped into the configuration exception.
- Scanner.UrlFileAfterScheme: a URL's file part is modelled as the text after its scheme's colon. Authorities, queries and fragments, which `URL.getFile` also treats specially, are not modelled.
- The scanner's getters `getWEBBEANS_XML_LOCATIONS` and `getANNOTATION_DB` return the fields, which are public in the model.

## Findings

| source | as written | input that shows it | evidently intended | confidence | as-written member | corrected member |
|---|---|---|---|---|---|---|
| webbeans-impl/src/main/java/org/apache/webbeans/intercept/NormalScopedBeanInterceptorHandler.java:115-122 | the fresh creational context made at line 118 is stored only in a new `WeakReference`, and line 122 reads it back through that reference | a handler whose reference is cleared (or that was built with a null creational context), a context that is not an `AbstractContext`, and a garbage collection between lines 118 and 122: `context.get` receives a null creational context | a new contextual instance is always created with a creational context, as the comment at line 117 says | not executed | ClientProxy.NormalScopedBeanInterceptorHandler.GetContextualInstanceAsWritten, ClientProxy.CreationWithoutCreationalContext | ClientProxy.NormalScopedBeanInterceptorHandler.GetContextualInstance, ClientProxy.CreationWithHeldCreationalContext |
| webbeans-impl/src/main/java/org/apache/webbeans/intercept/NormalScopedBeanInterceptorHandler.java:64-83 | `invoke` and `callAroundInvokes` dereference the transient `creationalContext` field after the lookup. The lookup reassigns the field only when it creates an instance (lines 107-119), and returns early at lines 100-105 | a deserialised handler, so the field is null, whose bean already has an instance in its context: `this.creationalContext.get()` throws a `NullPointerException` | the call reaches the existing contextual instance, since line 115 shows the field is expected to be null at times | not executed | ClientProxy.NormalScopedBeanInterceptorHandler.InvokeAsWritten, ClientProxy.InvokeAfterDeserialisationFails | ClientProxy.NormalScopedBeanInterceptorHandler.Invoke, ClientProxy.InvokeAfterDeserialisationProceeds |
| webbeans-impl/src/main/java/org/apache/webbeans/portable/InjectionTargetImpl.java:216-233 | `getConstructor` finds the constructor that the injection points name, checks that they name only one, and then builds the cached constructor from the type's no-argument constructor instead (line 232), so the constructor found is never used | a bean class whose only constructor is its `@Inject Foo(Bar)` constructor: there is no no-argument constructor, so `produce` has no constructor to call and fails | instances are built with the `@Inject` constructor the injection points name, and with the no-argument constructor only when they name none | not executed | Injection.InjectionTargetImpl.GetConstructorAsWritten, Injection.InjectionTargetImpl.ProduceAsWritten, Injection.InjectConstructorOnlyBeanAsWritten | Injection.InjectionTargetImpl.GetConstructor, Injection.InjectionTargetImpl.Produce, Injection.InjectConstructorOnlyBeanIsProduced |
