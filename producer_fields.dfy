/**
 * Definition of the producer-field beans of a managed bean class: one bean per
 * `@Produces` field that the class itself declares, resource producer fields
 * that also carry `@Named` rejected.
 */
module ProducerFields {
  import opened Wrappers

  /** The bean attributes that the `ProcessBeanAttributes` event hands back; opaque here. */
  datatype BeanAttributes = BeanAttributes(id: nat)

  /**
   * A field of the annotated type: its name, declaring class, whether it carries
   * `@Produces` and `@Named`, the injectable-resource annotation it carries if any,
   * and the attributes firing `ProcessBeanAttributes` for it returns (`None` when an
   * observer vetoed it).
   */
  datatype AnnotatedField = AnnotatedField(
    name: string,
    declaringClass: string,
    produces: bool,
    named: bool,
    resource: Option<string>,
    beanAttributes: Option<BeanAttributes>)

  /** The annotated type whose fields are examined: its class and its fields, inherited ones included. */
  datatype AnnotatedType = AnnotatedType(javaClass: string, fields: seq<AnnotatedField>)

  /** The bean that owns the producer fields. */
  type BeanRef = nat

  /** The web beans context the builder works in; only its presence matters here. */
  type ContextRef = nat

  /** A bean defined by a producer field; `producerField` is the field it came from. */
  datatype ProducerBean =
    | ResourceBean(owner: BeanRef, producerField: AnnotatedField, resource: string, attributes: BeanAttributes)
    | ProducerFieldBean(owner: BeanRef, producerField: AnnotatedField, maybeAttributes: Option<BeanAttributes>)

  datatype Failure =
    | NullArgument(message: string)
    | ConfigurationError(message: string)

  /** The builder: the context and the annotated type it was created for. */
  datatype ProducerFieldBeansBuilder = ProducerFieldBeansBuilder(webBeansContext: ContextRef, annotatedType: AnnotatedType)

  /** Creates a builder; a missing context or annotated type is rejected. */
  function NewProducerFieldBeansBuilder(webBeansContext: Option<ContextRef>, annotatedType: Option<AnnotatedType>)
    : (r: Result<ProducerFieldBeansBuilder, Failure>)
    ensures r.Ok? <==> webBeansContext.Some? && annotatedType.Some?
    ensures webBeansContext.None? ==> r == Err(NullArgument("webBeansContext may not be null"))
    ensures r.Ok? ==> r.value.webBeansContext == webBeansContext.value && r.value.annotatedType == annotatedType.value
  {
    if webBeansContext.None? then Err(NullArgument("webBeansContext may not be null"))
    else if annotatedType.None? then Err(NullArgument("annotated type may not be null"))
    else Ok(ProducerFieldBeansBuilder(webBeansContext.value, annotatedType.value))
  }

  /** A field is considered when it carries `@Produces` and class `cls` declares it itself. */
  predicate Qualifies(f: AnnotatedField, cls: string)
  {
    f.produces && f.declaringClass == cls
  }

  /** A resource producer field may not define an EL name. */
  predicate IsNamedResource(f: AnnotatedField)
  {
    f.resource.Some? && f.named
  }

  /** The bean a considered field contributes, if any: a resource field whose attributes were vetoed contributes none. */
  function BeanFor(owner: BeanRef, f: AnnotatedField): (b: Option<ProducerBean>)
    ensures b.Some? ==> b.value.producerField == f && b.value.owner == owner
    ensures b.None? <==> f.resource.Some? && f.beanAttributes.None?
  {
    if f.resource.Some? then
      if f.beanAttributes.Some? then Some(ResourceBean(owner, f, f.resource.value, f.beanAttributes.value)) else None
    else Some(ProducerFieldBean(owner, f, f.beanAttributes))
  }

  /** The beans the fields in `fields` contribute, taken one field at a time. */
  function ProducerBeans(owner: BeanRef, fields: seq<AnnotatedField>, cls: string): set<ProducerBean>
    decreases |fields|
  {
    if fields == [] then {}
    else
      var f := fields[|fields| - 1];
      ProducerBeans(owner, fields[..|fields| - 1], cls)
        + (if Qualifies(f, cls) && BeanFor(owner, f).Some? then {BeanFor(owner, f).value} else {})
  }

  /** The fields that are considered. */
  function QualifyingFields(fields: seq<AnnotatedField>, cls: string): set<AnnotatedField>
  {
    set f | f in fields && Qualifies(f, cls)
  }

  /** Whether some considered field is a resource producer with an EL name. */
  predicate HasNamedResourceProducer(fields: seq<AnnotatedField>, cls: string)
  {
    exists f :: f in fields && Qualifies(f, cls) && IsNamedResource(f)
  }

  /**
   * A bean is defined exactly for a considered field that contributes one: only
   * `@Produces` fields declared by the class itself count (inherited ones yield
   * nothing), a vetoed resource field yields nothing, and every other considered
   * field yields its bean, whose producer field is that field.
   */
  lemma {:induction false} ProducerBeansMembers(owner: BeanRef, fields: seq<AnnotatedField>, cls: string, b: ProducerBean)
    ensures b in ProducerBeans(owner, fields, cls) <==>
      b.producerField in fields && Qualifies(b.producerField, cls) && BeanFor(owner, b.producerField) == Some(b)
    decreases |fields|
  {
    if fields != [] {
      var front := fields[..|fields| - 1];
      assert fields == front + [fields[|fields| - 1]];
      ProducerBeansMembers(owner, front, cls, b);
    }
  }

  /** Every considered field that is not a resource field yields exactly one bean. */
  lemma PlainProducerFieldYieldsOneBean(owner: BeanRef, fields: seq<AnnotatedField>, cls: string, f: AnnotatedField)
    requires f in fields && Qualifies(f, cls) && f.resource.None?
    ensures ProducerFieldBean(owner, f, f.beanAttributes) in ProducerBeans(owner, fields, cls)
    ensures forall b :: b in ProducerBeans(owner, fields, cls) && b.producerField == f ==> b == ProducerFieldBean(owner, f, f.beanAttributes)
  {
    ProducerBeansMembers(owner, fields, cls, ProducerFieldBean(owner, f, f.beanAttributes));
    forall b | b in ProducerBeans(owner, fields, cls) && b.producerField == f
      ensures b == ProducerFieldBean(owner, f, f.beanAttributes)
    {
      ProducerBeansMembers(owner, fields, cls, b);
    }
  }

  /** A resource field whose bean attributes were vetoed contributes no bean. */
  lemma VetoedResourceYieldsNothing(owner: BeanRef, fields: seq<AnnotatedField>, cls: string, f: AnnotatedField)
    requires f.resource.Some? && f.beanAttributes.None?
    ensures forall b :: b in ProducerBeans(owner, fields, cls) ==> b.producerField != f
  {
    forall b | b in ProducerBeans(owner, fields, cls) ensures b.producerField != f {
      ProducerBeansMembers(owner, fields, cls, b);
    }
  }

  /** There are never more beans than considered fields. */
  lemma {:induction false} AtMostOneBeanPerField(owner: BeanRef, fields: seq<AnnotatedField>, cls: string)
    ensures |ProducerBeans(owner, fields, cls)| <= |QualifyingFields(fields, cls)|
    decreases |fields|
  {
    if fields != [] {
      var f := fields[|fields| - 1];
      var front := fields[..|fields| - 1];
      assert fields == front + [f];
      AtMostOneBeanPerField(owner, front, cls);
      var before, after := ProducerBeans(owner, front, cls), ProducerBeans(owner, fields, cls);
      var qBefore, qAfter := QualifyingFields(front, cls), QualifyingFields(fields, cls);
      if Qualifies(f, cls) {
        assert qAfter == qBefore + {f};
        if f in qBefore {
          if BeanFor(owner, f).Some? {
            ProducerBeansMembers(owner, front, cls, BeanFor(owner, f).value);
          }
          assert after == before && qAfter == qBefore;
        } else {
          assert |qAfter| == |qBefore| + 1;
          if BeanFor(owner, f).Some? {
            assert after == before + {BeanFor(owner, f).value};
          } else {
            assert after == before;
          }
        }
      } else {
        assert qAfter == qBefore;
        assert after == before;
      }
    }
  }

  /** Visiting field `i` adds its bean, if it contributes one, to the beans of the fields before it. */
  lemma ProducerBeansStep(owner: BeanRef, fields: seq<AnnotatedField>, cls: string, i: nat)
    requires i < |fields|
    ensures ProducerBeans(owner, fields[..i + 1], cls) == ProducerBeans(owner, fields[..i], cls)
      + (if Qualifies(fields[i], cls) && BeanFor(owner, fields[i]).Some? then {BeanFor(owner, fields[i]).value} else {})
    ensures HasNamedResourceProducer(fields[..i + 1], cls)
      <==> HasNamedResourceProducer(fields[..i], cls) || (Qualifies(fields[i], cls) && IsNamedResource(fields[i]))
  {
    assert fields[..i + 1][..i] == fields[..i];
    assert fields[..i + 1] == fields[..i] + [fields[i]];
  }

  /**
   * Defines the producer-field beans of `builder`'s type for bean `owner`; a
   * considered resource field that carries `@Named` is a configuration error.
   */
  method DefineProducerFields(builder: ProducerFieldBeansBuilder, owner: BeanRef) returns (r: Result<set<ProducerBean>, Failure>)
    ensures r.Err? <==> HasNamedResourceProducer(builder.annotatedType.fields, builder.annotatedType.javaClass)
    ensures r.Ok? ==> r.value == ProducerBeans(owner, builder.annotatedType.fields, builder.annotatedType.javaClass)
  {
    var cls := builder.annotatedType.javaClass;
    var fields := builder.annotatedType.fields;
    var producerBeans: set<ProducerBean> := {};
    for i := 0 to |fields|
      invariant producerBeans == ProducerBeans(owner, fields[..i], cls)
      invariant !HasNamedResourceProducer(fields[..i], cls)
    {
      var f := fields[i];
      ProducerBeansStep(owner, fields, cls, i);
      if f.produces && f.declaringClass == cls {
        if f.resource.Some? {
          if f.named {
            assert f in fields;
            return Err(ConfigurationError("Resource producer annotated field : " + f.name + " can not define EL name"));
          }
          if f.beanAttributes.Some? {
            producerBeans := producerBeans + {ResourceBean(owner, f, f.resource.value, f.beanAttributes.value)};
          }
        } else {
          producerBeans := producerBeans + {ProducerFieldBean(owner, f, f.beanAttributes)};
        }
      }
    }
    assert fields[..|fields|] == fields;
    r := Ok(producerBeans);
  }
}
