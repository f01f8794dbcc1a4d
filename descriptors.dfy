/**
 * `seal/descriptors.py`: the sealable accessors. Each one decides, from the
 * instance's seal flag and what the instance already holds, whether an
 * access would query the database; if so it issues an
 * UnsealedAttributeAccess warning, and in every case it then falls back to
 * the host's own accessor.
 */
module Descriptors {
  import opened Wrappers
  import opened Orm

  /**
   * Accessor classes: the eight host classes the table knows, the sealable
   * subclass of each defined here, the raising subclasses of the older
   * revision, and any other class.
   */
  datatype AccessorClass =
    | DeferredAttribute
    | ForwardOneToOneDescriptor
    | ReverseOneToOneDescriptor
    | ForwardManyToOneDescriptor
    | ReverseManyToOneDescriptor
    | ManyToManyDescriptor
    | GenericForeignKey
    | ReverseGenericManyToOneDescriptor
    | Sealable(base: AccessorClass)
    | RaisingSealable(base: AccessorClass)
    | OtherClass(name: string)

  /**
   * `sealable_descriptor_classes.get(c)`: the sealable subclass of each of
   * the eight host classes, None for every other class, the sealable
   * classes themselves included.
   */
  function SealableDescriptorClass(c: AccessorClass): (r: Option<AccessorClass>)
    ensures r.Some? ==> r.value == Sealable(c)
    ensures (c.Sealable? || c.RaisingSealable? || c.OtherClass?) <==> r.None?
  {
    match c
    case Sealable(_) => None
    case RaisingSealable(_) => None
    case OtherClass(_) => None
    case _ => Some(Sealable(c))
  }

  /** No class the table produces is itself swapped again. */
  lemma SealableClassesAreNotKeys(c: AccessorClass)
    requires SealableDescriptorClass(c).Some?
    ensures SealableDescriptorClass(SealableDescriptorClass(c).value).None?
  {
  }

  /**
   * The effects of a guarded access: the warning when the guard decides to
   * report, then the host's fallback.
   */
  function Guarded(report: bool, v: Violation, f: Fallback): (es: seq<Effect>)
    ensures |es| == if report then 2 else 1
    ensures es[|es| - 1] == Delegated(f)
    ensures es[0].Reported? <==> report
    ensures report ==> es[0] == Reported(v)
  {
    (if report then [Reported(v)] else []) + [Delegated(f)]
  }

  /** What `__get__` returns: the descriptor itself on class access, otherwise what the host's accessor returns. */
  datatype Access = DescriptorItself | HostValue

  /**
   * `SealableDeferredAttribute.__get__`: the deferred-field guard reports
   * when the instance is sealed, the field is not in its `__dict__` and the
   * parent-chain lookup (`_check_parent_chain`, given here as
   * `parentChainValue`) finds nothing.
   */
  predicate DeferredFieldReports(instance: Record, field: string, parentChainValue: bool)
    reads instance
  {
    instance.sealed && field !in instance.loaded && !parentChainValue
  }

  method DeferredAttributeGet(instance: Record?, field: string, parentChainValue: bool, effects: Effects) returns (r: Access)
    modifies effects
    ensures instance == null ==> r == DescriptorItself && effects.log == old(effects.log)
    ensures instance != null ==>
      r == HostValue &&
      effects.log == old(effects.log) +
        Guarded(DeferredFieldReports(instance, field, parentChainValue), Violation(DeferredField, field, instance), LoadDeferred(field))
  {
    if instance == null {
      return DescriptorItself;
    }
    if instance.sealed && field !in instance.loaded && !parentChainValue {
      effects.Report(Violation(DeferredField, field, instance));
    }
    effects.Delegate(LoadDeferred(field));
    return HostValue;
  }

  /**
   * The forward one-to-one guard: on a sealed instance, a relation that is
   * not a parent link always reports; a parent link reports only when one
   * of the parent model's concrete attnames is deferred on the instance.
   */
  predicate ForwardOneToOneReports(instance: Record, parentLink: bool, parentConcrete: set<string>)
    reads instance
  {
    instance.sealed && (!parentLink || instance.Deferred() * parentConcrete != {})
  }

  /** Errors the accessors raise. */
  datatype GuardError = AttributeError(attribute: string)

  /**
   * `SealableForwardOneToOneDescriptor.get_object` as written: after the
   * guard, the record the host fetched (`fetched`, null for None) has its
   * `seal()` called, which only SealableModel instances have.
   */
  method ForwardOneToOneGetObjectAsWritten(instance: Record, field: string, parentLink: bool, parentConcrete: set<string>,
                                           fetched: Record?, effects: Effects) returns (r: Result<Record?, GuardError>)
    modifies effects, fetched
    ensures effects.log == old(effects.log) +
      Guarded(old(ForwardOneToOneReports(instance, parentLink, parentConcrete)), Violation(RelatedField, field, instance), FetchRelated(field))
    ensures fetched == null ==> r == Ok(null)
    ensures fetched != null && fetched.sealable ==> r == Ok(fetched) && fetched.sealed
    ensures fetched != null && !fetched.sealable ==> r == Err(AttributeError("seal")) && fetched.sealed == old(fetched.sealed)
  {
    if instance.sealed {
      if parentLink {
        if instance.Deferred() * parentConcrete != {} {
          effects.Report(Violation(RelatedField, field, instance));
        }
      } else {
        effects.Report(Violation(RelatedField, field, instance));
      }
    }
    effects.Delegate(FetchRelated(field));
    if fetched != null {
      if !fetched.sealable {
        return Err(AttributeError("seal"));
      }
      fetched.Seal();
    }
    return Ok(fetched);
  }

  /**
   * `SealableForwardOneToOneDescriptor.get_object` as intended: the same
   * guard, then the fetched record, whatever its model, is stamped sealed
   * before it is returned, as SealedModelIterable stamps joined records.
   */
  method ForwardOneToOneGetObject(instance: Record, field: string, parentLink: bool, parentConcrete: set<string>,
                                  fetched: Record?, effects: Effects) returns (r: Record?)
    modifies effects, fetched
    ensures effects.log == old(effects.log) +
      Guarded(old(ForwardOneToOneReports(instance, parentLink, parentConcrete)), Violation(RelatedField, field, instance), FetchRelated(field))
    ensures r == fetched && (r != null ==> r.sealed)
  {
    if instance.sealed && (!parentLink || instance.Deferred() * parentConcrete != {}) {
      effects.Report(Violation(RelatedField, field, instance));
    }
    effects.Delegate(FetchRelated(field));
    if fetched != null {
      fetched.sealed := true;
    }
    return fetched;
  }

  /**
   * A SeaLion-like instance whose one-to-one points at a plain model (not a
   * SealableModel): as written, reading the relation raises AttributeError
   * even on an unsealed instance; as intended it returns the record, sealed.
   */
  method PlainOneToOneTarget() returns (asWritten: Result<Record?, GuardError>, intended: Record?)
    ensures asWritten == Err(AttributeError("seal"))
    ensures intended != null && intended.sealed && !intended.sealable
  {
    var instance := new Record.FromDb("SeaLion", true, {"id", "leak_o2o_id"}, {"id", "leak_o2o_id"}, map[], None);
    var leak := new Record.FromDb("Leak", false, {"id", "description"}, {"id", "description"}, map[], None);
    var effects := new Effects();
    asWritten := ForwardOneToOneGetObjectAsWritten(instance, "leak_o2o", false, {}, leak, effects);
    intended := ForwardOneToOneGetObject(instance, "leak_o2o", false, {}, leak, effects);
  }

  /** `SealableReverseOneToOneDescriptor.get_queryset`: reports on every sealed instance. */
  method ReverseOneToOneGetQueryset(instance: Record, relatedName: string, effects: Effects) returns (r: Access)
    modifies effects
    ensures r == HostValue
    ensures effects.log == old(effects.log) +
      Guarded(instance.sealed, Violation(RelatedField, relatedName, instance), RelatedQuerySet(relatedName))
  {
    if instance.sealed {
      effects.Report(Violation(RelatedField, relatedName, instance));
    }
    effects.Delegate(RelatedQuerySet(relatedName));
    return HostValue;
  }

  /** `SealableForwardManyToOneDescriptor.get_object`: reports on every sealed instance, returns what the host fetched. */
  method ForwardManyToOneGetObject(instance: Record, field: string, fetched: Record?, effects: Effects) returns (r: Record?)
    modifies effects
    ensures r == fetched
    ensures effects.log == old(effects.log) +
      Guarded(instance.sealed, Violation(RelatedField, field, instance), FetchRelated(field))
  {
    if instance.sealed {
      effects.Report(Violation(RelatedField, field, instance));
    }
    effects.Delegate(FetchRelated(field));
    return fetched;
  }

  /**
   * `SealableGenericForeignKey.__get__`: reports when the instance is sealed
   * and the object is not in its relation cache (`is_cached`).
   */
  method GenericForeignKeyGet(instance: Record?, name: string, effects: Effects) returns (r: Access)
    modifies effects
    ensures instance == null ==> r == DescriptorItself && effects.log == old(effects.log)
    ensures instance != null ==>
      r == HostValue &&
      effects.log == old(effects.log) +
        Guarded(instance.sealed && name !in instance.joined, Violation(RelatedField, name, instance), FetchGeneric(name))
  {
    if instance == null {
      return DescriptorItself;
    }
    if instance.sealed && name !in instance.joined {
      effects.Report(Violation(RelatedField, name, instance));
    }
    effects.Delegate(FetchGeneric(name));
    return HostValue;
  }

  /**
   * The descriptors that build a sealable related manager, with the names
   * they hand it: reverse many-to-one (`rel.name`), many-to-many (`rel.name`
   * when reverse, else `field.name`), reverse generic (`field.name`).
   */
  datatype ManagerDescriptor =
    | ReverseManyToOne(relName: string)
    | ManyToMany(relName: string, fieldName: string, reverse: bool)
    | ReverseGeneric(fieldName: string)

  /** The field name a sealable related manager reports. */
  function ManagerFieldName(d: ManagerDescriptor): (name: string)
    ensures d.ManyToMany? && d.reverse ==> name == d.relName
    ensures d.ManyToMany? && !d.reverse ==> name == d.fieldName
    ensures d.ReverseManyToOne? ==> name == d.relName
    ensures d.ReverseGeneric? ==> name == d.fieldName
  {
    match d
    case ReverseManyToOne(relName) => relName
    case ManyToMany(relName, fieldName, reverse) => if reverse then relName else fieldName
    case ReverseGeneric(fieldName) => fieldName
  }

  /**
   * The prefetch cache key: the manager's `prefetch_cache_name`, or, when it
   * has none, the field's `related_query_name()`.
   */
  function CacheKey(prefetchCacheName: Option<string>, relatedQueryName: string): (key: string)
    ensures prefetchCacheName.Some? ==> key == prefetchCacheName.value
    ensures prefetchCacheName.None? ==> key == relatedQueryName
  {
    match prefetchCacheName
    case Some(name) => name
    case None => relatedQueryName
  }

  /** The instance has a prefetch cache holding `key`. */
  predicate CacheHit(instance: Record, key: string) {
    instance.prefetched.Some? && key in instance.prefetched.value
  }

  /** What a related manager's `get_queryset` returns: the prefetched records or the host's queryset. */
  datatype ManagerResult = PrefetchedRecords(records: seq<Record>) | PlainQuerySet

  /**
   * `SealableRelatedManager.get_queryset`: a sealed instance with the
   * relation prefetched gets the cached records and nothing is reported;
   * a sealed instance without them gets exactly one warning naming the
   * field, then the host's queryset; an unsealed instance gets the host's
   * queryset silently.
   */
  method RelatedManagerGetQueryset(d: ManagerDescriptor, instance: Record, prefetchCacheName: Option<string>,
                                   relatedQueryName: string, effects: Effects) returns (r: ManagerResult)
    modifies effects
    ensures var key := CacheKey(prefetchCacheName, relatedQueryName);
            instance.sealed && CacheHit(instance, key) ==>
              r == PrefetchedRecords(instance.prefetched.value[key]) && effects.log == old(effects.log)
    ensures var key := CacheKey(prefetchCacheName, relatedQueryName);
            !(instance.sealed && CacheHit(instance, key)) ==>
              r == PlainQuerySet &&
              effects.log == old(effects.log) +
                Guarded(instance.sealed, Violation(ManyToManyField, ManagerFieldName(d), instance), ManagerQuerySet(ManagerFieldName(d)))
  {
    var fieldName := ManagerFieldName(d);
    if instance.sealed {
      var key := CacheKey(prefetchCacheName, relatedQueryName);
      if instance.prefetched.Some? && key in instance.prefetched.value {
        return PrefetchedRecords(instance.prefetched.value[key]);
      }
      effects.Report(Violation(ManyToManyField, fieldName, instance));
    }
    effects.Delegate(ManagerQuerySet(fieldName));
    return PlainQuerySet;
  }
}
