/**
 * `seal/related.py`, the older revision of the sealable accessors: instead
 * of warning and falling back, an access that would query the database on
 * a sealed instance raises SealedObject. Also the many-to-many
 * `contribute_to_class` wrappers that install the raising many-to-many
 * accessor, and the four-entry table of raising accessor classes.
 */
module Related {
  import opened Wrappers
  import opened Orm
  import opened Descriptors
  import Models

  /** `SealedObject`: which kind of access was refused, and on which field. */
  datatype SealedObject = SealedObject(kind: Kind, field: string)

  /** What a raising guard does: raise, hand back prefetched records, or fall back to the host. */
  datatype Guard =
    | Raise(error: SealedObject)
    | Cached(records: seq<Record>)
    | Fallback(fallback: Fallback)

  /**
   * The raising related manager's `get_queryset`: on a sealed instance the
   * prefetched records when the cache holds the relation, SealedObject
   * otherwise; on an unsealed instance the host's queryset.
   */
  function RaisingManagerGetQueryset(d: ManagerDescriptor, instance: Record, prefetchCacheName: Option<string>,
                                     relatedQueryName: string): (g: Guard)
    reads instance
    ensures g.Raise? <==> instance.sealed && !CacheHit(instance, CacheKey(prefetchCacheName, relatedQueryName))
    ensures g.Raise? ==> g.error == SealedObject(ManyToManyField, ManagerFieldName(d))
    ensures g.Cached? <==> instance.sealed && CacheHit(instance, CacheKey(prefetchCacheName, relatedQueryName))
    ensures g.Cached? ==> g.records == instance.prefetched.value[CacheKey(prefetchCacheName, relatedQueryName)]
    ensures g.Fallback? ==> g.fallback == ManagerQuerySet(ManagerFieldName(d))
  {
    if instance.sealed then
      var key := CacheKey(prefetchCacheName, relatedQueryName);
      if instance.prefetched.Some? && key in instance.prefetched.value then Cached(instance.prefetched.value[key])
      else Raise(SealedObject(ManyToManyField, ManagerFieldName(d)))
    else Fallback(ManagerQuerySet(ManagerFieldName(d)))
  }

  /** The raising forward many-to-one `get_object`: every sealed instance is refused. */
  function RaisingForwardManyToOne(instance: Record, field: string): (g: Guard)
    reads instance
    ensures g.Raise? <==> instance.sealed
    ensures g.Raise? ==> g.error == SealedObject(RelatedField, field)
    ensures !g.Raise? ==> g == Fallback(FetchRelated(field))
  {
    if instance.sealed then Raise(SealedObject(RelatedField, field)) else Fallback(FetchRelated(field))
  }

  /** The raising reverse one-to-one `get_queryset`: every sealed instance is refused. */
  function RaisingReverseOneToOne(instance: Record, relatedName: string): (g: Guard)
    reads instance
    ensures g.Raise? <==> instance.sealed
    ensures g.Raise? ==> g.error == SealedObject(RelatedField, relatedName)
    ensures !g.Raise? ==> g == Fallback(RelatedQuerySet(relatedName))
  {
    if instance.sealed then Raise(SealedObject(RelatedField, relatedName)) else Fallback(RelatedQuerySet(relatedName))
  }

  /**
   * The raising forward one-to-one `get_object`: refused only on a sealed
   * instance, through a parent link, with a concrete column of the parent
   * deferred; every other access falls back to the host, a plain one-to-one
   * on a sealed instance included.
   */
  function RaisingForwardOneToOne(instance: Record, field: string, parentLink: bool, parentConcrete: set<string>): (g: Guard)
    reads instance
    ensures g.Raise? <==> instance.sealed && parentLink && instance.Deferred() * parentConcrete != {}
    ensures g.Raise? ==> g.error == SealedObject(RelatedField, field)
    ensures !g.Raise? ==> g == Fallback(FetchRelated(field))
  {
    if instance.sealed && parentLink && instance.Deferred() * parentConcrete != {} then
      Raise(SealedObject(RelatedField, field))
    else Fallback(FetchRelated(field))
  }

  /**
   * Every forward one-to-one access the older revision refuses, the newer
   * one reports; and the newer one also reports a plain one-to-one on a
   * sealed instance, which the older one lets through silently.
   */
  lemma RefusalsAreReported(instance: Record, field: string, parentLink: bool, parentConcrete: set<string>)
    ensures RaisingForwardOneToOne(instance, field, parentLink, parentConcrete).Raise? ==>
      ForwardOneToOneReports(instance, parentLink, parentConcrete)
    ensures instance.sealed && !parentLink ==>
      ForwardOneToOneReports(instance, parentLink, parentConcrete) &&
      !RaisingForwardOneToOne(instance, field, parentLink, parentConcrete).Raise?
  {
  }

  /**
   * `sealable_accessor_classes.get(c)`: the raising subclass of the four
   * relation accessors the older revision knows, None for every other
   * class.
   */
  function RaisingAccessorClass(c: AccessorClass): (r: Option<AccessorClass>)
    ensures r.Some? <==>
      c == ReverseManyToOneDescriptor || c == ForwardManyToOneDescriptor ||
      c == ReverseOneToOneDescriptor || c == ForwardOneToOneDescriptor
    ensures r.Some? ==> r.value == RaisingSealable(c)
  {
    match c
    case ReverseManyToOneDescriptor => Some(RaisingSealable(c))
    case ForwardManyToOneDescriptor => Some(RaisingSealable(c))
    case ReverseOneToOneDescriptor => Some(RaisingSealable(c))
    case ForwardOneToOneDescriptor => Some(RaisingSealable(c))
    case _ => None
  }

  /** Every class the older table swaps, the newer table swaps too. */
  lemma OlderTableWithinNewer(c: AccessorClass)
    ensures RaisingAccessorClass(c).Some? ==> SealableDescriptorClass(c).Some?
    ensures SealableDescriptorClass(c).Some? && !RaisingAccessorClass(c).Some? ==>
      c == DeferredAttribute || c == ManyToManyDescriptor || c == GenericForeignKey || c == ReverseGenericManyToOneDescriptor
  {
  }

  /**
   * The wrapped many-to-many `contribute_to_class`: the host's own
   * contribution (`host`, the attributes it sets) first, then the raising
   * many-to-many accessor under the field's name.
   */
  method SealableContributeToClass(cls: Models.ModelClass, name: string, host: map<string, AccessorClass>)
    modifies cls
    ensures cls.attrs == (old(cls.attrs) + host)[name := RaisingSealable(ManyToManyDescriptor)]
  {
    cls.attrs := cls.attrs + host;
    cls.attrs := cls.attrs[name := RaisingSealable(ManyToManyDescriptor)];
  }

  /**
   * The wrapped many-to-many `contribute_to_related_class`: the host's own
   * contribution first, then the reverse raising accessor under the
   * accessor name, unless the relation is hidden or the related model is
   * swapped out.
   */
  method SealableContributeToRelatedClass(cls: Models.ModelClass, accessorName: string, hidden: bool, swapped: bool,
                                          host: map<string, AccessorClass>)
    modifies cls
    ensures !hidden && !swapped ==> cls.attrs == (old(cls.attrs) + host)[accessorName := RaisingSealable(ManyToManyDescriptor)]
    ensures hidden || swapped ==> cls.attrs == old(cls.attrs) + host
  {
    cls.attrs := cls.attrs + host;
    if !hidden && !swapped {
      cls.attrs := cls.attrs[accessorName := RaisingSealable(ManyToManyDescriptor)];
    }
  }
}
