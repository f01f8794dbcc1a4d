/**
 * The host ORM's state as the sealing logic sees it: model instances with a
 * seal flag, the select_related join tree, querysets and prefetch lookups,
 * a schema of models and their relation fields, and the log of reported
 * violations and fallback fetches that replaces `warnings.warn` and the
 * `super()` calls.
 */
module Orm {
  import opened Wrappers

  /**
   * A model instance. The host fills every field except `sealed` when it
   * builds the instance from a row; only `_state.sealed` is ever written by
   * the sealing logic.
   */
  class Record {
    /** Label of the instance's model. */
    const model: string
    /** Whether the instance's class is a SealableModel (has `seal()`). */
    const sealable: bool
    /** Attnames of the model's concrete fields. */
    const concrete: set<string>
    /** Attnames present in the instance's `__dict__` (loaded, not deferred). */
    const loaded: set<string>
    /** The relation cache filled by select_related: field name to joined record or None. */
    const joined: map<string, Option<Record>>
    /** `_prefetched_objects_cache`; `None` when the instance has no such attribute. */
    const prefetched: Option<map<string, seq<Record>>>
    /** `_state.sealed`; reading a missing attribute gives False. */
    var sealed: bool

    constructor FromDb(model: string, sealable: bool, concrete: set<string>, loaded: set<string>,
                       joined: map<string, Option<Record>>, prefetched: Option<map<string, seq<Record>>>)
      ensures this.model == model && this.sealable == sealable
      ensures this.concrete == concrete && this.loaded == loaded
      ensures this.joined == joined && this.prefetched == prefetched
      ensures !sealed
    {
      this.model := model;
      this.sealable := sealable;
      this.concrete := concrete;
      this.loaded := loaded;
      this.joined := joined;
      this.prefetched := prefetched;
      sealed := false;
    }

    /** `get_deferred_fields()`: the concrete attnames missing from `__dict__`. */
    function Deferred(): (d: set<string>)
      ensures d <= concrete
      ensures forall a :: a in d <==> a in concrete && a !in loaded
    {
      concrete - loaded
    }

    /** `SealableModel.seal()`: only SealableModel instances have this method. */
    method Seal()
      requires sealable
      modifies this
      ensures sealed
    {
      sealed := true;
    }
  }

  /** The select_related dict: each key maps to the nested dict of the joined model. */
  datatype Tree = Tree(children: seq<(string, Tree)>)

  /** The position of the first child under `key`, or the number of children if there is none. */
  function IndexOf(t: Tree, key: string): (i: nat)
    ensures i <= |t.children|
    ensures i < |t.children| ==> t.children[i].0 == key
    ensures forall j :: 0 <= j < i ==> t.children[j].0 != key
  {
    IndexFrom(t, key, 0)
  }

  function IndexFrom(t: Tree, key: string, i: nat): (r: nat)
    requires i <= |t.children|
    ensures i <= r <= |t.children|
    ensures r < |t.children| ==> t.children[r].0 == key
    ensures forall j :: i <= j < r ==> t.children[j].0 != key
    decreases |t.children| - i
  {
    if i == |t.children| || t.children[i].0 == key then i else IndexFrom(t, key, i + 1)
  }

  /** Any position that is the first one under `key` (or the end, when no child is) is the one IndexOf finds. */
  lemma IndexOfUnique(t: Tree, key: string, i: nat)
    requires i <= |t.children|
    requires i < |t.children| ==> t.children[i].0 == key
    requires forall j :: 0 <= j < i ==> t.children[j].0 != key
    ensures IndexOf(t, key) == i
  {
  }

  /** `t[key]`: the child under `key`, or None for a KeyError. */
  function Child(t: Tree, key: string): (r: Option<Tree>)
    ensures r.Some? <==> exists i :: 0 <= i < |t.children| && t.children[i].0 == key
    ensures r.Some? ==> r.value < t
    ensures r.Some? ==> exists i :: 0 <= i < |t.children| && t.children[i] == (key, r.value) &&
                                    forall j :: 0 <= j < i ==> t.children[j].0 != key
  {
    var i := IndexOf(t, key);
    if i < |t.children| then Some(t.children[i].1) else None
  }

  /** Whether `path` can be followed key by key from the root of `t`. */
  predicate InTree(t: Tree, path: seq<string>)
    decreases |path|
  {
    path == [] || (Child(t, path[0]).Some? && InTree(Child(t, path[0]).value, path[1..]))
  }

  /** A field of a model: its related model, if it is a relation with one. */
  datatype Field = Field(relatedModel: Option<string>)

  /**
   * What the sealing logic needs of a model's `_meta` and default manager:
   * its fields by name, the class and iterable of the queryset the default
   * manager builds, and whether that manager seals what it hands out:
   * `managerSeals` is the default manager's `_seal_queryset` being True,
   * the flag `Models.Manager` holds as `sealQueryset == Some(true)` once its
   * model is set (as on a model declared with `seal=True`).
   */
  datatype ModelMeta = ModelMeta(fields: map<string, Field>, sealableQuerySet: bool, defaultIterable: IterableClass,
                                 managerSeals: bool)

  type Schema = map<string, ModelMeta>

  /** Every related model of every field is itself a registered model. */
  predicate Closed(schema: Schema) {
    forall m, f :: m in schema && f in schema[m].fields && schema[m].fields[f].relatedModel.Some? ==>
      schema[m].fields[f].relatedModel.value in schema
  }

  /**
   * Iterable classes: the host's own, the newer SealedModelIterable
   * (`seal/query.py`), the older one (`seal/managers.py`), and user-defined
   * subclasses of any of them. The two sealing classes are distinct: both
   * subclass the host's ModelIterable, neither subclasses the other.
   */
  datatype IterableClass =
    | ModelIterable
    | SealedModelIterable
    | OldSealedModelIterable
    | ValuesIterable
    | ValuesListIterable
    | FlatValuesListIterable
    | NamedValuesListIterable
    | Subclass(name: string, base: IterableClass)

  /** `issubclass(c, b)`. */
  predicate IsSubclass(c: IterableClass, b: IterableClass)
    decreases c
  {
    c == b || ((c == SealedModelIterable || c == OldSealedModelIterable) && b == ModelIterable) ||
    (c.Subclass? && IsSubclass(c.base, b))
  }

  /**
   * A queryset: its model, whether its class is a SealableQuerySet, the
   * `_sealed` flag, the `_fields` of `.values()`, the iterable class, the
   * prefetch lookups and the select_related dict.
   */
  datatype QuerySet = QuerySet(
    model: string,
    sealable: bool,
    sealed: bool,
    valuesFields: Option<seq<string>>,
    iterable: IterableClass,
    lookups: seq<Lookup>,
    selectRelated: Tree)

  /** A prefetch lookup: a `__`-separated string or a `Prefetch` object. */
  datatype Lookup =
    | Path(path: string)
    | Prefetch(through: string, queryset: Option<QuerySet>, toAttr: Option<string>)

  /** The queryset the default manager builds before any sealing: unsealed, without lookups. */
  function DefaultQuerySet(schema: Schema, model: string): (q: QuerySet)
    requires model in schema
    ensures q.model == model && !q.sealed && q.valuesFields.None?
    ensures q.lookups == [] && q.selectRelated == Tree([])
    ensures q.sealable == schema[model].sealableQuerySet && q.iterable == schema[model].defaultIterable
  {
    QuerySet(model, schema[model].sealableQuerySet, false, None, schema[model].defaultIterable, [], Tree([]))
  }

  /** Exceptions the queryset operations raise. */
  datatype QueryError =
    | SealAfterValues
    | NotSealedIterable(iterable: IterableClass)
    | SelectRelatedAfterSeal
    | SelectRelatedAfterValues
    | NoSealMethod  // AttributeError: `seal()` called on a queryset that is not a SealableQuerySet
    | PrefetchRelatedAfterSeal
    | FieldDoesNotExist(model: string, field: string)
    | NoRelatedModel(model: string, field: string)

  /** What kind of access a violation reports. */
  datatype Kind = DeferredField | RelatedField | ManyToManyField

  /** An `UnsealedAttributeAccess` warning: what was accessed on which instance. */
  datatype Violation = Violation(kind: Kind, field: string, instance: Record)

  /** The host behaviour a guard falls back to. */
  datatype Fallback =
    | LoadDeferred(field: string)
    | FetchRelated(field: string)
    | RelatedQuerySet(field: string)
    | ManagerQuerySet(field: string)
    | FetchGeneric(field: string)

  datatype Effect = Reported(violation: Violation) | Delegated(fallback: Fallback)

  /** The ordered log of warnings issued and fallbacks taken. */
  class Effects {
    var log: seq<Effect>

    constructor()
      ensures log == []
    {
      log := [];
    }

    /** `warnings.warn(..., category=UnsealedAttributeAccess)`. */
    method Report(v: Violation)
      modifies this
      ensures log == old(log) + [Reported(v)]
    {
      log := log + [Reported(v)];
    }

    /** A call into the host's own descriptor or manager code. */
    method Delegate(f: Fallback)
      modifies this
      ensures log == old(log) + [Delegated(f)]
    {
      log := log + [Delegated(f)];
    }
  }
}
