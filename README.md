# django-seal, modelled in Dafny

django-seal lets a Django application *seal* the model instances a queryset
returns. After that, any attribute access that would silently run another
query is intercepted. This covers a deferred column, a forward or reverse
relation that is not cached, or a related manager without prefetched
results. The newer revision (`seal/descriptors.py`, `seal/query.py`,
`seal/models.py`) reports such an access as an `UnsealedAttributeAccess`
warning and then lets the host fetch run. The older revision
(`seal/related.py`, `seal/managers.py`) raises `SealedObject` instead.

This project models both revisions:

- **Instances and records.** An instance is a `Record` whose only mutable
  state is its seal flag.
- **Queries.** Querysets and prefetch lookups are values. The
  select_related dict is an ordered tree.
- **Effects.** Warnings and calls to the host's own accessors are recorded,
  in order, in an `Effects` log.
- **Registration.** Model classes carry a map from attribute name to
  accessor class. Registration swaps entries of that map for their sealable
  subclasses.

Where the older revision repeats newer code, one member models both, and
the table below cites the newer lines. The older iterable's loop
(`seal/managers.py:8-13`) is `Query.SealedIterator`. The older `_clone`
(`seal/managers.py:21-25`) is `Query.Clone`. The older many-to-many
accessor picks its name (`seal/related.py:65-70`) by
`Descriptors.ManagerFieldName`.

A few helpers stand for host code that is not part of this model.
`Query.Insert` and `Query.AddSelectRelated` are the host's
`add_select_related`; `Query.InsertContains`, `Query.InsertKeeps` and
`Query.AddSelectRelatedContains` state what they do. `Query.PrefetchTo` is
the host's `Prefetch.prefetch_to`: the lookup with its last part replaced by
the to_attr. `Descriptors.Guarded` is the shape every warning accessor
shares: the warning when its guard holds, then the host's own accessor.

Modules, one per source file plus shared infrastructure:

- `Wrappers`: `Option` and `Result`.
- `LookupSep`: Python's `split("__")`, `split("__", 1)` and `"__".join` on
  lookup paths.
- `Orm`: the host state the sealing logic reads: records, the join tree,
  querysets, the schema of models and relation fields, and the effect log.
- `JoinWalk`: building select_related getters and walking them
  (`seal/query.py:11-29`).
- `Query`:
  - the sealing iterable;
  - `_clone`, `seal`, `select_related` and `prefetch_related`;
  - the prefetch-lookup rewrite, for both the code as written and its
    intended `to_attr` handling.
- `Descriptors`: the warning accessors and the table of sealable classes.
- `Models`: the sealable manager, SealableModel's class-level behaviour and
  the registration functions that swap accessor classes.
- `Managers`: the older queryset rewrite.
- `Related`: the older raising guards, the many-to-many
  `contribute_to_class` wrappers and their class table.

The newer `seal()` refuses a values queryset: `seal/query.py:120-121`
raises TypeError, as `Query.Seal` states. The older `seal()` at
`seal/managers.py:51-58` has no such check: it seals a values queryset and
only leaves its iterable class alone. `Managers.OldSeal` follows that code.

`related_model._default_manager.all()` is the host manager's `all()`,
which returns the manager's `get_queryset()` itself rather than a clone.
On a model declared with `seal=True`, that queryset is already sealed.

## Model

| member | source | states |
|---|---|---|
| LookupSep.JoinSplit | seal/query.py:86-97 | Joining the parts of a lookup with "__" gives back the lookup. |
| LookupSep.HeadTail | seal/query.py:97 | Cutting the parts after k of them gives a head and tail that rebuild the lookup with "__" between them, or the whole lookup and "" when k is all of them. |
| LookupSep.SplitFirstIsFirstPart | seal/managers.py:35-39 | Splitting at the first "__" gives the first part of the full split, plus the rest rejoined when there is more than one part. |
| LookupSep.SplitFirstRebuilds | seal/managers.py:35-39 | The head, then "__", then the tail rebuilds the lookup; with no tail the head is the whole lookup. |
| LookupSep.SplitSuffix | seal/query.py:97 | Splitting the rejoined tail gives back exactly the tail parts. |
| Orm.Record.Deferred | seal/descriptors.py:55 | The deferred fields are exactly the concrete attnames that are not loaded. |
| Orm.Record.Seal | seal/models.py:74-79 | After `seal()` the instance is sealed; only the seal flag can change, so calling it again changes nothing. |
| Orm.Child | seal/query.py:92-95 | A key is found exactly when some child carries it. What is found is the dict stored under the first child with that key, which is strictly smaller. |
| Orm.DefaultQuerySet | seal/query.py:63 | The queryset a default manager builds before any sealing is unsealed, has no values fields, no lookups and no joins, and carries the model's queryset class and iterable. |
| JoinWalk.GettersShape | seal/query.py:11-16 | Getters are built exactly when every key of the dict resolves to a relation with a related model; they then have the dict's shape. |
| JoinWalk.WalkFollowsPaths | seal/query.py:19-29 | Each record the walk yields is the one reached by following getters along its path. |
| JoinWalk.WalkIsPreOrder | seal/query.py:19-29 | Records are yielded in pre-order: a relation before its nested relations, and siblings in dict order. |
| JoinWalk.WalkIsComplete | seal/query.py:19-29 | Every record reachable through non-None relations is yielded. |
| JoinWalk.NoneSkipsSubtree | seal/query.py:23-25 | Nothing below a None relation is reached or yielded. |
| Query.TraceYieldsObjects | seal/query.py:47-58 | Iteration yields exactly the fetched records, same count and order. |
| Query.SealedBeforeYield | seal/query.py:40-45 | A record is yielded only after it and every record joined to it have been stamped sealed. |
| Query.SealedIterator | seal/query.py:33-38 | Yields the records unchanged and in order, and every one of them ends up sealed. |
| Query.StampAll | seal/query.py:43-44 | Every record the walk reaches is sealed, one stamp per record in walk order. |
| Query.SealedRelatedIterator | seal/query.py:40-45 | Yields the fetched records in order; every fetched record and every joined record is sealed. |
| Query.Iterate | seal/query.py:47-58 | With no joins, only the fetched records are stamped. With joins, the getters are built first and a getter error is raised before anything is stamped; otherwise joined records are stamped too. |
| Query.Clone | seal/query.py:72-76 | A clone equals its original except for the seal flag, which is the one passed (False by default). |
| Query.InsertContains | seal/query.py:134 | After a path is added to the select_related dict, that path can be followed. |
| Query.InsertKeeps | seal/query.py:134 | Adding a path keeps every path the dict already held. |
| Query.AddSelectRelatedContains | seal/query.py:134 | After the fields are added, every field's path can be followed, and every path held before still can. |
| Query.SelectRelated | seal/query.py:131-134 | Refused on a sealed queryset (SelectRelatedAfterSeal) and, by the host, after `.values()` (SelectRelatedAfterValues), the seal check first. Otherwise gives an unsealed clone that differs only in its joins. |
| Query.SelectRelatedJoins | seal/query.py:131-134 | After select_related, every field passed can be followed in the dict, and every path held before still can. |
| Query.PrefetchRelated | seal/query.py:136-139 | Refused exactly on a sealed queryset (PrefetchRelatedAfterSeal). Otherwise gives an unsealed clone: the old lookups, then the new ones. |
| Query.Hop | seal/query.py:90-96 | The walk stops after the first part outside the select_related dict. An unknown field raises FieldDoesNotExist. The related model it returns is registered. |
| Query.HopSplitsPath | seal/query.py:90-97 | The head minus its last part is a path of the dict. When a tail is left, the head itself is not a path of the dict. |
| Query.WalkSelectedParts | seal/query.py:86-97 | The loop over the parts computes the same stop index and related model as the walk's definition. |
| Query.ManagerAll | seal/query.py:99 | `_default_manager.all()` is sealed exactly when the related model's default manager seals (and its queryset is sealable). Unsealed, it is the plain default queryset; sealed, its iterable is SealedModelIterable. |
| Query.ManagerAllIsSealed | seal/query.py:99 | A sealed `_default_manager.all()` is exactly what `seal()` makes of the plain default queryset. |
| Query.NestedQuerySet | seal/query.py:99-101 | As written, prefetching the tail fails with PrefetchRelatedAfterSeal exactly when there is a tail and the manager handed out a sealed queryset; as intended it never fails. Without a tail it is `_default_manager.all()` itself; with one, an unsealed queryset of the related model prefetching exactly the tail. |
| Query.Seal | seal/query.py:119-129 | Refused after `.values()` and for an iterable class outside SealedModelIterable. Otherwise gives a sealed clone with that iterable class and the same number of lookups; nothing else changes. |
| Query.RewriteAll | seal/query.py:126-128 | Every lookup is rewritten, so a success holds one rewrite per lookup. |
| Query.Unsealed | seal/query.py:78-117 | A string lookup with no related model is kept. Otherwise it becomes a Prefetch whose explicit queryset is sealed when sealable. A Prefetch with a queryset keeps its path, to_attr and model, and its queryset is sealed when sealable. |
| Query.SealQuerySet | seal/query.py:119-129 | The imperative `seal()` (checks, clone, lookup loop) returns what `Query.Seal` defines. |
| Query.UnsealedPrefetchLookup | seal/query.py:78-117 | The imperative rewrite of one lookup returns what `Query.Unsealed` defines. |
| Query.RewriteAllOneForOne | seal/query.py:126-128 | The rewrite succeeds exactly when every lookup's rewrite does, and position i holds lookup i's rewrite. On failure it raises the first failing lookup's error. |
| Query.SealOneForOne | seal/query.py:119-129 | `seal()` succeeds exactly when there is no values projection, the iterable is a SealedModelIterable and every lookup rewrites. |
| Query.SealRewritesEach | seal/query.py:126-128 | A sealed queryset has as many lookups as the original, and position i holds lookup i's rewrite. |
| Query.RewriteAllStopsAt | seal/query.py:126-128 | When lookup i is the first whose rewrite fails, the rewrite of the whole tuple raises lookup i's error. |
| Query.SealRaisesFirstFailure | seal/query.py:126-128 | A failed `seal()` raises the error of the first lookup whose rewrite fails. |
| Query.PathRewriteShape | seal/query.py:85-104 | A string lookup becomes a Prefetch of the head exactly when the head's last field has a related model. The queryset is that model's, sealed iff sealable, and prefetches the tail when there is one. |
| Query.UnsealedKeepsDestination | seal/query.py:78-117 | With the intended to_attr handling, rewriting a lookup never moves the attribute path where its deepest records are stored. |
| Query.PathKeepsDestination | seal/query.py:85-108 | A string lookup rewritten for a to_attr stores its records at the lookup's `prefetch_to` path. |
| Query.NestedKeepsDestination | seal/query.py:99-104 | The nested queryset carries the tail, with its to_attr, down to the level where the records belong. |
| Query.SealKeepsDestinations | seal/query.py:119-129 | With the intended to_attr handling, every lookup of a sealed queryset stores its records where the original lookup did. |
| Query.GenericPrefetchLosesToAttr | seal/query.py:108-114 | As written, a to_attr Prefetch through a generic foreign key comes back as a bare string: its records move from "x" to "o". The intended rewrite keeps the Prefetch. |
| Query.NestedPrefetchMovesToAttr | seal/query.py:97-104 | As written, `Prefetch("b__c", to_attr="x")` is rewritten to a Prefetch of "b" with to_attr "x": the deepest records are stored at "x" instead of "b__x". |
| Query.SealedManagerRefusesTail | seal/query.py:99-101 | As written, sealing a queryset that prefetches "b__c", where B's default manager seals, fails with PrefetchRelatedAfterSeal; the intended rewrite seals it. |
| Descriptors.SealableDescriptorClass | seal/descriptors.py:125-134 | The eight host accessor classes map to their sealable subclass. Sealable, raising and other classes map to nothing. |
| Descriptors.SealableClassesAreNotKeys | seal/descriptors.py:125-134 | A sealable class is never swapped again. |
| Descriptors.DeferredAttributeGet | seal/descriptors.py:38-47 | Class access returns the descriptor and logs nothing. Instance access warns iff the instance is sealed, the field is not loaded and the parent chain has no value; it always falls back to the host load. |
| Descriptors.ForwardOneToOneGetObjectAsWritten | seal/descriptors.py:50-72 | Warns on a sealed instance unless it is a parent link with no deferred parent column. It seals the fetched parent, and fails with AttributeError when that parent is not a SealableModel. |
| Descriptors.ForwardOneToOneGetObject | seal/descriptors.py:50-72 | Same warnings. Returns exactly what the host fetched, with that record sealed whatever its class. |
| Descriptors.PlainOneToOneTarget | seal/descriptors.py:69-72 | A one-to-one to a plain model fails as written, while the corrected accessor returns the fetched record sealed. |
| Descriptors.ReverseOneToOneGetQueryset | seal/descriptors.py:75-80 | Warns iff the instance is sealed, then falls back to the host queryset. |
| Descriptors.ForwardManyToOneGetObject | seal/descriptors.py:83-88 | Warns iff the instance is sealed, then returns what the host fetched. |
| Descriptors.GenericForeignKeyGet | seal/descriptors.py:106-115 | Class access returns the descriptor. Instance access warns iff the instance is sealed and the object is not cached, then falls back to the host. |
| Descriptors.ManagerFieldName | seal/descriptors.py:91-122 | The name a manager reports: `rel.name` for reverse many-to-one and reverse many-to-many; `field.name` for forward many-to-many and for the reverse generic relation. |
| Descriptors.CacheKey | seal/descriptors.py:23-26 | The cache key is the manager's `prefetch_cache_name`, or else the field's related query name. |
| Descriptors.RelatedManagerGetQueryset | seal/descriptors.py:19-35 | Sealed with the relation prefetched: the cached records, nothing logged. Sealed without it: one warning naming the field, then the host queryset. Unsealed: the host queryset silently. |
| Models.ModelClass.SealableSubclass | seal/models.py:63-67 | An explicit `seal` keyword wins; otherwise the inherited `_seal_managers` is kept. |
| Models.Manager.constructor | seal/models.py:11-13 | A new manager keeps the seal flag it was given (None by default) and has no model. |
| Models.Manager.SetModel | seal/models.py:18-21 | Assigning the model sets it. A manager without its own flag takes the model's `_seal_managers`; an explicit flag is kept. |
| Models.Manager.GetQueryset | seal/models.py:28-32 | With the flag True, a SealableQuerySet is sealed by the code as written, and a plain QuerySet raises AttributeError (NoSealMethod). Otherwise the host queryset is returned as is. From an unsealed queryset, a success is sealed iff the flag is True. |
| Models.Manager.Origin | seal/models.py:37-40 | E001 names `<QuerySet>.as_manager()` for a manager built that way and the manager's class otherwise. |
| Models.Manager.Check | seal/models.py:34-50 | Exactly one `seal.E001` naming the origin and the model label is appended iff the model is not a SealableModel. |
| Models.ModelCheck | seal/models.py:81-93 | The host's errors are kept. Exactly one `seal.E002` naming the model is appended iff the seal app is not installed. |
| Models.SealedClass | seal/models.py:105-109 | An accessor takes its sealable class when the table has one and keeps its class otherwise. The result is never swapped again. |
| Models.SwapAllUnion | seal/models.py:96-109 | Making the same names sealable twice equals doing it once; two swaps equal one swap over the union of their names. |
| Models.MakeDescriptorSealable | seal/models.py:96-109 | A missing attribute is left alone. An accessor in the table gets its sealable class. No other attribute changes. |
| Models.MakeRemoteFieldDescriptorSealable | seal/models.py:112-122 | Nothing changes unless the related model is a SealableModel and the relation has a reverse accessor; then exactly that accessor is made sealable. |
| Models.MakeFieldSealable | seal/models.py:134-148 | One field's accessors under its name and attname are made sealable on the model, plus its reverse accessor on a registered related SealableModel; nothing else. |
| Models.MakeRelatedAccessorsSealable | seal/models.py:152-154 | Every reverse accessor defined on the model is made sealable, and nothing else. |
| Models.MakeModelSealable | seal/models.py:125-154 | Every registered model ends up with exactly the accessors under its target names swapped and no other attribute changed. The targets are the fields' names and attnames, the reverse accessors on related SealableModels, and, for a model that is not a SealableModel, its own reverse accessors. |
| Managers.AppendLookups | seal/managers.py:42 | The host `prefetch_related` gives an unsealed clone with the lookup appended. |
| Managers.OldUnsealed | seal/managers.py:27-49 | A string lookup becomes a Prefetch of its first part, carrying the to_attr, with the related model's default queryset prefetching the non-empty rest. An unknown field or a field without a related model is an error. |
| Managers.OldRewriteDestination | seal/managers.py:34-43 | Without a to_attr the rewritten lookup stores its records at the original path. With one, they land under the to_attr on the head's records. |
| Managers.OldSeal | seal/managers.py:51-58 | A sealed clone whose lookups are the rewrites, one for one; the first failing rewrite's error is raised. The iterable becomes the older SealedModelIterable only when it is a ModelIterable. |
| Related.RaisingManagerGetQueryset | seal/related.py:11-24 | Sealed with the relation prefetched: the cached records. Sealed without it: SealedObject naming the field. Unsealed: the host queryset. |
| Related.RaisingForwardManyToOne | seal/related.py:34-38 | Raises SealedObject iff the instance is sealed; otherwise falls back to the host fetch. |
| Related.RaisingReverseOneToOne | seal/related.py:41-45 | Raises SealedObject iff the instance is sealed; otherwise falls back to the host queryset. |
| Related.RaisingForwardOneToOne | seal/related.py:48-62 | Raises iff the instance is sealed, the relation is a parent link and a concrete parent column is deferred. A plain one-to-one falls back silently. |
| Related.RefusalsAreReported | seal/related.py:48-62 | Every forward one-to-one access the older revision refuses, the newer one warns about. The newer one also warns about a sealed plain one-to-one, which the older one lets through. |
| Related.RaisingAccessorClass | seal/related.py:92-97 | Exactly the four relation accessors map to their raising subclass. |
| Related.OlderTableWithinNewer | seal/related.py:92-97 | Every class of the older table is in the newer one. The newer one adds exactly the deferred attribute, many-to-many, generic foreign key and reverse generic classes. |
| Related.SealableContributeToClass | seal/related.py:73-79 | The host's own contribution comes first. Then the raising many-to-many accessor is set under the field name. |
| Related.SealableContributeToRelatedClass | seal/related.py:82-89 | The host's own contribution comes first. Then the raising reverse accessor is set under the accessor name, unless the relation is hidden or the related model is swapped. |

## Left out

- Warning and exception messages, `stacklevel` and the `warnings` machinery are not modelled. A warning is a structured `Violation` in the effect log, and an exception is a `QueryError` or `SealedObject` value.
- Database access is not modelled. What the host fetches and its `super()` accessors are inputs or `Delegated` log entries.
- Orm.DefaultQuerySet: the default manager's queryset is taken to be the model's plain queryset, with no lookups, no select_related and no values projection. A custom `get_queryset()` that adds any of these (which would change what `seal()` does, for example a `.values()` default raising at `seal/query.py:120-121`) cannot be represented.
- Query.ManagerAll: built on `Orm.DefaultQuerySet`, so it inherits the same restriction on custom default managers.
- Iteration is modelled as running to the end. Generator laziness and partial consumption are not modelled.
- Query.SelectRelated: requires at least one field. `select_related()` with no fields (join every non-null foreign key) and `select_related(None)` are not modelled, because which relations they follow depends on the host's field options.
- Query.PrefetchRelated: `prefetch_related(None)`, which the host answers by clearing the lookups, is not modelled; the lookups passed are always appended.
- Query.Unsealed: at `seal/query.py:116` the code assigns the sealed queryset into the Prefetch object, which the original queryset shares. Lookups are values here, so the original queryset's Prefetch is not shown as changed (aliasing is not modelled).
- Query.SealKeepsDestinations: stated only for lookups whose parts are all non-empty and schemas whose field names are non-empty. An empty part cannot name a field.
- Query.SealKeepsDestinations: the destination follows a nested Prefetch queryset only when it prefetches exactly one lookup and the Prefetch has no to_attr. For any other Prefetch it stops at the Prefetch's own `prefetch_to`, so nothing is stated about deeper levels there.
- Query.UnsealedKeepsDestination: needs the same non-empty-name condition.
- Descriptors.DeferredAttributeGet: `_check_parent_chain` is the host's own logic. Whether it finds a value is an input.
- Descriptors.GenericForeignKeyGet: the host's `is_cached` is modelled as the name being in the record's relation cache.
- Models.MakeModelSealable: `lazy_related_operation` runs at once when the related model is registered. When it is not, it is left pending and never runs; later registration is not modelled.
- Models.MakeRelatedAccessorsSealable: a related object whose accessor name is None would make `getattr` raise TypeError. Accessor names are strings here.
- Descriptor identity is not modelled. The swap changes the class of a descriptor object; here it changes the class recorded under each attribute name, so an object shared under two names is not covered.
- Query.ManagerAll: a manager that seals but whose queryset class is not a SealableQuerySet would fail with AttributeError in `get_queryset()`. Here it hands out the default queryset unsealed.
- Managers.OldUnsealed: the older revision has no manager that seals, so the default manager's queryset is taken to be unsealed.
- `SealableQuerySet.as_manager`, `from_queryset` and `_base_manager_class` are not modelled beyond the manager's `builtWithAsManager` flag and class names.
- `SealAppConfig.ready` (`seal/apps.py`) is not part of this model. It registers every non-proxy SealableModel; `Models.MakeModelSealable` is the per-model step.
- `make_contenttypes_sealable` is not part of this model.

## Findings

| source | as written | input that shows it | evidently intended | confidence | as-written member | corrected member |
|---|---|---|---|---|---|---|
| seal/descriptors.py:69-72 | The fetched parent's `seal()` method is called, but only SealableModel instances have one. | A sealed SeaLion reading `leak_o2o`, a one-to-one to the plain model Leak: AttributeError. | Stamp the fetched record's seal flag whatever its class, as the iterable does. | not executed | Descriptors.ForwardOneToOneGetObjectAsWritten | Descriptors.ForwardOneToOneGetObject |
| seal/query.py:108-114 | A Prefetch without a queryset is rewritten from its path as a string lookup. When the relation has no related model, the bare string comes back and the to_attr is dropped. | `Prefetch("o", to_attr="x")` with `o` a generic foreign key: the records move from "x" to "o". | Return the original Prefetch when the string rewrite leaves the path unchanged. | not executed | Query.GenericPrefetchLosesToAttr | Query.SealKeepsDestinations |
| seal/query.py:97-104 | The to_attr is put on the Prefetch of the head, above the deepest relation. | `Prefetch("b__c", to_attr="x")` with `b` not joined: the B records are stored at "x" on each A, and the C records in each B's `c` cache, instead of the C records at "x" on each B ("b__x"). | Carry the to_attr down with the tail into the nested queryset. | not executed | Query.NestedPrefetchMovesToAttr | Query.SealKeepsDestinations |
| seal/query.py:99-101 | The tail is prefetched on `_default_manager.all()`, which is the manager's own `get_queryset()`. A manager that seals hands that queryset out sealed, and `prefetch_related` refuses it. | The string lookup "b__c" on A, where B is declared with `seal=True` and `b` is not joined: `seal()` raises the TypeError of `prefetch_related`. | Prefetch the tail on an unsealed clone, then seal it. | not executed | Query.SealedManagerRefusesTail | Query.NestedQuerySet |
