/**
 * `seal/models.py`: the sealable manager (its seal flag, `get_queryset` and
 * the `seal.E001` check), SealableModel's seal-flag inheritance and
 * `seal.E002` check, and the registration functions that swap a model's
 * accessor classes for their sealable subclasses.
 */
module Models {
  import opened Wrappers
  import opened Orm
  import opened Descriptors
  import Query

  /** A relation's remote side: the related model's label and the reverse accessor name, if it has one. */
  datatype RemoteField = RemoteField(model: string, accessorName: Option<string>)

  /** A local, many-to-many or private field: its name, its `attname` (the name when it has none) and its relation. */
  datatype FieldInfo = FieldInfo(name: string, attname: string, remote: Option<RemoteField>)

  /**
   * A model class. Only the class attributes are updated in place (by the
   * descriptor swap); they are kept as the class of the accessor under
   * each name.
   */
  class ModelClass {
    /** `_meta.label`. */
    const modelLabel: string
    /** `issubclass(model, SealableModel)`. */
    const isSealableModel: bool
    /** `_seal_managers`, None when unset. */
    const sealManagers: Option<bool>
    /** `local_fields + local_many_to_many + private_fields`. */
    const fields: seq<FieldInfo>
    /** The accessor names of `_meta.related_objects`. */
    const relatedAccessors: seq<string>
    /** The class of the accessor each attribute name holds. */
    var attrs: map<string, AccessorClass>

    constructor (modelLabel: string, isSealableModel: bool, sealManagers: Option<bool>, fields: seq<FieldInfo>,
                 relatedAccessors: seq<string>, attrs: map<string, AccessorClass>)
      ensures this.modelLabel == modelLabel && this.isSealableModel == isSealableModel && this.sealManagers == sealManagers
      ensures this.fields == fields && this.relatedAccessors == relatedAccessors && this.attrs == attrs
    {
      this.modelLabel := modelLabel;
      this.isSealableModel := isSealableModel;
      this.sealManagers := sealManagers;
      this.fields := fields;
      this.relatedAccessors := relatedAccessors;
      this.attrs := attrs;
    }

    /**
     * `SealableModel.__init_subclass__(seal=...)`: a subclass takes the
     * explicit `seal` keyword when given, otherwise the `_seal_managers` it
     * inherits.
     */
    constructor SealableSubclass(modelLabel: string, inherited: Option<bool>, seal: Option<bool>, fields: seq<FieldInfo>,
                                 relatedAccessors: seq<string>, attrs: map<string, AccessorClass>)
      ensures this.modelLabel == modelLabel && isSealableModel
      ensures seal.Some? ==> sealManagers == seal
      ensures seal.None? ==> sealManagers == inherited
      ensures this.fields == fields && this.relatedAccessors == relatedAccessors && this.attrs == attrs
    {
      this.modelLabel := modelLabel;
      isSealableModel := true;
      sealManagers := if seal.None? then inherited else seal;
      this.fields := fields;
      this.relatedAccessors := relatedAccessors;
      this.attrs := attrs;
    }
  }

  /** Errors of the checks framework, by id. */
  datatype CheckError =
    | E001(origin: string, modelLabel: string)
    | E002(modelLabel: string)

  /**
   * A sealable manager: `_seal_queryset`, the `_model` it is attached to,
   * and what its E001 message names.
   */
  class Manager {
    var sealQueryset: Option<bool>
    var model: ModelClass?
    /** `_built_with_as_manager`. */
    const builtWithAsManager: bool
    /** `_queryset_class.__name__`. */
    const querysetClassName: string
    /** `__class__.__name__`. */
    const className: string

    /** `BaseSealableManager(seal=...)`: the flag is kept as given, None by default. */
    constructor (seal: Option<bool>, builtWithAsManager: bool, querysetClassName: string, className: string)
      ensures sealQueryset == seal && model == null
      ensures this.builtWithAsManager == builtWithAsManager
      ensures this.querysetClassName == querysetClassName && this.className == className
    {
      sealQueryset := seal;
      model := null;
      this.builtWithAsManager := builtWithAsManager;
      this.querysetClassName := querysetClassName;
      this.className := className;
    }

    /** Assigning `.model`: a manager without its own flag inherits the model's `_seal_managers`. */
    method SetModel(m: ModelClass)
      modifies this
      ensures model == m
      ensures old(sealQueryset).Some? ==> sealQueryset == old(sealQueryset)
      ensures old(sealQueryset).None? ==> sealQueryset == m.sealManagers
    {
      model := m;
      if sealQueryset.None? {
        sealQueryset := m.sealManagers;
      }
    }

    /**
     * `get_queryset()`, given the host's queryset `base`: sealed exactly when
     * `_seal_queryset` is truthy, otherwise returned as it is. A plain
     * QuerySet has no `seal()`, so sealing one raises AttributeError.
     */
    method GetQueryset(base: QuerySet, schema: Schema) returns (r: Result<QuerySet, QueryError>)
      requires Closed(schema) && Query.Registered(schema, base)
      ensures sealQueryset == Some(true) && !base.sealable ==> r == Err(NoSealMethod)
      ensures sealQueryset == Some(true) && base.sealable ==> r == Query.Seal(base, SealedModelIterable, schema, Query.AsWritten)
      ensures sealQueryset != Some(true) ==> r == Ok(base)
      ensures r.Ok? && !base.sealed ==> (r.value.sealed <==> sealQueryset == Some(true))
    {
      if sealQueryset == Some(true) && !base.sealable {
        r := Err(NoSealMethod);
      } else if sealQueryset == Some(true) {
        r := Query.SealQuerySet(base, SealedModelIterable, schema, Query.AsWritten);
      } else {
        r := Ok(base);
      }
    }

    /** What E001 names: `<QuerySet>.as_manager()` for a manager built that way, otherwise the manager's class. */
    function Origin(): (o: string)
      ensures builtWithAsManager ==> o == querysetClassName + ".as_manager()"
      ensures !builtWithAsManager ==> o == className
    {
      if builtWithAsManager then querysetClassName + ".as_manager()" else className
    }

    /**
     * `check()`, after the host's own errors `inherited`: exactly one
     * `seal.E001` is appended when the model is not a SealableModel.
     */
    method Check(inherited: seq<CheckError>) returns (errors: seq<CheckError>)
      requires model != null
      ensures model.isSealableModel ==> errors == inherited
      ensures !model.isSealableModel ==> errors == inherited + [E001(Origin(), model.modelLabel)]
    {
      errors := inherited;
      if !model.isSealableModel {
        var origin := if builtWithAsManager then querysetClassName + ".as_manager()" else className;
        errors := errors + [E001(origin, model.modelLabel)];
      }
    }
  }

  /**
   * `SealableModel.check()`, after the host's own errors `inherited`: one
   * `seal.E002` naming the model is appended when the seal app is not
   * installed.
   */
  function ModelCheck(inherited: seq<CheckError>, model: ModelClass, sealInstalled: bool): (errors: seq<CheckError>)
    ensures |errors| == |inherited| + (if sealInstalled then 0 else 1)
    ensures errors[..|inherited|] == inherited
    ensures !sealInstalled ==> errors[|inherited|] == E002(model.modelLabel)
  {
    if sealInstalled then inherited else inherited + [E002(model.modelLabel)]
  }

  /** The class an accessor has after the swap: its sealable subclass when the table has one. */
  function SealedClass(c: AccessorClass): (s: AccessorClass)
    ensures SealableDescriptorClass(c).Some? ==> s == Sealable(c)
    ensures SealableDescriptorClass(c).None? ==> s == c
    ensures SealableDescriptorClass(s).None?
  {
    match SealableDescriptorClass(c)
    case Some(sealable) => sealable
    case None => c
  }

  /** The class attributes after swapping the accessors under each of `names`. */
  function SwapAll(attrs: map<string, AccessorClass>, names: set<string>): map<string, AccessorClass> {
    map k | k in attrs :: if k in names then SealedClass(attrs[k]) else attrs[k]
  }

  /** Swapping is idempotent and swaps under two sets of names add up to a swap under their union. */
  lemma SwapAllUnion(attrs: map<string, AccessorClass>, s: set<string>, t: set<string>)
    ensures SwapAll(SwapAll(attrs, s), t) == SwapAll(attrs, s + t)
    ensures SwapAll(SwapAll(attrs, s), s) == SwapAll(attrs, s)
  {
    var a, b := SwapAll(SwapAll(attrs, s), t), SwapAll(attrs, s + t);
    assert a.Keys == b.Keys;
    forall k | k in a
      ensures a[k] == b[k]
    {
      var c := attrs[k];
      assert SealedClass(SealedClass(c)) == SealedClass(c);
    }
    var a2 := SwapAll(SwapAll(attrs, s), s);
    assert a2.Keys == SwapAll(attrs, s).Keys;
    forall k | k in a2
      ensures a2[k] == SwapAll(attrs, s)[k]
    {
      var c := attrs[k];
      assert SealedClass(SealedClass(c)) == SealedClass(c);
    }
  }

  lemma SwapAllEmpty(attrs: map<string, AccessorClass>)
    ensures SwapAll(attrs, {}) == attrs
  {
  }

  /**
   * `make_descriptor_sealable(model, attname)`: a missing attribute is left
   * alone (a hidden reverse accessor); an accessor whose exact class is in
   * the table gets its sealable class; nothing else changes.
   */
  method MakeDescriptorSealable(model: ModelClass, attname: string)
    modifies model
    ensures model.attrs == SwapAll(old(model.attrs), {attname})
    ensures attname !in old(model.attrs) ==> model.attrs == old(model.attrs)
    ensures attname in old(model.attrs) ==>
      model.attrs == old(model.attrs)[attname := SealedClass(old(model.attrs)[attname])]
  {
    if attname !in model.attrs {
      return;
    }
    var sealable := SealableDescriptorClass(model.attrs[attname]);
    if sealable.Some? {
      model.attrs := model.attrs[attname := sealable.value];
    }
  }

  /** The names `make_remote_field_descriptor_sealable` swaps on the related model. */
  function RemoteTargets(related: ModelClass, remote: RemoteField): set<string> {
    if related.isSealableModel && remote.accessorName.Some? then {remote.accessorName.value} else {}
  }

  /**
   * `make_remote_field_descriptor_sealable`: nothing happens unless the
   * related model is a SealableModel and the relation has a reverse
   * accessor; then that accessor is made sealable.
   */
  method MakeRemoteFieldDescriptorSealable(related: ModelClass, remote: RemoteField)
    modifies related
    ensures related.attrs == SwapAll(old(related.attrs), RemoteTargets(related, remote))
    ensures !related.isSealableModel || remote.accessorName.None? ==> related.attrs == old(related.attrs)
  {
    SwapAllEmpty(related.attrs);
    if !related.isSealableModel {
      return;
    }
    match remote.accessorName {
      case None =>
        return;
      case Some(accessorName) =>
        MakeDescriptorSealable(related, accessorName);
    }
  }

  /** The names and attnames of the fields. */
  function LocalNames(fields: seq<FieldInfo>): set<string> {
    (set f | f in fields :: f.name) + (set f | f in fields :: f.attname)
  }

  /** The reverse accessors on the registered SealableModel `target` that the fields' relations swap. */
  function RemoteNames(fields: seq<FieldInfo>, apps: map<string, ModelClass>, target: string): set<string> {
    if target in apps && apps[target].isSealableModel then
      set f | f in fields && f.remote.Some? && f.remote.value.model == target && f.remote.value.accessorName.Some?
            :: f.remote.value.accessorName.value
    else {}
  }

  /** The names registration of `self` by the fields `fields` swaps on the model registered as `target`. */
  function FieldTargets(fields: seq<FieldInfo>, apps: map<string, ModelClass>, self: string, target: string): set<string> {
    (if target == self then LocalNames(fields) else {}) + RemoteNames(fields, apps, target)
  }

  /** The names one field of `self` swaps on the model registered as `target`. */
  function FieldStepTargets(field: FieldInfo, apps: map<string, ModelClass>, self: string, target: string): set<string> {
    (if target == self then {field.name, field.attname} else {}) +
    (if field.remote.Some? && field.remote.value.model == target && target in apps
     then RemoteTargets(apps[target], field.remote.value) else {})
  }

  /** The names in a sequence of accessor names. */
  function AccessorSet(names: seq<string>): set<string> {
    set a | a in names
  }

  /** The names `make_model_sealable(model)` swaps on the model registered as `target`. */
  function Targets(model: ModelClass, apps: map<string, ModelClass>, target: string): set<string> {
    FieldTargets(model.fields, apps, model.modelLabel, target) +
    (if target == model.modelLabel && !model.isSealableModel then AccessorSet(model.relatedAccessors) else {})
  }

  /** The registry of models: each registered class under its own label. */
  predicate Registry(apps: map<string, ModelClass>) {
    forall l :: l in apps ==> apps[l].modelLabel == l
  }

  lemma FieldTargetsStep(fields: seq<FieldInfo>, i: nat, apps: map<string, ModelClass>, self: string, target: string)
    requires i < |fields|
    ensures FieldTargets(fields[..i + 1], apps, self, target) ==
      FieldTargets(fields[..i], apps, self, target) + FieldStepTargets(fields[i], apps, self, target)
  {
    assert fields[..i + 1] == fields[..i] + [fields[i]];
  }

  /**
   * One pass of the field loop of `make_model_sealable`: the field's
   * accessors under its name and attname, then the reverse accessor its
   * relation puts on a registered related model.
   */
  method MakeFieldSealable(model: ModelClass, field: FieldInfo, apps: map<string, ModelClass>)
    requires Registry(apps) && model.modelLabel in apps && apps[model.modelLabel] == model
    modifies apps.Values
    ensures forall l :: l in apps ==>
      apps[l].attrs == SwapAll(old(apps[l].attrs), FieldStepTargets(field, apps, model.modelLabel, l))
  {
    MakeDescriptorSealable(model, field.name);
    if field.attname != field.name {
      MakeDescriptorSealable(model, field.attname);
    }
    SwapAllUnion(old(model.attrs), {field.name}, {field.attname});
    label Middle:
    if field.remote.Some? && field.remote.value.model in apps {
      MakeRemoteFieldDescriptorSealable(apps[field.remote.value.model], field.remote.value);
    }
    forall l | l in apps
      ensures apps[l].attrs == SwapAll(old(apps[l].attrs), FieldStepTargets(field, apps, model.modelLabel, l))
    {
      FieldStepSwap(old(apps[l].attrs), old@Middle(apps[l].attrs), apps[l].attrs, field, apps, model.modelLabel, l);
    }
  }

  /** A field's two steps on one model, its own names then its reverse accessor, swap its step targets there. */
  lemma FieldStepSwap(s0: map<string, AccessorClass>, s1: map<string, AccessorClass>, s2: map<string, AccessorClass>,
                      field: FieldInfo, apps: map<string, ModelClass>, self: string, target: string)
    requires s1 == if target == self then SwapAll(s0, {field.name, field.attname}) else s0
    requires s2 == if field.remote.Some? && field.remote.value.model == target && target in apps
                   then SwapAll(s1, RemoteTargets(apps[target], field.remote.value)) else s1
    ensures s2 == SwapAll(s0, FieldStepTargets(field, apps, self, target))
  {
    var local := if target == self then {field.name, field.attname} else {};
    var remote := if field.remote.Some? && field.remote.value.model == target && target in apps
                  then RemoteTargets(apps[target], field.remote.value) else {};
    SwapAllEmpty(s0);
    SwapAllEmpty(s1);
    SwapAllUnion(s0, local, remote);
  }

  /** The loop over `_meta.related_objects` for a model that is not a SealableModel. */
  method MakeRelatedAccessorsSealable(model: ModelClass)
    modifies model
    ensures model.attrs == SwapAll(old(model.attrs), AccessorSet(model.relatedAccessors))
  {
    var j := 0;
    SwapAllEmpty(model.attrs);
    assert AccessorSet(model.relatedAccessors[..0]) == {};
    while j < |model.relatedAccessors|
      invariant 0 <= j <= |model.relatedAccessors|
      invariant model.attrs == SwapAll(old(model.attrs), AccessorSet(model.relatedAccessors[..j]))
    {
      var accessor := model.relatedAccessors[j];
      MakeDescriptorSealable(model, accessor);
      SwapAllUnion(old(model.attrs), AccessorSet(model.relatedAccessors[..j]), {accessor});
      assert model.relatedAccessors[..j + 1] == model.relatedAccessors[..j] + [accessor];
      assert AccessorSet(model.relatedAccessors[..j + 1]) == AccessorSet(model.relatedAccessors[..j]) + {accessor};
      j := j + 1;
    }
    assert model.relatedAccessors[..j] == model.relatedAccessors;
  }

  /**
   * `make_model_sealable(model)`: every field's accessor under its name and
   * its attname is made sealable, and every relation's reverse accessor on a
   * registered SealableModel (the lazy operation, applied at once since the
   * related model is already registered). A model that is not a
   * SealableModel also gets its own reverse accessors made sealable. Every
   * registered model ends up with exactly the accessors under its target
   * names swapped, and nothing else changed.
   */
  method MakeModelSealable(model: ModelClass, apps: map<string, ModelClass>)
    requires Registry(apps) && model.modelLabel in apps && apps[model.modelLabel] == model
    modifies apps.Values
    ensures forall l :: l in apps ==> apps[l].attrs == SwapAll(old(apps[l].attrs), Targets(model, apps, l))
  {
    var i := 0;
    assert model.fields[..0] == [];
    forall l | l in apps
      ensures apps[l].attrs == SwapAll(apps[l].attrs, FieldTargets(model.fields[..0], apps, model.modelLabel, l))
    {
      SwapAllEmpty(apps[l].attrs);
    }
    while i < |model.fields|
      invariant 0 <= i <= |model.fields|
      invariant forall l :: l in apps ==>
        apps[l].attrs == SwapAll(old(apps[l].attrs), FieldTargets(model.fields[..i], apps, model.modelLabel, l))
    {
      label Before:
      MakeFieldSealable(model, model.fields[i], apps);
      forall l | l in apps
        ensures apps[l].attrs == SwapAll(old(apps[l].attrs), FieldTargets(model.fields[..i + 1], apps, model.modelLabel, l))
      {
        assert old@Before(apps[l].attrs) == SwapAll(old(apps[l].attrs), FieldTargets(model.fields[..i], apps, model.modelLabel, l));
        FieldTargetsStep(model.fields, i, apps, model.modelLabel, l);
        SwapAllUnion(old(apps[l].attrs), FieldTargets(model.fields[..i], apps, model.modelLabel, l),
                     FieldStepTargets(model.fields[i], apps, model.modelLabel, l));
      }
      i := i + 1;
    }
    assert model.fields[..i] == model.fields;
    label FieldsDone:
    if !model.isSealableModel {
      MakeRelatedAccessorsSealable(model);
      SwapAllUnion(old(model.attrs), FieldTargets(model.fields, apps, model.modelLabel, model.modelLabel),
                   AccessorSet(model.relatedAccessors));
    }
    forall l | l in apps
      ensures apps[l].attrs == SwapAll(old(apps[l].attrs), Targets(model, apps, l))
    {
      TargetsOfFields(model, apps, l);
      if l != model.modelLabel || model.isSealableModel {
        assert apps[l].attrs == old@FieldsDone(apps[l].attrs);
      }
    }
  }

  /** Apart from a non-SealableModel's own reverse accessors, a model's targets are its fields' targets. */
  lemma TargetsOfFields(model: ModelClass, apps: map<string, ModelClass>, target: string)
    ensures target != model.modelLabel || model.isSealableModel ==>
      Targets(model, apps, target) == FieldTargets(model.fields, apps, model.modelLabel, target)
    ensures target == model.modelLabel && !model.isSealableModel ==>
      Targets(model, apps, target) == FieldTargets(model.fields, apps, model.modelLabel, target) + AccessorSet(model.relatedAccessors)
  {
  }
}
