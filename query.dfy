/**
 * `seal/query.py`: the SealedModelIterable that stamps `_state.sealed` on
 * every fetched record and on every record joined to it by select_related,
 * and the SealableQuerySet operations `_clone`, `seal`, `select_related`,
 * `prefetch_related` and `_unsealed_prefetch_lookup`.
 */
module Query {
  import opened Wrappers
  import opened Orm
  import opened LookupSep
  import opened JoinWalk

  /** What iteration does to records, in order: a seal stamp or a yield to the caller. */
  datatype Event = Stamp(record: Record) | Yield(record: Record)

  function Stamps(rs: seq<Record>): (es: seq<Event>)
    ensures |es| == |rs| && forall k :: 0 <= k < |rs| ==> es[k] == Stamp(rs[k])
  {
    if rs == [] then [] else [Stamp(rs[0])] + Stamps(rs[1..])
  }

  predicate AllJoined(objs: seq<Record>, g: Getters) {
    forall o :: o in objs ==> Joined(o, g)
  }

  /** One fetched record: stamp it, stamp every record the walk reaches from it, yield it. */
  function Block(o: Record, g: Getters): seq<Event>
    requires Joined(o, g)
  {
    [Stamp(o)] + Stamps(Walk(o, g)) + [Yield(o)]
  }

  /** The events of iterating over `objs` to the end. */
  function Trace(objs: seq<Record>, g: Getters): seq<Event>
    requires AllJoined(objs, g)
    decreases |objs|
  {
    if objs == [] then [] else Trace(objs[..|objs| - 1], g) + Block(objs[|objs| - 1], g)
  }

  /** The records handed to the caller, in order. */
  function Yields(es: seq<Event>): seq<Record> {
    if es == [] then [] else (if es[0].Yield? then [es[0].record] else []) + Yields(es[1..])
  }

  /** Every record iteration stamps: the fetched records and the records joined to them. */
  ghost function Footprint(objs: seq<Record>, g: Getters): set<Record>
    requires AllJoined(objs, g)
    decreases |objs|
  {
    if objs == [] then {} else Footprint(objs[..|objs| - 1], g) + {objs[|objs| - 1]} + Reach(objs[|objs| - 1], g)
  }

  ghost function Reach(o: Record, g: Getters): set<Record>
    requires Joined(o, g)
  {
    set r | r in Walk(o, g)
  }

  lemma {:induction false} YieldsAppend(a: seq<Event>, b: seq<Event>)
    ensures Yields(a + b) == Yields(a) + Yields(b)
    decreases |a|
  {
    if a != [] {
      YieldsAppend(a[1..], b);
      var h := if a[0].Yield? then [a[0].record] else [];
      assert (a + b)[0] == a[0];
      assert (a + b)[1..] == a[1..] + b;
      assert Yields(a + b) == h + Yields(a[1..] + b);
      assert Yields(a) == h + Yields(a[1..]);
      assert h + (Yields(a[1..]) + Yields(b)) == (h + Yields(a[1..])) + Yields(b);
    } else {
      assert a + b == b;
    }
  }

  lemma {:induction false} StampsYieldNothing(rs: seq<Record>)
    ensures Yields(Stamps(rs)) == []
    decreases |rs|
  {
    if rs != [] {
      StampsYieldNothing(rs[1..]);
      assert Stamps(rs)[1..] == Stamps(rs[1..]);
    }
  }

  /** Iteration yields exactly the underlying records: same count, same order. */
  lemma {:induction false} TraceYieldsObjects(objs: seq<Record>, g: Getters)
    requires AllJoined(objs, g)
    ensures Yields(Trace(objs, g)) == objs
    decreases |objs|
  {
    if objs != [] {
      var init, o := objs[..|objs| - 1], objs[|objs| - 1];
      TraceYieldsObjects(init, g);
      var w := Walk(o, g);
      YieldsAppend(Trace(init, g), Block(o, g));
      YieldsAppend([Stamp(o)] + Stamps(w), [Yield(o)]);
      YieldsAppend([Stamp(o)], Stamps(w));
      StampsYieldNothing(w);
      assert objs == init + [o];
    }
  }

  /**
   * Before any record is yielded, it and every record the select_related walk
   * reaches from it have been stamped sealed.
   */
  lemma {:induction false} SealedBeforeYield(objs: seq<Record>, g: Getters, k: nat)
    requires AllJoined(objs, g)
    requires k < |Trace(objs, g)| && Trace(objs, g)[k].Yield?
    ensures Trace(objs, g)[k].record in objs
    ensures Stamp(Trace(objs, g)[k].record) in Trace(objs, g)[..k]
    ensures forall r :: r in Walk(Trace(objs, g)[k].record, g) ==> Stamp(r) in Trace(objs, g)[..k]
    decreases |objs|
  {
    var init, o := objs[..|objs| - 1], objs[|objs| - 1];
    assert objs == init + [o];
    var t0, b := Trace(init, g), Block(o, g);
    var t := Trace(objs, g);
    assert t == t0 + b;
    var w := Walk(o, g);
    if k < |t0| {
      assert t[k] == t0[k] && t[..k] == t0[..k];
      SealedBeforeYield(init, g, k);
    } else {
      var m := k - |t0|;
      assert t[k] == b[m];
      if m < |b| - 1 {
        assert false;
      }
      assert t[..k] == t0 + [Stamp(o)] + Stamps(w);
      forall r | r in w
        ensures Stamp(r) in t[..k]
      {
        var j :| 0 <= j < |w| && w[j] == r;
        assert Stamps(w)[j] == Stamp(r);
      }
    }
  }

  lemma FootprintStep(objs: seq<Record>, g: Getters, i: nat)
    requires AllJoined(objs, g) && i < |objs|
    ensures AllJoined(objs[..i], g) && AllJoined(objs[..i + 1], g)
    ensures Footprint(objs[..i + 1], g) == Footprint(objs[..i], g) + {objs[i]} + Reach(objs[i], g)
    ensures Trace(objs[..i + 1], g) == Trace(objs[..i], g) + Block(objs[i], g)
  {
    assert objs[..i + 1] == objs[..i] + [objs[i]];
    assert objs[..i + 1][..i] == objs[..i];
  }

  /**
   * `_sealed_iterator`: stamp and yield each record the host's ModelIterable
   * produces. Its trace is that of an empty getter tree.
   */
  method SealedIterator(objs: seq<Record>) returns (yielded: seq<Record>, ghost events: seq<Event>)
    modifies set o | o in objs
    ensures AllJoined(objs, Getters([]))
    ensures yielded == objs
    ensures events == Trace(objs, Getters([]))
    ensures forall o :: o in objs ==> o.sealed
  {
    var none := Getters([]);
    assert AllJoined(objs, none);
    yielded, events := [], [];
    var i := 0;
    while i < |objs|
      invariant 0 <= i <= |objs|
      invariant yielded == objs[..i]
      invariant events == Trace(objs[..i], none)
      invariant forall o :: o in objs[..i] ==> o.sealed
    {
      var obj := objs[i];
      obj.sealed := true;
      events := events + [Stamp(obj)];
      FootprintStep(objs, none, i);
      assert Walk(obj, none) == [];
      yielded := yielded + [obj];
      events := events + [Yield(obj)];
      assert objs[..i + 1] == objs[..i] + [obj];
      i := i + 1;
    }
    assert objs[..i] == objs;
  }

  /** The inner loop of `_sealed_related_iterator`: stamp every record the walk yields. */
  method StampAll(rs: seq<Record>) returns (ghost es: seq<Event>)
    modifies rs
    ensures es == Stamps(rs)
    ensures forall r :: r in rs ==> r.sealed
  {
    es := [];
    var j := 0;
    while j < |rs|
      invariant 0 <= j <= |rs|
      invariant es == Stamps(rs[..j])
      invariant forall k :: 0 <= k < j ==> rs[k].sealed
    {
      rs[j].sealed := true;
      es := es + [Stamp(rs[j])];
      assert rs[..j + 1] == rs[..j] + [rs[j]];
      j := j + 1;
    }
    assert rs[..j] == rs;
  }

  lemma FootprintCovers(objs: seq<Record>, g: Getters, i: nat)
    requires AllJoined(objs, g) && i < |objs|
    ensures objs[i] in Footprint(objs, g)
    ensures forall r :: r in Walk(objs[i], g) ==> r in Footprint(objs, g)
  {
  }

  /**
   * `_sealed_related_iterator`: stamp each record, then every record the
   * select_related walk reaches from it, then yield it.
   */
  method SealedRelatedIterator(objs: seq<Record>, g: Getters) returns (yielded: seq<Record>, ghost events: seq<Event>)
    requires AllJoined(objs, g)
    modifies Footprint(objs, g)
    ensures yielded == objs
    ensures events == Trace(objs, g)
    ensures forall r :: r in Footprint(objs, g) ==> r.sealed
  {
    yielded, events := [], [];
    ghost var done: set<Record> := {};
    var i := 0;
    assert objs[..0] == [];
    while i < |objs|
      invariant 0 <= i <= |objs|
      invariant AllJoined(objs[..i], g)
      invariant yielded == objs[..i]
      invariant events == Trace(objs[..i], g)
      invariant done == Footprint(objs[..i], g)
      invariant forall r :: r in done ==> r.sealed
    {
      var obj := objs[i];
      FootprintStep(objs, g, i);
      FootprintCovers(objs, g, i);
      obj.sealed := true;
      var related := Walk(obj, g);
      ghost var stamps := StampAll(related);
      yielded := yielded + [obj];
      events := events + [Stamp(obj)] + stamps + [Yield(obj)];
      done := done + {obj} + Reach(obj, g);
      i := i + 1;
    }
    assert objs[..i] == objs;
  }

  /** The host filled every fetched record's relation cache along the queryset's select_related dict. */
  predicate Fetched(q: QuerySet, schema: Schema, objs: seq<Record>)
    requires Closed(schema) && q.model in schema
  {
    var gs := SelectRelatedGetters(schema, q.model, q.selectRelated);
    gs.Ok? ==> AllJoined(objs, gs.value)
  }

  ghost function IterationFootprint(q: QuerySet, schema: Schema, objs: seq<Record>): set<Record>
    requires Closed(schema) && q.model in schema && Fetched(q, schema, objs)
  {
    var gs := SelectRelatedGetters(schema, q.model, q.selectRelated);
    if q.selectRelated.children != [] && gs.Ok? then Footprint(objs, gs.value) else set o | o in objs
  }

  /**
   * `SealedModelIterable.__iter__` over the records `objs` the host fetched
   * for `q`: with an empty select_related dict only the records are stamped;
   * otherwise the getter tree is built first (its errors are raised before
   * anything is stamped) and the joined records are stamped too.
   */
  method Iterate(q: QuerySet, schema: Schema, objs: seq<Record>) returns (r: Result<seq<Record>, QueryError>, ghost events: seq<Event>)
    requires Closed(schema) && q.model in schema && Fetched(q, schema, objs)
    modifies IterationFootprint(q, schema, objs)
    ensures q.selectRelated.children == [] ==>
      r == Ok(objs) && AllJoined(objs, Getters([])) && events == Trace(objs, Getters([]))
    ensures q.selectRelated.children != [] ==>
      match SelectRelatedGetters(schema, q.model, q.selectRelated)
      case Err(e) => r == Err(e) && events == []
      case Ok(g) => r == Ok(objs) && events == Trace(objs, g)
    ensures r.Err? ==> forall o :: o in objs ==> o.sealed == old(o.sealed)
    ensures r.Ok? ==> forall x :: x in IterationFootprint(q, schema, objs) ==> x.sealed
  {
    if q.selectRelated.children != [] {
      var gs := SelectRelatedGetters(schema, q.model, q.selectRelated);
      match gs {
        case Err(e) =>
          r, events := Err(e), [];
        case Ok(g) =>
          var yielded;
          yielded, events := SealedRelatedIterator(objs, g);
          r := Ok(yielded);
      }
    } else {
      var yielded;
      yielded, events := SealedIterator(objs);
      r := Ok(yielded);
    }
  }

  // ---------------------------------------------------------------------
  // SealableQuerySet
  // ---------------------------------------------------------------------

  /** `_clone(_sealed=sealed)`: a copy of the queryset whose flag is the one passed, False by default. */
  function Clone(q: QuerySet, sealed: bool := false): (c: QuerySet)
    ensures c.sealed == sealed
    ensures c.(sealed := q.sealed) == q
  {
    q.(sealed := sealed)
  }

  /**
   * The host's `add_select_related` for one field path: walk the dict along
   * the parts, adding an empty dict for each missing key (`setdefault`).
   */
  function Insert(t: Tree, path: seq<string>): (r: Tree)
    decreases |path|
  {
    if path == [] then t
    else
      var i := IndexOf(t, path[0]);
      if i < |t.children| then
        Tree(t.children[i := (path[0], Insert(t.children[i].1, path[1..]))])
      else
        Tree(t.children + [(path[0], Insert(Tree([]), path[1..]))])
  }

  /** Adding a path keeps every path already in the dict. */
  lemma {:induction false} InsertKeeps(t: Tree, path: seq<string>, other: seq<string>)
    requires InTree(t, other)
    ensures InTree(Insert(t, path), other)
    decreases |path|
  {
    if path != [] && other != [] {
      var i := IndexOf(t, path[0]);
      var r := Insert(t, path);
      var k := IndexOf(t, other[0]);
      assert forall j :: 0 <= j < |t.children| ==> r.children[j].0 == t.children[j].0;
      IndexOfUnique(r, other[0], k);
      if i < |t.children| && other[0] == path[0] {
        InsertKeeps(t.children[i].1, path[1..], other[1..]);
      }
    }
  }

  /** After adding a path, the path can be followed. */
  lemma {:induction false} InsertContains(t: Tree, path: seq<string>)
    ensures InTree(Insert(t, path), path)
    decreases |path|
  {
    if path != [] {
      var i := IndexOf(t, path[0]);
      var r := Insert(t, path);
      assert forall j :: 0 <= j < |t.children| ==> r.children[j].0 == t.children[j].0;
      IndexOfUnique(r, path[0], i);
      if i < |t.children| {
        InsertContains(t.children[i].1, path[1..]);
      } else {
        InsertContains(Tree([]), path[1..]);
      }
    }
  }

  /** The dict after adding each of `fields`, split at "__", in order. */
  function AddSelectRelated(t: Tree, fields: seq<string>): Tree
    decreases |fields|
  {
    if fields == [] then t else AddSelectRelated(Insert(t, Split(fields[0])), fields[1..])
  }

  lemma {:induction false} AddSelectRelatedContains(t: Tree, fields: seq<string>, other: seq<string>)
    ensures InTree(t, other) ==> InTree(AddSelectRelated(t, fields), other)
    ensures forall f :: f in fields ==> InTree(AddSelectRelated(t, fields), Split(f))
    decreases |fields|
  {
    if fields != [] {
      var t' := Insert(t, Split(fields[0]));
      if InTree(t, other) {
        InsertKeeps(t, Split(fields[0]), other);
      }
      AddSelectRelatedContains(t', fields[1..], other);
      InsertContains(t, Split(fields[0]));
      AddSelectRelatedContains(t', fields[1..], Split(fields[0]));
      forall f | f in fields[1..]
        ensures InTree(AddSelectRelated(t, fields), Split(f))
      {
        AddSelectRelatedContains(t', fields[1..], Split(f));
      }
    }
  }

  /**
   * `select_related(*fields)` with at least one field: refused on a sealed
   * queryset, then by the host after `.values()`, otherwise an unsealed
   * clone whose dict contains every path it held before and every field
   * passed.
   */
  function SelectRelated(q: QuerySet, fields: seq<string>): (r: Result<QuerySet, QueryError>)
    requires fields != []
    ensures r.Err? <==> q.sealed || q.valuesFields.Some?
    ensures q.sealed ==> r == Err(SelectRelatedAfterSeal)
    ensures !q.sealed && q.valuesFields.Some? ==> r == Err(SelectRelatedAfterValues)
    ensures r.Ok? ==> !r.value.sealed && r.value.(selectRelated := q.selectRelated, sealed := q.sealed) == q
  {
    if q.sealed then Err(SelectRelatedAfterSeal)
    else if q.valuesFields.Some? then Err(SelectRelatedAfterValues)
    else Ok(Clone(q).(selectRelated := AddSelectRelated(q.selectRelated, fields)))
  }

  lemma SelectRelatedJoins(q: QuerySet, fields: seq<string>, path: seq<string>)
    requires fields != [] && !q.sealed && q.valuesFields.None?
    ensures forall f :: f in fields ==> InTree(SelectRelated(q, fields).value.selectRelated, Split(f))
    ensures InTree(q.selectRelated, path) ==> InTree(SelectRelated(q, fields).value.selectRelated, path)
  {
    AddSelectRelatedContains(q.selectRelated, fields, path);
  }

  /**
   * `prefetch_related(*lookups)`: refused on a sealed queryset, otherwise an
   * unsealed clone with the lookups appended after the existing ones.
   */
  function PrefetchRelated(q: QuerySet, lookups: seq<Lookup>): (r: Result<QuerySet, QueryError>)
    ensures r.Err? <==> q.sealed
    ensures r.Err? ==> r.error == PrefetchRelatedAfterSeal
    ensures r.Ok? ==> !r.value.sealed && r.value.(lookups := q.lookups, sealed := q.sealed) == q
    ensures r.Ok? ==> |r.value.lookups| == |q.lookups| + |lookups|
    ensures r.Ok? ==> r.value.lookups[..|q.lookups|] == q.lookups && r.value.lookups[|q.lookups|..] == lookups
  {
    if q.sealed then Err(PrefetchRelatedAfterSeal)
    else Ok(Clone(q).(lookups := q.lookups + lookups))
  }

  // ---------------------------------------------------------------------
  // seal() and _unsealed_prefetch_lookup
  // ---------------------------------------------------------------------

  /**
   * The behaviour of `_unsealed_prefetch_lookup` for a `Prefetch` object
   * with a `to_attr`: as the code is written, or as its design intends (see
   * the findings in the README).
   */
  datatype Variant = AsWritten | Intended

  /** Every model a queryset or a nested Prefetch queryset is over is registered. */
  predicate Registered(schema: Schema, q: QuerySet)
    decreases q, 1
  {
    q.model in schema && forall i :: 0 <= i < |q.lookups| ==> LookupRegistered(schema, q.lookups[i])
  }

  predicate LookupRegistered(schema: Schema, l: Lookup)
    decreases l, 0
  {
    l.Prefetch? && l.queryset.Some? ==> Registered(schema, l.queryset.value)
  }

  /** A measure that decreases from a queryset to its lookups and from a lookup to the querysets rewriting creates for it. */
  function QSize(q: QuerySet): nat
    decreases q, 2
  {
    1 + LookupsSize(q, 0)
  }

  function LookupsSize(q: QuerySet, i: nat): nat
    requires i <= |q.lookups|
    decreases q, 1, |q.lookups| - i
  {
    if i == |q.lookups| then 0 else LSize(q.lookups[i]) + LookupsSize(q, i + 1)
  }

  function LSize(l: Lookup): nat
    decreases l, 0
  {
    match l
    case Path(s) => 2 * |s| + 2
    case Prefetch(t, None, _) => 2 * |t| + 3
    case Prefetch(_, Some(qs), _) => QSize(qs) + 1
  }

  lemma {:induction false} LookupsSizeBound(q: QuerySet, j: nat, i: nat)
    requires j <= i < |q.lookups|
    ensures LSize(q.lookups[i]) <= LookupsSize(q, j)
    decreases i - j
  {
    if j < i {
      LookupsSizeBound(q, j + 1, i);
    }
  }

  lemma LookupSizeBound(q: QuerySet, i: nat)
    requires i < |q.lookups|
    ensures LSize(q.lookups[i]) < QSize(q)
  {
    LookupsSizeBound(q, 0, i);
  }

  /**
   * The `for index, part in enumerate(parts, start=1)` walk of
   * `_unsealed_prefetch_lookup` from the part at position `i`, over model
   * `opts` and the select_related dict `sr` reached so far: the 1-based
   * index of the first part outside the dict (or of the last part), and
   * that part's related model.
   */
  function Hop(schema: Schema, opts: string, sr: Tree, parts: seq<string>, i: nat): (r: Result<(nat, Option<string>), QueryError>)
    requires Closed(schema) && opts in schema && i < |parts|
    ensures r.Ok? ==> i < r.value.0 <= |parts| && parts[i] in schema[opts].fields
    ensures r.Ok? && r.value.1.Some? ==> r.value.1.value in schema
    ensures parts[i] !in schema[opts].fields ==> r == Err(FieldDoesNotExist(opts, parts[i]))
    decreases |parts| - i
  {
    var part := parts[i];
    if part !in schema[opts].fields then Err(FieldDoesNotExist(opts, part))
    else
      var relatedModel := schema[opts].fields[part].relatedModel;
      match Child(sr, part)
      case None => Ok((i + 1, relatedModel))
      case Some(sub) =>
        if relatedModel.None? then Err(NoRelatedModel(opts, part))
        else if i + 1 == |parts| then Ok((i + 1, relatedModel))
        else Hop(schema, relatedModel.value, sub, parts, i + 1)
  }

  /**
   * The walk stops at the first part outside the select_related dict: the
   * parts before it form a path in the dict, and the parts up to it do not,
   * unless the walk reached the final part.
   */
  lemma {:induction false} HopSplitsPath(schema: Schema, opts: string, sr: Tree, parts: seq<string>, i: nat)
    requires Closed(schema) && opts in schema && i < |parts|
    requires Hop(schema, opts, sr, parts, i).Ok?
    ensures var index := Hop(schema, opts, sr, parts, i).value.0;
            InTree(sr, parts[i..index - 1]) &&
            (index < |parts| ==> !InTree(sr, parts[i..index]))
    decreases |parts| - i
  {
    var index := Hop(schema, opts, sr, parts, i).value.0;
    var part := parts[i];
    var relatedModel := schema[opts].fields[part].relatedModel;
    match Child(sr, part)
    case None =>
      assert parts[i..index - 1] == [];
      assert parts[i..index][0] == part;
    case Some(sub) =>
      if i + 1 == |parts| {
        assert parts[i..index - 1] == [];
      } else {
        HopSplitsPath(schema, relatedModel.value, sub, parts, i + 1);
        assert parts[i..index - 1][0] == part && parts[i..index - 1][1..] == parts[i + 1..index - 1];
        assert parts[i..index][0] == part && parts[i..index][1..] == parts[i + 1..index];
      }
  }

  /**
   * The loop of `_unsealed_prefetch_lookup` itself, updating `index`,
   * `opts`, `related_model` and `select_related` part by part; it leaves
   * by `break`, by running out of parts, or by an exception.
   */
  method WalkSelectedParts(q: QuerySet, parts: seq<string>, schema: Schema) returns (r: Result<(nat, Option<string>), QueryError>)
    requires Closed(schema) && q.model in schema && parts != []
    ensures r == Hop(schema, q.model, q.selectRelated, parts, 0)
  {
    var opts := q.model;
    var selectRelated := q.selectRelated;
    var index := 1;
    while true
      invariant 1 <= index <= |parts| && opts in schema
      invariant Hop(schema, q.model, q.selectRelated, parts, 0) == Hop(schema, opts, selectRelated, parts, index - 1)
      decreases |parts| - index
    {
      var part := parts[index - 1];
      if part !in schema[opts].fields {
        return Err(FieldDoesNotExist(opts, part));
      }
      var relatedModel := schema[opts].fields[part].relatedModel;
      var child := Child(selectRelated, part);
      if child.None? {
        return Ok((index, relatedModel));
      }
      selectRelated := child.value;
      if relatedModel.None? {
        return Err(NoRelatedModel(opts, part));
      }
      opts := relatedModel.value;
      if index == |parts| {
        return Ok((index, relatedModel));
      }
      index := index + 1;
    }
  }

  /**
   * `related_model._default_manager.all()`. The host manager's `all()` is
   * its `get_queryset()`, not a clone: a manager that seals hands the
   * default queryset out exactly as `seal()` leaves it, any other hands it
   * out unsealed.
   */
  function ManagerAll(schema: Schema, model: string): (q: QuerySet)
    requires Closed(schema) && model in schema
    ensures q.model == model && q.valuesFields.None? && q.lookups == [] && q.selectRelated == Tree([])
    ensures q.sealable == schema[model].sealableQuerySet
    ensures q.sealed <==> schema[model].managerSeals && schema[model].sealableQuerySet
    ensures !q.sealed ==> q == DefaultQuerySet(schema, model)
    ensures q.sealed ==> q.iterable == SealedModelIterable
  {
    var base := DefaultQuerySet(schema, model);
    if schema[model].managerSeals && base.sealable then Clone(base, true).(iterable := SealedModelIterable) else base
  }

  /** What a sealing manager hands out is what `seal()` makes of the default queryset. */
  lemma ManagerAllIsSealed(schema: Schema, model: string, v: Variant)
    requires Closed(schema) && model in schema && ManagerAll(schema, model).sealed
    ensures Seal(DefaultQuerySet(schema, model), SealedModelIterable, schema, v) == Ok(ManagerAll(schema, model))
  {
  }

  /**
   * The queryset `related_model._default_manager.all()`, with the tail
   * prefetched on it when the tail is not empty. As written the tail is a
   * string lookup prefetched on that very queryset, which `prefetch_related`
   * refuses when the manager sealed it; as intended it is prefetched on an
   * unsealed clone, and a `to_attr` travels with it as a Prefetch.
   */
  function NestedQuerySet(schema: Schema, model: string, tail: string, toAttr: Option<string>, v: Variant)
    : (r: Result<QuerySet, QueryError>)
    requires Closed(schema) && model in schema
    ensures r.Err? <==> v == AsWritten && tail != "" && ManagerAll(schema, model).sealed
    ensures r.Err? ==> r.error == PrefetchRelatedAfterSeal
    ensures r.Ok? ==> r.value.model == model && r.value.valuesFields.None? && Registered(schema, r.value) &&
                      r.value.sealable == schema[model].sealableQuerySet &&
                      r.value.iterable == ManagerAll(schema, model).iterable
    ensures r.Ok? && tail == "" ==> r.value == ManagerAll(schema, model)
    ensures r.Ok? && tail != "" ==> !r.value.sealed && |r.value.lookups| == 1
  {
    var all := ManagerAll(schema, model);
    if tail == "" then Ok(all)
    else if v == Intended then PrefetchRelated(Clone(all), [InnerLookup(tail, toAttr, v)])
    else PrefetchRelated(all, [InnerLookup(tail, toAttr, v)])
  }

  /** The lookup the tail becomes inside the nested queryset. */
  function InnerLookup(tail: string, toAttr: Option<string>, v: Variant): Lookup {
    if v == Intended && toAttr.Some? then Prefetch(tail, None, toAttr) else Path(tail)
  }

  lemma NestedLookups(schema: Schema, model: string, tail: string, toAttr: Option<string>, v: Variant)
    requires Closed(schema) && model in schema && NestedQuerySet(schema, model, tail, toAttr, v).Ok?
    ensures tail != "" ==> NestedQuerySet(schema, model, tail, toAttr, v).value.lookups == [InnerLookup(tail, toAttr, v)]
    ensures QSize(NestedQuerySet(schema, model, tail, toAttr, v).value) <= 2 * |tail| + 4
  {
    var n := NestedQuerySet(schema, model, tail, toAttr, v).value;
    if tail != "" {
      assert LookupsSize(n, 0) == LSize(n.lookups[0]) + LookupsSize(n, 1);
    }
  }

  /** The `to_attr` the outer Prefetch of a rewritten string lookup carries. */
  function OuterAttr(tail: string, toAttr: Option<string>, v: Variant): Option<string> {
    if v == Intended && tail != "" then None else toAttr
  }

  /**
   * `seal(iterable_class)`: refused after `.values()` and for an iterable
   * class outside SealedModelIterable; otherwise a sealed clone with that
   * iterable class whose lookups are rewritten one for one, in order, the
   * first failing rewrite's exception propagating.
   */
  function Seal(q: QuerySet, it: IterableClass, schema: Schema, v: Variant): (r: Result<QuerySet, QueryError>)
    requires Closed(schema) && Registered(schema, q)
    ensures q.valuesFields.Some? ==> r == Err(SealAfterValues)
    ensures q.valuesFields.None? && !IsSubclass(it, SealedModelIterable) ==> r == Err(NotSealedIterable(it))
    ensures r.Ok? ==> r.value.sealed && r.value.iterable == it && |r.value.lookups| == |q.lookups|
    ensures r.Ok? ==> r.value.(sealed := q.sealed, iterable := q.iterable, lookups := q.lookups) == q
    decreases QSize(q), 3, 0
  {
    if q.valuesFields.Some? then Err(SealAfterValues)
    else if !IsSubclass(it, SealedModelIterable) then Err(NotSealedIterable(it))
    else
      match RewriteAll(q, 0, schema, v)
      case Err(e) => Err(e)
      case Ok(lookups) => Ok(Clone(q, true).(iterable := it, lookups := lookups))
  }

  /** The lookups from position `i` on, each rewritten by `_unsealed_prefetch_lookup`. */
  function RewriteAll(q: QuerySet, i: nat, schema: Schema, v: Variant): (r: Result<seq<Lookup>, QueryError>)
    requires Closed(schema) && Registered(schema, q) && i <= |q.lookups|
    ensures r.Ok? ==> |r.value| == |q.lookups| - i
    decreases QSize(q), 2, |q.lookups| - i
  {
    if i == |q.lookups| then Ok([])
    else
      LookupSizeBound(q, i);
      assert LookupRegistered(schema, q.lookups[i]);
      match Unsealed(q, q.lookups[i], None, schema, v)
      case Err(e) => Err(e)
      case Ok(l) =>
        (match RewriteAll(q, i + 1, schema, v)
         case Err(e) => Err(e)
         case Ok(rest) => Ok([l] + rest))
  }

  /**
   * `_unsealed_prefetch_lookup(l, to_attr)` on queryset `q`. A string lookup
   * whose first part outside the select_related dict has a related model
   * becomes a Prefetch of the head with that model's default queryset
   * (sealed when it is a SealableQuerySet) prefetching the tail; without a
   * related model it is returned unchanged. A Prefetch without a queryset
   * is rewritten from its `prefetch_through`; a Prefetch with a
   * SealableQuerySet gets that queryset sealed; any other is unchanged.
   */
  function Unsealed(q: QuerySet, l: Lookup, toAttr: Option<string>, schema: Schema, v: Variant): (r: Result<Lookup, QueryError>)
    requires Closed(schema) && q.model in schema && LookupRegistered(schema, l)
    ensures r.Ok? && l.Path? && r.value.Path? ==> r.value == l
    ensures l.Path? && r.Ok? && r.value.Prefetch? ==> r.value.queryset.Some?
    ensures (l.Path? || l.queryset.None?) && r.Ok? && r.value.Prefetch? && r.value.queryset.Some? ==>
      r.value.queryset.value.sealed == r.value.queryset.value.sealable
    ensures l.Prefetch? && l.queryset.Some? && !l.queryset.value.sealable ==> r == Ok(l)
    ensures l.Prefetch? && l.queryset.Some? && r.Ok? ==>
      r.value.Prefetch? && r.value.through == l.through && r.value.toAttr == l.toAttr &&
      r.value.queryset.Some? && r.value.queryset.value.model == l.queryset.value.model &&
      (l.queryset.value.sealable ==> r.value.queryset.value.sealed)
    ensures v == Intended && l.Prefetch? && r.Ok? ==> r.value.Prefetch?
    decreases LSize(l), 1, 0
  {
    match l
    case Path(s) =>
      var parts := Split(s);
      (match Hop(schema, q.model, q.selectRelated, parts, 0)
       case Err(e) => Err(e)
       case Ok((index, relatedModel)) =>
        var head, tail := Join(parts[..index]), Join(parts[index..]);
        if relatedModel.None? then Ok(l)
        else
          HeadTail(s, index);
          match NestedQuerySet(schema, relatedModel.value, tail, toAttr, v)
          case Err(e) => Err(e)
          case Ok(nested) =>
            NestedLookups(schema, relatedModel.value, tail, toAttr, v);
            if !nested.sealable then Ok(Prefetch(head, Some(nested), OuterAttr(tail, toAttr, v)))
            else
              (match Seal(nested, SealedModelIterable, schema, v)
               case Err(e) => Err(e)
               case Ok(sealed) => Ok(Prefetch(head, Some(sealed), OuterAttr(tail, toAttr, v)))))
    case Prefetch(through, None, attr) =>
      (match Unsealed(q, Path(through), attr, schema, v)
       case Err(e) => Err(e)
       case Ok(x) => if v == Intended && x.Path? then Ok(l) else Ok(x))
    case Prefetch(through, Some(qs), attr) =>
      if !qs.sealable then Ok(l)
      else
        match Seal(qs, SealedModelIterable, schema, v)
        case Err(e) => Err(e)
        case Ok(sealed) => Ok(Prefetch(through, Some(sealed), attr))
  }

  /**
   * `seal()` as the code runs it: the two checks, the sealed clone with its
   * iterable class, then the rewritten lookups built one by one.
   */
  method SealQuerySet(q: QuerySet, it: IterableClass, schema: Schema, v: Variant) returns (r: Result<QuerySet, QueryError>)
    requires Closed(schema) && Registered(schema, q)
    ensures r == Seal(q, it, schema, v)
    decreases QSize(q), 3, 0
  {
    if q.valuesFields.Some? {
      return Err(SealAfterValues);
    }
    if !IsSubclass(it, SealedModelIterable) {
      return Err(NotSealedIterable(it));
    }
    var clone := Clone(q, true).(iterable := it);
    var lookups: seq<Lookup> := [];
    var i := 0;
    while i < |q.lookups|
      invariant 0 <= i <= |q.lookups| && |lookups| == i
      invariant forall j :: 0 <= j < i ==> Unsealed(q, q.lookups[j], None, schema, v) == Ok(lookups[j])
    {
      LookupSizeBound(q, i);
      assert LookupRegistered(schema, q.lookups[i]);
      var x := UnsealedPrefetchLookup(q, q.lookups[i], None, schema, v);
      if x.Err? {
        RewriteAllStopsAt(q, i, schema, v);
        SealLookups(q, it, schema, v);
        return Err(x.error);
      }
      lookups := lookups + [x.value];
      i := i + 1;
    }
    RewriteAllFromParts(q, schema, v, lookups);
    SealLookups(q, it, schema, v);
    return Ok(clone.(lookups := lookups));
  }

  /** When every lookup rewrites, the rewritten lookups in order are what `seal()` collects. */
  lemma RewriteAllFromParts(q: QuerySet, schema: Schema, v: Variant, lookups: seq<Lookup>)
    requires Closed(schema) && Registered(schema, q) && |lookups| == |q.lookups|
    requires forall j :: 0 <= j < |q.lookups| ==> Unsealed(q, q.lookups[j], None, schema, v) == Ok(lookups[j])
    ensures RewriteAll(q, 0, schema, v) == Ok(lookups)
  {
    RewriteAllOneForOne(q, 0, schema, v);
    assert RewriteAll(q, 0, schema, v).value == lookups;
  }

  /** A rewrite that fails after every earlier lookup rewrote is the error `seal()` raises. */
  lemma RewriteAllStopsAt(q: QuerySet, i: nat, schema: Schema, v: Variant)
    requires Closed(schema) && Registered(schema, q) && i < |q.lookups|
    requires forall j :: 0 <= j < i ==> Unsealed(q, q.lookups[j], None, schema, v).Ok?
    requires Unsealed(q, q.lookups[i], None, schema, v).Err?
    ensures RewriteAll(q, 0, schema, v) == Err(Unsealed(q, q.lookups[i], None, schema, v).error)
  {
    var rs := Rewrites(q, 0, schema, v);
    forall j | 0 <= j < i
      ensures rs[j].Ok?
    {
      RewritesAt(q, 0, schema, v, j);
    }
    RewritesAt(q, 0, schema, v, i);
    CollectStopsAt(rs, i);
    RewriteAllCollects(q, 0, schema, v);
  }

  /** Collecting stops at the first failure and reports its error. */
  lemma {:induction false} CollectStopsAt(rs: seq<Result<Lookup, QueryError>>, i: nat)
    requires i < |rs| && rs[i].Err?
    requires forall j :: 0 <= j < i ==> rs[j].Ok?
    ensures Collect(rs) == Err(rs[i].error)
  {
    if i > 0 {
      assert rs[1..][i - 1] == rs[i];
      CollectStopsAt(rs[1..], i - 1);
    }
  }

  /** `_unsealed_prefetch_lookup` as the code runs it, walking the parts with a loop. */
  method UnsealedPrefetchLookup(q: QuerySet, l: Lookup, toAttr: Option<string>, schema: Schema, v: Variant)
    returns (r: Result<Lookup, QueryError>)
    requires Closed(schema) && q.model in schema && LookupRegistered(schema, l)
    ensures r == Unsealed(q, l, toAttr, schema, v)
    decreases LSize(l), 1, 0
  {
    match l {
      case Path(s) =>
        var parts := Split(s);
        var walked := WalkSelectedParts(q, parts, schema);
        if walked.Err? {
          return Err(walked.error);
        }
        var (index, relatedModel) := walked.value;
        var head, tail := Join(parts[..index]), Join(parts[index..]);
        if relatedModel.None? {
          return Ok(l);
        }
        HeadTail(s, index);
        var queryset := ManagerAll(schema, relatedModel.value);
        if tail != "" {
          if v == Intended {
            queryset := Clone(queryset);
          }
          var prefetched := PrefetchRelated(queryset, [InnerLookup(tail, toAttr, v)]);
          if prefetched.Err? {
            return Err(prefetched.error);
          }
          queryset := prefetched.value;
        }
        assert Ok(queryset) == NestedQuerySet(schema, relatedModel.value, tail, toAttr, v);
        NestedLookups(schema, relatedModel.value, tail, toAttr, v);
        if queryset.sealable {
          var sealed := SealQuerySet(queryset, SealedModelIterable, schema, v);
          if sealed.Err? {
            return Err(sealed.error);
          }
          queryset := sealed.value;
        }
        return Ok(Prefetch(head, Some(queryset), OuterAttr(tail, toAttr, v)));
      case Prefetch(through, None, attr) =>
        r := UnsealedPrefetchLookup(q, Path(through), attr, schema, v);
        if r.Ok? && v == Intended && r.value.Path? {
          r := Ok(l);
        }
      case Prefetch(through, Some(qs), attr) =>
        if !qs.sealable {
          return Ok(l);
        }
        var sealed := SealQuerySet(qs, SealedModelIterable, schema, v);
        if sealed.Err? {
          return Err(sealed.error);
        }
        return Ok(Prefetch(through, Some(sealed.value), attr));
    }
  }

  /** The rewrite of each lookup from position `i` on, in order, each on its own. */
  function Rewrites(q: QuerySet, i: nat, schema: Schema, v: Variant): (rs: seq<Result<Lookup, QueryError>>)
    requires Closed(schema) && Registered(schema, q) && i <= |q.lookups|
    ensures |rs| == |q.lookups| - i
    decreases |q.lookups| - i
  {
    if i == |q.lookups| then []
    else
      assert LookupRegistered(schema, q.lookups[i]);
      [Unsealed(q, q.lookups[i], None, schema, v)] + Rewrites(q, i + 1, schema, v)
  }

  lemma {:induction false} RewritesAt(q: QuerySet, i: nat, schema: Schema, v: Variant, j: nat)
    requires Closed(schema) && Registered(schema, q) && i <= j < |q.lookups|
    ensures LookupRegistered(schema, q.lookups[j])
    ensures Rewrites(q, i, schema, v)[j - i] == Unsealed(q, q.lookups[j], None, schema, v)
    decreases j - i
  {
    assert LookupRegistered(schema, q.lookups[j]);
    if j > i {
      RewritesAt(q, i + 1, schema, v, j);
    }
  }

  /** The values of `rs` when all of them are values, otherwise the first error among them. */
  function Collect(rs: seq<Result<Lookup, QueryError>>): Result<seq<Lookup>, QueryError> {
    if rs == [] then Ok([])
    else
      match rs[0]
      case Err(e) => Err(e)
      case Ok(l) =>
        (match Collect(rs[1..])
         case Err(e) => Err(e)
         case Ok(rest) => Ok([l] + rest))
  }

  lemma {:induction false} CollectOneForOne(rs: seq<Result<Lookup, QueryError>>)
    ensures Collect(rs).Ok? <==> forall j :: 0 <= j < |rs| ==> rs[j].Ok?
    ensures Collect(rs).Ok? ==> |Collect(rs).value| == |rs| && forall j :: 0 <= j < |rs| ==> rs[j] == Ok(Collect(rs).value[j])
    ensures Collect(rs).Err? ==>
      exists j :: 0 <= j < |rs| && rs[j] == Err(Collect(rs).error) && forall k :: 0 <= k < j ==> rs[k].Ok?
  {
    if rs != [] {
      CollectOneForOne(rs[1..]);
      if rs[0].Ok? && Collect(rs[1..]).Err? {
        var j :| 0 <= j < |rs[1..]| && rs[1..][j] == Err(Collect(rs[1..]).error) && forall k :: 0 <= k < j ==> rs[1..][k].Ok?;
        assert rs[j + 1] == Err(Collect(rs).error);
      } else if rs[0].Err? {
        assert rs[0] == Err(Collect(rs).error);
      }
    }
  }

  lemma {:induction false} RewriteAllCollects(q: QuerySet, i: nat, schema: Schema, v: Variant)
    requires Closed(schema) && Registered(schema, q) && i <= |q.lookups|
    ensures RewriteAll(q, i, schema, v) == Collect(Rewrites(q, i, schema, v))
    decreases |q.lookups| - i
  {
    if i < |q.lookups| {
      RewriteAllCollects(q, i + 1, schema, v);
      var rs := Rewrites(q, i, schema, v);
      assert rs[1..] == Rewrites(q, i + 1, schema, v);
    }
  }

  /** The rewritten lookups, position by position, or the first failure among them. */
  lemma RewriteAllOneForOne(q: QuerySet, i: nat, schema: Schema, v: Variant)
    requires Closed(schema) && Registered(schema, q) && i <= |q.lookups|
    ensures RewriteAll(q, i, schema, v).Ok? <==>
      forall j :: i <= j < |q.lookups| ==> Unsealed(q, q.lookups[j], None, schema, v).Ok?
    ensures RewriteAll(q, i, schema, v).Ok? ==>
      forall j :: i <= j < |q.lookups| ==>
        Unsealed(q, q.lookups[j], None, schema, v) == Ok(RewriteAll(q, i, schema, v).value[j - i])
    ensures RewriteAll(q, i, schema, v).Err? ==>
      exists j :: i <= j < |q.lookups| && Unsealed(q, q.lookups[j], None, schema, v) == Err(RewriteAll(q, i, schema, v).error) &&
                  (forall k :: i <= k < j ==> Unsealed(q, q.lookups[k], None, schema, v).Ok?)
  {
    RewriteAllCollects(q, i, schema, v);
    var rs := Rewrites(q, i, schema, v);
    CollectOneForOne(rs);
    forall j | i <= j < |q.lookups|
      ensures LookupRegistered(schema, q.lookups[j]) && rs[j - i] == Unsealed(q, q.lookups[j], None, schema, v)
    {
      RewritesAt(q, i, schema, v, j);
    }
    if Collect(rs).Err? {
      var j :| 0 <= j < |rs| && rs[j] == Err(Collect(rs).error) && forall k :: 0 <= k < j ==> rs[k].Ok?;
      assert Unsealed(q, q.lookups[i + j], None, schema, v) == Err(RewriteAll(q, i, schema, v).error);
      assert forall k :: i <= k < i + j ==> Unsealed(q, q.lookups[k], None, schema, v).Ok?;
    }
  }

  /**
   * `seal()` succeeds exactly when the queryset is not a values queryset,
   * the iterable class is a SealedModelIterable, and every lookup can be
   * rewritten.
   */
  lemma SealOneForOne(q: QuerySet, it: IterableClass, schema: Schema, v: Variant)
    requires Closed(schema) && Registered(schema, q)
    ensures Seal(q, it, schema, v).Ok? <==>
      q.valuesFields.None? && IsSubclass(it, SealedModelIterable) &&
      forall j :: 0 <= j < |q.lookups| ==> Unsealed(q, q.lookups[j], None, schema, v).Ok?
  {
    SealLookups(q, it, schema, v);
    RewriteAllOneForOne(q, 0, schema, v);
  }

  /** A sealed queryset's lookups are the rewritten ones, position by position. */
  lemma SealRewritesEach(q: QuerySet, it: IterableClass, schema: Schema, v: Variant)
    requires Closed(schema) && Registered(schema, q) && Seal(q, it, schema, v).Ok?
    ensures |Seal(q, it, schema, v).value.lookups| == |q.lookups|
    ensures forall j :: 0 <= j < |q.lookups| ==> Unsealed(q, q.lookups[j], None, schema, v) == Ok(Seal(q, it, schema, v).value.lookups[j])
  {
    SealLookups(q, it, schema, v);
    RewriteAllOneForOne(q, 0, schema, v);
    assert Seal(q, it, schema, v).value.lookups == RewriteAll(q, 0, schema, v).value;
  }

  /** `seal()` succeeds exactly when both checks pass and the lookups rewrite, and then holds the rewritten lookups. */
  lemma SealLookups(q: QuerySet, it: IterableClass, schema: Schema, v: Variant)
    requires Closed(schema) && Registered(schema, q)
    ensures Seal(q, it, schema, v).Ok? <==>
      q.valuesFields.None? && IsSubclass(it, SealedModelIterable) && RewriteAll(q, 0, schema, v).Ok?
    ensures Seal(q, it, schema, v).Ok? ==>
      Seal(q, it, schema, v).value == Clone(q, true).(iterable := it, lookups := RewriteAll(q, 0, schema, v).value)
  {
  }

  /** When a rewrite fails, `seal()` raises the exception of the first lookup that fails. */
  lemma SealRaisesFirstFailure(q: QuerySet, it: IterableClass, schema: Schema, v: Variant)
    requires Closed(schema) && Registered(schema, q)
    requires q.valuesFields.None? && IsSubclass(it, SealedModelIterable) && Seal(q, it, schema, v).Err?
    ensures exists j :: 0 <= j < |q.lookups| && Unsealed(q, q.lookups[j], None, schema, v) == Err(Seal(q, it, schema, v).error) &&
                        (forall k :: 0 <= k < j ==> Unsealed(q, q.lookups[k], None, schema, v).Ok?)
  {
    RewriteAllOneForOne(q, 0, schema, v);
  }

  /** Every field name of every model is a non-empty identifier. */
  predicate NamedFields(schema: Schema) {
    forall m, f :: m in schema && f in schema[m].fields ==> f != ""
  }

  /**
   * Rewriting a string lookup `s`. The walk stops at the first part outside
   * the select_related dict, or at the final part: the parts before it form
   * a path in the dict. Without a related model the lookup is returned
   * unchanged. Otherwise the result is a Prefetch whose head is the parts up
   * to the stop, non-empty and, with the tail, rebuilding `s`. Its queryset
   * is the related model's default queryset, prefetching nothing exactly when
   * the tail is empty and sealed exactly when it is a SealableQuerySet.
   */
  lemma PathRewriteShape(q: QuerySet, s: string, toAttr: Option<string>, schema: Schema, v: Variant)
    requires Closed(schema) && q.model in schema
    requires Unsealed(q, Path(s), toAttr, schema, v).Ok?
    ensures Hop(schema, q.model, q.selectRelated, Split(s), 0).Ok?
    ensures var parts := Split(s);
            var (index, relatedModel) := Hop(schema, q.model, q.selectRelated, parts, 0).value;
            var x := Unsealed(q, Path(s), toAttr, schema, v).value;
            InTree(q.selectRelated, parts[..index - 1]) &&
            (index < |parts| ==> !InTree(q.selectRelated, parts[..index])) &&
            (relatedModel.None? <==> x == Path(s)) &&
            (relatedModel.Some? ==>
              x.Prefetch? && x.through == Join(parts[..index]) &&
              (index == |parts| ==> x.through == s) &&
              (index < |parts| ==> x.through + Sep + Join(parts[index..]) == s) &&
              (NamedFields(schema) ==> x.through != "") &&
              (v == AsWritten ==> x.toAttr == toAttr) &&
              x.queryset.Some? && x.queryset.value.model == relatedModel.value &&
              x.queryset.value.sealed == schema[relatedModel.value].sealableQuerySet &&
              (index == |parts| ==> x.queryset.value.lookups == []) &&
              (index < |parts| && NoEmptyPart(s) ==> |x.queryset.value.lookups| == 1))
  {
    PathRewriteWalk(q, s, toAttr, schema, v);
    PathRewriteHead(q, s, toAttr, schema, v);
    PathRewriteNested(q, s, toAttr, schema, v);
  }

  /** The walk of a rewritten string lookup: where it stops in the select_related dict, and whether it rewrote. */
  lemma PathRewriteWalk(q: QuerySet, s: string, toAttr: Option<string>, schema: Schema, v: Variant)
    requires Closed(schema) && q.model in schema
    requires Unsealed(q, Path(s), toAttr, schema, v).Ok?
    ensures Hop(schema, q.model, q.selectRelated, Split(s), 0).Ok?
    ensures var parts := Split(s);
            var (index, relatedModel) := Hop(schema, q.model, q.selectRelated, parts, 0).value;
            InTree(q.selectRelated, parts[..index - 1]) &&
            (index < |parts| ==> !InTree(q.selectRelated, parts[..index])) &&
            (relatedModel.None? <==> Unsealed(q, Path(s), toAttr, schema, v).value == Path(s))
  {
    var parts := Split(s);
    var index := Hop(schema, q.model, q.selectRelated, parts, 0).value.0;
    HopSplitsPath(schema, q.model, q.selectRelated, parts, 0);
    assert parts[0..index - 1] == parts[..index - 1];
    assert parts[0..index] == parts[..index];
  }

  /** The head of a string lookup rewritten to a Prefetch: the parts up to the stop, rebuilding the lookup with the tail. */
  lemma PathRewriteHead(q: QuerySet, s: string, toAttr: Option<string>, schema: Schema, v: Variant)
    requires Closed(schema) && q.model in schema
    requires Unsealed(q, Path(s), toAttr, schema, v).Ok?
    ensures Hop(schema, q.model, q.selectRelated, Split(s), 0).Ok?
    ensures var parts := Split(s);
            var (index, relatedModel) := Hop(schema, q.model, q.selectRelated, parts, 0).value;
            var x := Unsealed(q, Path(s), toAttr, schema, v).value;
            relatedModel.Some? ==>
              x.Prefetch? && x.through == Join(parts[..index]) &&
              (index == |parts| ==> x.through == s) &&
              (index < |parts| ==> x.through + Sep + Join(parts[index..]) == s) &&
              (NamedFields(schema) ==> x.through != "") &&
              (v == AsWritten ==> x.toAttr == toAttr)
  {
    var parts := Split(s);
    var (index, relatedModel) := Hop(schema, q.model, q.selectRelated, parts, 0).value;
    if relatedModel.Some? {
      HeadTail(s, index);
      JoinStartsWithFirst(parts[..index]);
    }
  }

  /** The queryset of a string lookup rewritten to a Prefetch: the related model's, sealed when sealable, prefetching the tail. */
  lemma PathRewriteNested(q: QuerySet, s: string, toAttr: Option<string>, schema: Schema, v: Variant)
    requires Closed(schema) && q.model in schema
    requires Unsealed(q, Path(s), toAttr, schema, v).Ok?
    ensures Hop(schema, q.model, q.selectRelated, Split(s), 0).Ok?
    ensures var parts := Split(s);
            var (index, relatedModel) := Hop(schema, q.model, q.selectRelated, parts, 0).value;
            var x := Unsealed(q, Path(s), toAttr, schema, v).value;
            relatedModel.Some? ==>
              x.Prefetch? && x.queryset.Some? && x.queryset.value.model == relatedModel.value &&
              x.queryset.value.sealed == schema[relatedModel.value].sealableQuerySet &&
              (index == |parts| ==> x.queryset.value.lookups == []) &&
              (index < |parts| && NoEmptyPart(s) ==> |x.queryset.value.lookups| == 1)
  {
    var parts := Split(s);
    var (index, relatedModel) := Hop(schema, q.model, q.selectRelated, parts, 0).value;
    if relatedModel.Some? {
      HeadTail(s, index);
      if index < |parts| {
        assert parts[index] in parts;
        JoinStartsWithFirst(parts[index..]);
      }
      NestedLookups(schema, relatedModel.value, Join(parts[index..]), toAttr, v);
    }
  }

  // ---------------------------------------------------------------------
  // Where prefetched records land
  // ---------------------------------------------------------------------

  /**
   * The host's `Prefetch.prefetch_to`: the lookup path with its last part
   * replaced by `to_attr`, naming the attribute the prefetched records are
   * stored in.
   */
  function PrefetchTo(through: string, toAttr: Option<string>): string {
    match toAttr
    case None => through
    case Some(a) => var parts := Split(through); Join(parts[..|parts| - 1] + [a])
  }

  /**
   * The attribute path, from the queryset's own records, under which the
   * records a lookup fetches at its deepest level are stored: `prefetch_to`,
   * continued into a Prefetch queryset that prefetches exactly one lookup
   * and stores its own level under the relation's name. Any other Prefetch
   * (one with a `to_attr`, or whose queryset has several lookups or none)
   * stops at its own `prefetch_to`.
   */
  function Destination(l: Lookup): string
    decreases l
  {
    match l
    case Path(s) => s
    case Prefetch(t, None, a) => PrefetchTo(t, a)
    case Prefetch(t, Some(qs), a) =>
      if a.None? && |qs.lookups| == 1 then t + Sep + Destination(qs.lookups[0]) else PrefetchTo(t, a)
  }

  /** Every part of every lookup path, at every nesting level, is a non-empty name. */
  predicate WellNamed(q: QuerySet)
    decreases q, 1
  {
    forall i :: 0 <= i < |q.lookups| ==> LookupWellNamed(q.lookups[i])
  }

  predicate LookupWellNamed(l: Lookup)
    decreases l, 0
  {
    match l
    case Path(s) => NoEmptyPart(s)
    case Prefetch(t, None, _) => NoEmptyPart(t)
    case Prefetch(_, Some(qs), _) => WellNamed(qs)
  }

  /** Cutting a lookup after `index` parts and replacing the last part of the tail replaces the last part of the whole. */
  lemma PrefetchToAfterHead(s: string, index: nat, toAttr: Option<string>)
    requires 0 < index < |Split(s)|
    ensures Join(Split(s)[..index]) + Sep + PrefetchTo(Join(Split(s)[index..]), toAttr) == PrefetchTo(s, toAttr)
  {
    var parts := Split(s);
    var tail := Join(parts[index..]);
    SplitSuffix(s, index);
    match toAttr
    case None =>
      HeadTail(s, index);
    case Some(a) =>
      PrefetchToReplacesLast(tail, a);
      PrefetchToReplacesLast(s, a);
      JoinReplaceLast(parts, index, a);
  }

  /** Joining the parts cut after `index`, with the last one replaced, is joining them all with it replaced. */
  lemma JoinReplaceLast(parts: seq<string>, index: nat, a: string)
    requires 0 < index < |parts|
    ensures Join(parts[..index]) + Sep + Join(parts[index..][..|parts[index..]| - 1] + [a]) ==
            Join(parts[..|parts| - 1] + [a])
  {
    var p := parts[..|parts| - 1] + [a];
    ReplaceLastSlices(parts, index, a);
    JoinAt(p, index);
  }

  /** A `to_attr` replaces the last part of the lookup. */
  lemma PrefetchToReplacesLast(through: string, a: string)
    ensures var parts := Split(through);
            |parts| > 0 && PrefetchTo(through, Some(a)) == Join(parts[..|parts| - 1] + [a])
  {
  }

  /** Replacing the last part commutes with cutting the parts after `index`. */
  lemma ReplaceLastSlices(parts: seq<string>, index: nat, a: string)
    requires index < |parts|
    ensures var p := parts[..|parts| - 1] + [a];
            p[..index] == parts[..index] &&
            p[index..] == parts[index..][..|parts[index..]| - 1] + [a]
  {
  }

  /**
   * With the intended `to_attr` handling, rewriting a lookup never moves
   * where its records land: a Prefetch keeps its destination, and a string
   * lookup rewritten for a `to_attr` lands at its `prefetch_to`.
   */
  lemma {:induction false} UnsealedKeepsDestination(q: QuerySet, l: Lookup, toAttr: Option<string>, schema: Schema)
    requires Closed(schema) && q.model in schema && LookupRegistered(schema, l) && LookupWellNamed(l)
    requires Unsealed(q, l, toAttr, schema, Intended).Ok?
    ensures var x := Unsealed(q, l, toAttr, schema, Intended).value;
            (l.Prefetch? ==> Destination(x) == Destination(l)) &&
            (l.Path? ==> x == l || Destination(x) == PrefetchTo(l.path, toAttr))
    decreases LSize(l), 1, 0
  {
    match l
    case Path(s) =>
      PathKeepsDestination(q, s, toAttr, schema);
    case Prefetch(t, None, a) =>
      PathKeepsDestination(q, t, a, schema);
    case Prefetch(t, Some(qs), a) =>
      if qs.sealable {
        SealKeepsDestinations(qs, SealedModelIterable, schema);
      }
  }

  /** The Prefetch a string lookup with a related model is rewritten into, spelled out. */
  lemma PathRewriteForm(q: QuerySet, s: string, toAttr: Option<string>, schema: Schema, v: Variant)
    requires Closed(schema) && q.model in schema
    requires Unsealed(q, Path(s), toAttr, schema, v).Ok?
    requires Hop(schema, q.model, q.selectRelated, Split(s), 0).Ok?
    requires Hop(schema, q.model, q.selectRelated, Split(s), 0).value.1.Some?
    ensures var parts := Split(s);
            var (index, relatedModel) := Hop(schema, q.model, q.selectRelated, parts, 0).value;
            var tail := Join(parts[index..]);
            NestedQuerySet(schema, relatedModel.value, tail, toAttr, v).Ok? &&
            var n := NestedQuerySet(schema, relatedModel.value, tail, toAttr, v).value;
            (n.sealable ==> Seal(n, SealedModelIterable, schema, v).Ok?) &&
            Unsealed(q, Path(s), toAttr, schema, v).value ==
              Prefetch(Join(parts[..index]),
                       Some(if n.sealable then Seal(n, SealedModelIterable, schema, v).value else n),
                       OuterAttr(tail, toAttr, v))
  {
  }

  lemma {:induction false} PathKeepsDestination(q: QuerySet, s: string, toAttr: Option<string>, schema: Schema)
    requires Closed(schema) && q.model in schema && NoEmptyPart(s)
    requires Unsealed(q, Path(s), toAttr, schema, Intended).Ok?
    ensures var x := Unsealed(q, Path(s), toAttr, schema, Intended).value;
            x == Path(s) || Destination(x) == PrefetchTo(s, toAttr)
    decreases 2 * |s| + 2, 0, 0
  {
    var parts := Split(s);
    var (index, relatedModel) := Hop(schema, q.model, q.selectRelated, parts, 0).value;
    if relatedModel.Some? {
      var head, tail := Join(parts[..index]), Join(parts[index..]);
      HeadTail(s, index);
      PathRewriteForm(q, s, toAttr, schema, Intended);
      var n := NestedQuerySet(schema, relatedModel.value, tail, toAttr, Intended).value;
      var nq := if n.sealable then Seal(n, SealedModelIterable, schema, Intended).value else n;
      var x := Prefetch(head, Some(nq), OuterAttr(tail, toAttr, Intended));
      if index < |parts| {
        assert parts[index] in parts;
        JoinStartsWithFirst(parts[index..]);
        SplitSuffix(s, index);
        assert forall p :: p in Split(tail) ==> p in parts;
        NestedKeepsDestination(schema, relatedModel.value, tail, toAttr);
        assert Destination(x) == head + Sep + Destination(nq.lookups[0]);
        PrefetchToAfterHead(s, index, toAttr);
      } else {
        assert |nq.lookups| == |n.lookups| == 0;
      }
    }
  }

  /** The nested queryset built for a non-empty tail prefetches it into the tail's `prefetch_to`. */
  lemma {:induction false} NestedKeepsDestination(schema: Schema, model: string, tail: string, toAttr: Option<string>)
    requires Closed(schema) && model in schema && tail != "" && NoEmptyPart(tail)
    ensures var n := NestedQuerySet(schema, model, tail, toAttr, Intended).value;
            |n.lookups| == 1 && Destination(n.lookups[0]) == PrefetchTo(tail, toAttr) &&
            (n.sealable && Seal(n, SealedModelIterable, schema, Intended).Ok? ==>
               var nq := Seal(n, SealedModelIterable, schema, Intended).value;
               |nq.lookups| == 1 && Destination(nq.lookups[0]) == PrefetchTo(tail, toAttr))
    decreases 2 * |tail| + 3, 2, 0
  {
    var n := NestedQuerySet(schema, model, tail, toAttr, Intended).value;
    NestedLookups(schema, model, tail, toAttr, Intended);
    var inner := InnerLookup(tail, toAttr, Intended);
    if n.sealable && Seal(n, SealedModelIterable, schema, Intended).Ok? {
      var nq := Seal(n, SealedModelIterable, schema, Intended).value;
      SealRewritesEach(n, SealedModelIterable, schema, Intended);
      assert Unsealed(n, inner, None, schema, Intended) == Ok(nq.lookups[0]);
      UnsealedKeepsDestination(n, inner, None, schema);
    }
  }

  /**
   * With the intended `to_attr` handling, `seal()` keeps the destination of
   * every lookup, as far as `Destination` follows it: through a single
   * nested lookup, stopping at a `to_attr`.
   */
  lemma {:induction false} SealKeepsDestinations(q: QuerySet, it: IterableClass, schema: Schema)
    requires Closed(schema) && Registered(schema, q) && WellNamed(q)
    requires Seal(q, it, schema, Intended).Ok?
    ensures forall i :: 0 <= i < |q.lookups| ==>
      Destination(Seal(q, it, schema, Intended).value.lookups[i]) == Destination(q.lookups[i])
    decreases QSize(q), 3, 0
  {
    SealRewritesEach(q, it, schema, Intended);
    forall i | 0 <= i < |q.lookups|
      ensures Destination(Seal(q, it, schema, Intended).value.lookups[i]) == Destination(q.lookups[i])
    {
      LookupSizeBound(q, i);
      assert LookupRegistered(schema, q.lookups[i]) && LookupWellNamed(q.lookups[i]);
      UnsealedKeepsDestination(q, q.lookups[i], None, schema);
    }
  }

  /** A model "A" whose field "o" is a relation without a related model, like a GenericForeignKey. */
  function GenericSchema(): Schema {
    map["A" := ModelMeta(map["o" := Field(None)], true, SealedModelIterable, false)]
  }

  /**
   * As written, `Prefetch("o", to_attr="x")` over such a field is rewritten
   * to the bare string "o": the prefetched records land under "o", not "x".
   * The intended rewrite returns the Prefetch unchanged.
   */
  lemma GenericPrefetchLosesToAttr()
    ensures var schema := GenericSchema();
            var q := DefaultQuerySet(schema, "A");
            var l := Prefetch("o", None, Some("x"));
            Closed(schema) &&
            Unsealed(q, l, None, schema, AsWritten) == Ok(Path("o")) &&
            Destination(l) == "x" && Destination(Path("o")) == "o" &&
            Unsealed(q, l, None, schema, Intended) == Ok(l)
  {
    var schema := GenericSchema();
    assert Split("o") == ["o"];
    assert Split("x") == ["x"];
    assert Join(["x"]) == "x";
    assert IndexOf(Tree([]), "o") == 0;
  }

  /** Models "A", "B" and "C" with relations A.b to B and B.c to C, none with a SealableQuerySet. */
  function ChainSchema(): Schema {
    map["A" := ModelMeta(map["b" := Field(Some("B"))], false, ModelIterable, false),
        "B" := ModelMeta(map["c" := Field(Some("C"))], false, ModelIterable, false),
        "C" := ModelMeta(map[], false, ModelIterable, false)]
  }

  /**
   * As written, `Prefetch("b__c", to_attr="x")` becomes a Prefetch of "b"
   * carrying `to_attr="x"`: the B records land in `x` on each A instead of
   * the C records landing in `x` on each B ("b__x").
   */
  lemma NestedPrefetchMovesToAttr()
    ensures var schema := ChainSchema();
            var q := DefaultQuerySet(schema, "A");
            var l := Prefetch("b__c", None, Some("x"));
            Closed(schema) &&
            Unsealed(q, l, None, schema, AsWritten).Ok? &&
            Destination(l) == "b__x" &&
            Destination(Unsealed(q, l, None, schema, AsWritten).value) == "x"
  {
    ChainParts();
    assert IndexOf(Tree([]), "b") == 0;
  }

  /**
   * Models "A", "B" and "C" with relations A.b to B and B.c to C, all with a
   * SealableQuerySet, where B is declared with `seal=True`: its default
   * manager seals the querysets it hands out.
   */
  function SealedTargetSchema(): Schema {
    map["A" := ModelMeta(map["b" := Field(Some("B"))], true, ModelIterable, false),
        "B" := ModelMeta(map["c" := Field(Some("C"))], true, ModelIterable, true),
        "C" := ModelMeta(map[], true, ModelIterable, false)]
  }

  /**
   * As written, sealing a queryset of A that prefetches "b__c" raises the
   * `prefetch_related` error: B's default manager hands out a sealed
   * queryset and the tail "c" is prefetched on it. The intended rewrite
   * prefetches the tail on an unsealed clone and seals the queryset.
   */
  lemma SealedManagerRefusesTail()
    ensures var schema := SealedTargetSchema();
            var q := DefaultQuerySet(schema, "A").(lookups := [Path("b__c")]);
            Closed(schema) && Registered(schema, q) &&
            Seal(q, SealedModelIterable, schema, AsWritten) == Err(PrefetchRelatedAfterSeal) &&
            Seal(q, SealedModelIterable, schema, Intended).Ok?
  {
    SealedTargetAsWritten();
    SealedTargetIntended();
  }

  /** The head "b" is rewritten with B's sealed default queryset, on which the tail "c" cannot be prefetched. */
  lemma SealedTargetAsWritten()
    ensures var schema := SealedTargetSchema();
            var q := DefaultQuerySet(schema, "A").(lookups := [Path("b__c")]);
            Closed(schema) && RewriteAll(q, 0, schema, AsWritten) == Err(PrefetchRelatedAfterSeal)
  {
    var schema := SealedTargetSchema();
    var q := DefaultQuerySet(schema, "A").(lookups := [Path("b__c")]);
    ChainParts();
    assert IndexOf(Tree([]), "b") == 0;
    assert Hop(schema, "A", Tree([]), ["b", "c"], 0) == Ok((1, Some("B")));
    HeadTail("b__c", 1);
    assert NestedQuerySet(schema, "B", "c", None, AsWritten) == Err(PrefetchRelatedAfterSeal);
    assert Unsealed(q, Path("b__c"), None, schema, AsWritten) == Err(PrefetchRelatedAfterSeal);
  }

  /** The intended rewrite prefetches "c" on an unsealed clone of B's queryset and seals that. */
  lemma SealedTargetIntended()
    ensures var schema := SealedTargetSchema();
            var q := DefaultQuerySet(schema, "A").(lookups := [Path("b__c")]);
            Closed(schema) && RewriteAll(q, 0, schema, Intended).Ok?
  {
    var schema := SealedTargetSchema();
    var q := DefaultQuerySet(schema, "A").(lookups := [Path("b__c")]);
    ChainParts();
    assert IndexOf(Tree([]), "b") == 0;
    assert Hop(schema, "A", Tree([]), ["b", "c"], 0) == Ok((1, Some("B")));
    HeadTail("b__c", 1);
    SealedTargetNestedSeals();
    assert Unsealed(q, Path("b__c"), None, schema, Intended).Ok?;
    assert RewriteAll(q, 1, schema, Intended) == Ok([]);
  }

  /** B's queryset prefetching "c", as the intended rewrite builds it, can be sealed. */
  lemma SealedTargetNestedSeals()
    ensures var schema := SealedTargetSchema();
            Closed(schema) && NestedQuerySet(schema, "B", "c", None, Intended).Ok? &&
            Seal(NestedQuerySet(schema, "B", "c", None, Intended).value, SealedModelIterable, schema, Intended).Ok?
  {
  }

  /** How the lookups of the chain example split into parts. */
  lemma ChainParts()
    ensures Split("b__c") == ["b", "c"] && Split("b") == ["b"] && Split("x") == ["x"] && Join(["b", "x"]) == "b__x"
  {
    assert "b__c"[1..] == "__c" && "__c"[2..] == "c";
    assert Split("c") == ["c"];
    assert Split("__c") == ["", "c"];
    assert !StartsWithSep("b__c");
    SplitNoSep("b__c");
    var rest := Split("b__c"[1..]);
    assert rest == ["", "c"];
    assert ['b'] + rest[0] == "b";
    assert rest[1..] == ["c"];
  }
}
