/**
 * `seal/managers.py`, the older revision of the sealable queryset: a string
 * lookup is split only at its first `__`, a field without a related model is
 * an error, the nested queryset is never sealed, and `seal()` replaces the
 * iterable class only when it is a ModelIterable. Its iterable is the same
 * stamping loop as `Query.SealedIterator`, and its `_clone` is `Query.Clone`.
 */
module Managers {
  import opened Wrappers
  import opened Orm
  import opened LookupSep
  import Query

  /** The plain host `prefetch_related`: a clone with the lookups appended (no seal check in this revision). */
  function AppendLookups(q: QuerySet, lookups: seq<Lookup>): (r: QuerySet)
    ensures r.lookups == q.lookups + lookups && !r.sealed
    ensures r.(lookups := q.lookups, sealed := q.sealed) == q
  {
    Query.Clone(q).(lookups := q.lookups + lookups)
  }

  /**
   * The older `_unsealed_prefetch_lookup(l, to_attr)`: a string lookup
   * becomes a Prefetch of its first part with the related model's default
   * queryset, prefetching the rest when there is a non-empty rest; a
   * Prefetch without a queryset is rewritten from its `prefetch_through`
   * with its own `to_attr`; any other Prefetch is returned unchanged.
   */
  function OldUnsealed(q: QuerySet, l: Lookup, toAttr: Option<string>, schema: Schema): (r: Result<Lookup, QueryError>)
    requires Closed(schema) && q.model in schema
    ensures l.Path? ==>
      var (head, tail) := SplitFirst(l.path);
      (head !in schema[q.model].fields ==> r == Err(FieldDoesNotExist(q.model, head))) &&
      (head in schema[q.model].fields && schema[q.model].fields[head].relatedModel.None? ==>
        r == Err(NoRelatedModel(q.model, head))) &&
      (r.Ok? ==>
        r.value.Prefetch? && r.value.through == head && r.value.toAttr == toAttr && r.value.queryset.Some? &&
        var qs := r.value.queryset.value;
        qs.model == schema[q.model].fields[head].relatedModel.value && !qs.sealed &&
        qs.iterable == schema[qs.model].defaultIterable &&
        qs.lookups == (if tail.Some? && tail.value != "" then [Path(tail.value)] else []))
    ensures l.Path? ==> (r.Ok? <==>
      SplitFirst(l.path).0 in schema[q.model].fields && schema[q.model].fields[SplitFirst(l.path).0].relatedModel.Some?)
    ensures l.Prefetch? && l.queryset.None? ==> r == OldUnsealed(q, Path(l.through), l.toAttr, schema)
    ensures l.Prefetch? && l.queryset.Some? ==> r == Ok(l)
    decreases if l.Path? then 0 else 1
  {
    match l
    case Path(s) =>
      var (head, tail) := SplitFirst(s);
      if head !in schema[q.model].fields then Err(FieldDoesNotExist(q.model, head))
      else
        (match schema[q.model].fields[head].relatedModel
         case None => Err(NoRelatedModel(q.model, head))
         case Some(model) =>
           var queryset := DefaultQuerySet(schema, model);
           var queryset := if tail.Some? && tail.value != "" then AppendLookups(queryset, [Path(tail.value)]) else queryset;
           Ok(Prefetch(head, Some(queryset), toAttr)))
    case Prefetch(through, None, attr) => OldUnsealed(q, Path(through), attr, schema)
    case Prefetch(_, Some(_), _) => Ok(l)
  }

  /**
   * Where the older rewrite sends the records of a string lookup whose parts
   * are all names: without a `to_attr` they land on the original path, as
   * the host's own string prefetch would store them; with one they land
   * under the `to_attr` on the head's own records, one level up from the
   * last relation.
   */
  lemma OldRewriteDestination(q: QuerySet, s: string, toAttr: Option<string>, schema: Schema)
    requires Closed(schema) && q.model in schema && NoEmptyPart(s)
    requires OldUnsealed(q, Path(s), toAttr, schema).Ok?
    ensures toAttr.None? ==> Query.Destination(OldUnsealed(q, Path(s), toAttr, schema).value) == s
    ensures toAttr.Some? ==> Query.Destination(OldUnsealed(q, Path(s), toAttr, schema).value) == toAttr.value
  {
    var r := OldUnsealed(q, Path(s), toAttr, schema).value;
    var (head, tail) := SplitFirst(s);
    SplitFirstIsFirstPart(s);
    SplitFirstRebuilds(s);
    var parts := Split(s);
    assert head == parts[0];
    assert head != "" by { assert parts[0] in parts; }
    assert Split(head) == [head] by {
      assert [head] == parts[..1];
      if |parts| > 1 {
        HeadTail(s, 1);
      }
      SplitSingle(s, head);
    }
    if tail.Some? {
      assert |parts| > 1;
      assert parts[1] in parts;
      JoinStartsWithFirst(parts[1..]);
      assert tail.value != "";
    }
    if toAttr.Some? {
      assert Query.Destination(r) == Query.PrefetchTo(head, toAttr);
      assert Join(Split(head)[..0] + [toAttr.value]) == toAttr.value;
    }
  }

  /** The first part of a lookup, cut at the first `__`, splits into itself. */
  lemma SplitSingle(s: string, head: string)
    requires head == SplitFirst(s).0
    ensures Split(head) == [head]
    decreases |s|
  {
    if |s| >= 2 && !StartsWithSep(s) {
      var rest := SplitFirst(s[1..]).0;
      SplitSingle(s[1..], rest);
      SplitFirstRebuilds(s[1..]);
      assert |rest| > 0 ==> rest[0] == s[1];
      SingleCons(s[0], rest);
    }
  }

  /** Prepending a character that does not start a `__` to a single part keeps it a single part. */
  lemma SingleCons(c: char, rest: string)
    requires Split(rest) == [rest] && !StartsWithSep([c] + rest)
    ensures Split([c] + rest) == [[c] + rest]
  {
    var s := [c] + rest;
    if |s| >= 2 {
      assert s[1..] == rest;
      SplitNoSep(s);
    }
  }

  /**
   * The older `seal()`: a sealed clone whose lookups are the rewrites of the
   * original ones, one for one and in order, the first failing rewrite's
   * exception propagating; the iterable class becomes the older SealedModelIterable
   * only when it is a ModelIterable, so a values queryset keeps its own.
   */
  method OldSeal(q: QuerySet, schema: Schema) returns (r: Result<QuerySet, QueryError>)
    requires Closed(schema) && q.model in schema
    ensures r.Ok? <==> forall i :: 0 <= i < |q.lookups| ==> OldUnsealed(q, q.lookups[i], None, schema).Ok?
    ensures r.Ok? ==>
      |r.value.lookups| == |q.lookups| &&
      forall i :: 0 <= i < |q.lookups| ==> OldUnsealed(q, q.lookups[i], None, schema) == Ok(r.value.lookups[i])
    ensures r.Ok? ==> r.value.sealed
    ensures r.Ok? ==> r.value.iterable == (if IsSubclass(q.iterable, ModelIterable) then OldSealedModelIterable else q.iterable)
    ensures r.Ok? ==> r.value.(sealed := q.sealed, iterable := q.iterable, lookups := q.lookups) == q
    ensures r.Err? ==> exists i :: (0 <= i < |q.lookups| && OldUnsealed(q, q.lookups[i], None, schema) == Err(r.error) &&
      forall j :: 0 <= j < i ==> OldUnsealed(q, q.lookups[j], None, schema).Ok?)
  {
    var clone := Query.Clone(q, true);
    var lookups: seq<Lookup> := [];
    var i := 0;
    while i < |clone.lookups|
      invariant 0 <= i <= |q.lookups| && clone == Query.Clone(q, true)
      invariant |lookups| == i
      invariant forall j :: 0 <= j < i ==> OldUnsealed(q, q.lookups[j], None, schema) == Ok(lookups[j])
    {
      var rewritten := OldUnsealed(q, clone.lookups[i], None, schema);
      if rewritten.Err? {
        return Err(rewritten.error);
      }
      lookups := lookups + [rewritten.value];
      i := i + 1;
    }
    clone := clone.(lookups := lookups);
    if IsSubclass(clone.iterable, ModelIterable) {
      clone := clone.(iterable := OldSealedModelIterable);
    }
    r := Ok(clone);
  }
}
