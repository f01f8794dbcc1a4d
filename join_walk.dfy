/**
 * `get_select_related_getters` and `walk_select_relateds`: the select_related
 * dict becomes a tree of attribute getters, and walking that tree from a
 * fetched record lists every record joined to it, in pre-order, skipping the
 * whole subtree under any relation that is None.
 */
module JoinWalk {
  import opened Wrappers
  import opened Orm

  /** `(attrgetter(lookup), nested_getters)`. */
  datatype Getter = Getter(attr: string, nested: Getters)
  datatype Getters = Getters(items: seq<Getter>)

  /** The getter tree has exactly the keys, order and nesting of the select_related dict. */
  predicate Shaped(g: Getters, t: Tree)
    decreases t
  {
    |g.items| == |t.children| &&
    forall i :: 0 <= i < |g.items| ==>
      g.items[i].attr == t.children[i].0 && Shaped(g.items[i].nested, t.children[i].1)
  }

  /** Every key of the dict names a field of its model that has a related model, recursively. */
  predicate Resolves(schema: Schema, model: string, t: Tree)
    requires Closed(schema) && model in schema
    decreases t, 1
  {
    forall j :: 0 <= j < |t.children| ==> ResolvesAt(schema, model, t, j)
  }

  /** Key `j` of the dict resolves against `model`. */
  predicate ResolvesAt(schema: Schema, model: string, t: Tree, j: nat)
    requires Closed(schema) && model in schema && j < |t.children|
    decreases t, 0
  {
    var (key, sub) := t.children[j];
    key in schema[model].fields && schema[model].fields[key].relatedModel.Some? &&
    Resolves(schema, schema[model].fields[key].relatedModel.value, sub)
  }

  /**
   * `tuple(get_select_related_getters(lookups, opts))`: fails with the first
   * key, in pre-order, that is not a field (FieldDoesNotExist) or whose field
   * has no related model (the AttributeError on `None._meta`).
   */
  function SelectRelatedGetters(schema: Schema, model: string, t: Tree): (r: Result<Getters, QueryError>)
    requires Closed(schema) && model in schema
    decreases t, 1
  {
    match GettersFrom(schema, model, t, 0)
    case Err(e) => Err(e)
    case Ok(items) => Ok(Getters(items))
  }

  function GettersFrom(schema: Schema, model: string, t: Tree, i: nat): (r: Result<seq<Getter>, QueryError>)
    requires Closed(schema) && model in schema && i <= |t.children|
    decreases t, 0, |t.children| - i
  {
    if i == |t.children| then Ok([])
    else
      var (key, sub) := t.children[i];
      if key !in schema[model].fields then Err(FieldDoesNotExist(model, key))
      else match schema[model].fields[key].relatedModel
        case None => Err(NoRelatedModel(model, key))
        case Some(rm) =>
          match SelectRelatedGetters(schema, rm, sub)
          case Err(e) => Err(e)
          case Ok(nested) =>
            match GettersFrom(schema, model, t, i + 1)
            case Err(e) => Err(e)
            case Ok(rest) => Ok([Getter(key, nested)] + rest)
  }

  /**
   * The getters are built exactly when every key resolves, and then they
   * have the dict's shape.
   */
  lemma {:induction false} GettersShape(schema: Schema, model: string, t: Tree)
    requires Closed(schema) && model in schema
    ensures SelectRelatedGetters(schema, model, t).Ok? <==> Resolves(schema, model, t)
    ensures SelectRelatedGetters(schema, model, t).Ok? ==> Shaped(SelectRelatedGetters(schema, model, t).value, t)
    decreases t, 1
  {
    GettersFromShape(schema, model, t, 0);
    assert SelectRelatedGetters(schema, model, t).Ok? <==> GettersFrom(schema, model, t, 0).Ok?;
    assert GettersFrom(schema, model, t, 0).Ok? ==> forall j :: 0 <= j < |t.children| ==> ResolvesAt(schema, model, t, j);
  }

  lemma {:induction false} GettersFromShape(schema: Schema, model: string, t: Tree, i: nat)
    requires Closed(schema) && model in schema && i <= |t.children|
    ensures var r := GettersFrom(schema, model, t, i);
            (r.Ok? <==> forall j :: i <= j < |t.children| ==> ResolvesAt(schema, model, t, j)) &&
            (r.Ok? ==>
              |r.value| == |t.children| - i &&
              forall j :: 0 <= j < |r.value| ==>
                r.value[j].attr == t.children[i + j].0 && Shaped(r.value[j].nested, t.children[i + j].1))
    decreases t, 0, |t.children| - i
  {
    if i < |t.children| {
      var (key, sub) := t.children[i];
      if key in schema[model].fields && schema[model].fields[key].relatedModel.Some? {
        var rm := schema[model].fields[key].relatedModel.value;
        GettersShape(schema, rm, sub);
        GettersFromShape(schema, model, t, i + 1);
        var r := GettersFrom(schema, model, t, i);
        if SelectRelatedGetters(schema, rm, sub).Err? {
          assert !ResolvesAt(schema, model, t, i);
        }
        if r.Ok? {
          var nested := SelectRelatedGetters(schema, rm, sub).value;
          var rest := GettersFrom(schema, model, t, i + 1).value;
          assert r.value == [Getter(key, nested)] + rest;
          forall j | 0 <= j < |r.value|
            ensures r.value[j].attr == t.children[i + j].0 && Shaped(r.value[j].nested, t.children[i + j].1)
          {
            if j > 0 {
              assert r.value[j] == rest[j - 1];
            }
          }
        }
      } else {
        assert !ResolvesAt(schema, model, t, i);
      }
    }
  }

  /**
   * The host filled the relation cache of `obj` for every getter, and of every
   * joined record for the getters nested under it.
   */
  predicate Joined(obj: Record, g: Getters)
    decreases g
  {
    forall i :: 0 <= i < |g.items| ==>
      g.items[i].attr in obj.joined &&
      (obj.joined[g.items[i].attr].Some? ==> Joined(obj.joined[g.items[i].attr].value, g.items[i].nested))
  }

  /** `walk_select_relateds(obj, getters)`. */
  function Walk(obj: Record, g: Getters): seq<Record>
    requires Joined(obj, g)
    decreases g, 1
  {
    WalkFrom(obj, g, 0)
  }

  function WalkFrom(obj: Record, g: Getters, i: nat): seq<Record>
    requires Joined(obj, g) && i <= |g.items|
    decreases g, 0, |g.items| - i
  {
    if i == |g.items| then []
    else match obj.joined[g.items[i].attr]
      case None => WalkFrom(obj, g, i + 1)
      case Some(related) => [related] + Walk(related, g.items[i].nested) + WalkFrom(obj, g, i + 1)
  }

  /**
   * The record reached from `obj` by taking getter `p[0]`, then getter `p[1]`
   * of the nested getters, and so on; None when a hop is None or off the tree.
   */
  function Follow(obj: Record, g: Getters, p: seq<nat>): Option<Record>
    requires Joined(obj, g)
    decreases |p|
  {
    if p == [] then Some(obj)
    else if p[0] >= |g.items| then None
    else match obj.joined[g.items[p[0]].attr]
      case None => None
      case Some(related) => Follow(related, g.items[p[0]].nested, p[1..])
  }

  /** `[i] + p` for every path `p` of `ps`. */
  function Under(i: nat, ps: seq<seq<nat>>): (r: seq<seq<nat>>)
    ensures |r| == |ps| && forall k :: 0 <= k < |ps| ==> r[k] == [i] + ps[k]
  {
    seq(|ps|, k requires 0 <= k < |ps| => [i] + ps[k])
  }

  /** The getter paths of the records the walk reaches, listed in the walk's own order. */
  function LivePaths(obj: Record, g: Getters): seq<seq<nat>>
    requires Joined(obj, g)
    decreases g, 1
  {
    LivePathsFrom(obj, g, 0)
  }

  function LivePathsFrom(obj: Record, g: Getters, i: nat): seq<seq<nat>>
    requires Joined(obj, g) && i <= |g.items|
    decreases g, 0, |g.items| - i
  {
    if i == |g.items| then []
    else match obj.joined[g.items[i].attr]
      case None => LivePathsFrom(obj, g, i + 1)
      case Some(related) => [[i]] + Under(i, LivePaths(related, g.items[i].nested)) + LivePathsFrom(obj, g, i + 1)
  }

  /** Strict lexicographic order on paths, a proper prefix coming first: pre-order. */
  predicate PreOrderLess(a: seq<nat>, b: seq<nat>)
    decreases |a|
  {
    |b| > 0 && (|a| == 0 || a[0] < b[0] || (a[0] == b[0] && PreOrderLess(a[1..], b[1..])))
  }

  predicate PreOrdered(ps: seq<seq<nat>>) {
    forall k, l :: 0 <= k < l < |ps| ==> PreOrderLess(ps[k], ps[l])
  }

  /** The walk yields, position by position, the records at its live paths. */
  lemma {:induction false} WalkFollowsPaths(obj: Record, g: Getters)
    requires Joined(obj, g)
    ensures |LivePaths(obj, g)| == |Walk(obj, g)|
    ensures forall k :: 0 <= k < |Walk(obj, g)| ==> Follow(obj, g, LivePaths(obj, g)[k]) == Some(Walk(obj, g)[k])
    decreases g, 1
  {
    WalkFromFollowsPaths(obj, g, 0);
  }

  lemma {:induction false} WalkFromFollowsPaths(obj: Record, g: Getters, i: nat)
    requires Joined(obj, g) && i <= |g.items|
    ensures |LivePathsFrom(obj, g, i)| == |WalkFrom(obj, g, i)|
    ensures forall k :: 0 <= k < |WalkFrom(obj, g, i)| ==>
      Follow(obj, g, LivePathsFrom(obj, g, i)[k]) == Some(WalkFrom(obj, g, i)[k])
    decreases g, 0, |g.items| - i
  {
    if i < |g.items| {
      WalkFromFollowsPaths(obj, g, i + 1);
      match obj.joined[g.items[i].attr]
      case None =>
      case Some(related) =>
        var nested := g.items[i].nested;
        WalkFollowsPaths(related, nested);
        var ps, ws := LivePaths(related, nested), Walk(related, nested);
        var rest, wrest := LivePathsFrom(obj, g, i + 1), WalkFrom(obj, g, i + 1);
        var P, W := LivePathsFrom(obj, g, i), WalkFrom(obj, g, i);
        assert P == [[i]] + Under(i, ps) + rest;
        assert W == [related] + ws + wrest;
        forall k | 0 <= k < |W|
          ensures Follow(obj, g, P[k]) == Some(W[k])
        {
          if k == 0 {
            assert P[0] == [i] && W[0] == related;
            assert Follow(obj, g, [i]) == Follow(related, nested, []);
          } else if k <= |ps| {
            assert P[k] == [i] + ps[k - 1] && W[k] == ws[k - 1];
            assert ([i] + ps[k - 1])[1..] == ps[k - 1];
          } else {
            assert P[k] == rest[k - 1 - |ps|] && W[k] == wrest[k - 1 - |ps|];
          }
        }
    }
  }

  /** Every path from `LivePathsFrom(obj, g, i)` starts with a getter index at least `i`. */
  lemma {:induction false} LivePathsFromHeads(obj: Record, g: Getters, i: nat)
    requires Joined(obj, g) && i <= |g.items|
    ensures forall k :: 0 <= k < |LivePathsFrom(obj, g, i)| ==>
      |LivePathsFrom(obj, g, i)[k]| > 0 && i <= LivePathsFrom(obj, g, i)[k][0] < |g.items|
    decreases |g.items| - i
  {
    if i < |g.items| {
      LivePathsFromHeads(obj, g, i + 1);
    }
  }

  lemma PreOrderConcat(a: seq<seq<nat>>, b: seq<seq<nat>>)
    requires PreOrdered(a) && PreOrdered(b)
    requires forall x, y :: x in a && y in b ==> PreOrderLess(x, y)
    ensures PreOrdered(a + b)
  {
    forall k, l | 0 <= k < l < |a + b|
      ensures PreOrderLess((a + b)[k], (a + b)[l])
    {
      if l < |a| {
        assert (a + b)[k] == a[k] && (a + b)[l] == a[l];
      } else if k >= |a| {
        assert (a + b)[k] == b[k - |a|] && (a + b)[l] == b[l - |a|];
      } else {
        assert (a + b)[k] in a && (a + b)[l] in b;
      }
    }
  }

  lemma UnderPreOrdered(i: nat, ps: seq<seq<nat>>)
    requires PreOrdered(ps)
    ensures PreOrdered(Under(i, ps))
  {
    var u := Under(i, ps);
    forall k, l | 0 <= k < l < |u|
      ensures PreOrderLess(u[k], u[l])
    {
      assert u[k][1..] == ps[k] && u[l][1..] == ps[l];
    }
  }

  /** The walk visits its records in pre-order of their getter paths. */
  lemma {:induction false} WalkIsPreOrder(obj: Record, g: Getters)
    requires Joined(obj, g)
    ensures PreOrdered(LivePaths(obj, g))
    decreases g, 1
  {
    WalkFromIsPreOrder(obj, g, 0);
  }

  lemma {:induction false} WalkFromIsPreOrder(obj: Record, g: Getters, i: nat)
    requires Joined(obj, g) && i <= |g.items|
    ensures PreOrdered(LivePathsFrom(obj, g, i))
    decreases g, 0, |g.items| - i
  {
    if i < |g.items| {
      WalkFromIsPreOrder(obj, g, i + 1);
      LivePathsFromHeads(obj, g, i + 1);
      match obj.joined[g.items[i].attr]
      case None =>
      case Some(related) =>
        var nested := g.items[i].nested;
        var ps := LivePaths(related, nested);
        var rest := LivePathsFrom(obj, g, i + 1);
        WalkIsPreOrder(related, nested);
        LivePathsFromHeads(related, nested, 0);
        assert ps == LivePathsFrom(related, nested, 0);
        UnderPreOrdered(i, ps);
        var u := Under(i, ps);
        forall y | y in u
          ensures PreOrderLess([i], y)
        {
          var k :| 0 <= k < |u| && u[k] == y;
          assert |ps[k]| > 0;
          assert y[1..] == ps[k];
        }
        PreOrderConcat([[i]], u);
        forall x, y | x in [[i]] + u && y in rest
          ensures PreOrderLess(x, y)
        {
          var k :| 0 <= k < |rest| && rest[k] == y;
        }
        PreOrderConcat([[i]] + u, rest);
    }
  }

  /** Every record reachable through the getters by a non-empty path is yielded by the walk. */
  lemma {:induction false} WalkIsComplete(obj: Record, g: Getters, p: seq<nat>)
    requires Joined(obj, g) && p != [] && Follow(obj, g, p).Some?
    ensures p in LivePaths(obj, g)
    decreases g, 1, 0
  {
    WalkFromIsComplete(obj, g, p, 0);
  }

  lemma {:induction false} WalkFromIsComplete(obj: Record, g: Getters, p: seq<nat>, i: nat)
    requires Joined(obj, g) && p != [] && Follow(obj, g, p).Some? && i <= p[0]
    ensures p in LivePathsFrom(obj, g, i)
    decreases g, 0, p[0] - i
  {
    var related := obj.joined[g.items[p[0]].attr].value;
    var nested := g.items[p[0]].nested;
    if i < p[0] {
      WalkFromIsComplete(obj, g, p, i + 1);
    } else {
      assert LivePathsFrom(obj, g, i)[0] == [i];
      if |p| > 1 {
        WalkIsComplete(related, nested, p[1..]);
        var k :| 0 <= k < |LivePaths(related, nested)| && LivePaths(related, nested)[k] == p[1..];
        assert Under(i, LivePaths(related, nested))[k] == p;
      } else {
        assert p == [i];
      }
    }
  }

  /** Nothing below a None relation is reached: the walk skips the whole subtree. */
  lemma {:induction false} NoneSkipsSubtree(obj: Record, g: Getters, p: seq<nat>, q: seq<nat>)
    requires Joined(obj, g) && Follow(obj, g, p).None?
    ensures Follow(obj, g, p + q).None?
    ensures p + q !in LivePaths(obj, g)
    decreases |p|
  {
    assert p != [];
    assert (p + q)[0] == p[0];
    if p[0] < |g.items| && obj.joined[g.items[p[0]].attr].Some? {
      var related := obj.joined[g.items[p[0]].attr].value;
      assert (p + q)[1..] == p[1..] + q;
      NoneSkipsSubtree(related, g.items[p[0]].nested, p[1..], q);
    }
    WalkFollowsPaths(obj, g);
  }
}
