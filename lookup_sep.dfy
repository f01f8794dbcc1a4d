/**
 * Lookup paths such as "location__climates" are strings whose parts are
 * separated by the host ORM's LOOKUP_SEP, "__". This module models Python's
 * `str.split("__")`, `str.split("__", 1)` and `"__".join(...)` on such paths.
 */
module LookupSep {
  import opened Wrappers

  const Sep: string := "__"

  predicate StartsWithSep(s: string) {
    |s| >= 2 && s[0] == '_' && s[1] == '_'
  }

  /** `s.split("__")`: cut at every non-overlapping "__", scanning left to right. */
  function Split(s: string): (parts: seq<string>)
    ensures |parts| >= 1
    decreases |s|
  {
    if |s| < 2 then [s]
    else if StartsWithSep(s) then [""] + Split(s[2..])
    else
      var rest := Split(s[1..]);
      [[s[0]] + rest[0]] + rest[1..]
  }

  /** `"__".join(parts)`. */
  function Join(parts: seq<string>): string
    decreases |parts|
  {
    if parts == [] then ""
    else if |parts| == 1 then parts[0]
    else parts[0] + Sep + Join(parts[1..])
  }

  /** `s.split("__", 1)`: the part before the first "__" and, if there is one, the rest. */
  function SplitFirst(s: string): (string, Option<string>)
    decreases |s|
  {
    if |s| < 2 then (s, None)
    else if StartsWithSep(s) then ("", Some(s[2..]))
    else
      var (head, tail) := SplitFirst(s[1..]);
      ([s[0]] + head, tail)
  }

  lemma JoinCons(p: string, rest: seq<string>)
    requires rest != []
    ensures Join([p] + rest) == p + Sep + Join(rest)
  {
    assert ([p] + rest)[1..] == rest;
  }

  /** Split of a lookup that starts with "__": an empty first part, then the parts of the rest. */
  lemma SplitSep(s: string)
    requires StartsWithSep(s)
    ensures Split(s) == [""] + Split(s[2..])
  {
  }

  /** Split of a lookup that does not start with "__": the first character joins the first part. */
  lemma SplitNoSep(s: string)
    requires |s| >= 2 && !StartsWithSep(s)
    ensures Split(s) == [[s[0]] + Split(s[1..])[0]] + Split(s[1..])[1..]
  {
  }

  /** Join of parts whose first part starts with the character `c`. */
  lemma JoinPrepend(c: char, rest: seq<string>)
    requires rest != []
    ensures Join([[c] + rest[0]] + rest[1..]) == [c] + Join(rest)
  {
    if |rest| > 1 {
      JoinCons([c] + rest[0], rest[1..]);
      assert rest == [rest[0]] + rest[1..];
      JoinCons(rest[0], rest[1..]);
    }
  }

  /** Splitting and joining back gives the original lookup. */
  lemma {:induction false} JoinSplit(s: string)
    ensures Join(Split(s)) == s
    decreases |s|
  {
    if |s| < 2 {
    } else if StartsWithSep(s) {
      var rest := Split(s[2..]);
      SplitSep(s);
      JoinSplit(s[2..]);
      JoinCons("", rest);
      assert s == Sep + s[2..];
    } else {
      var rest := Split(s[1..]);
      SplitNoSep(s);
      JoinSplit(s[1..]);
      JoinPrepend(s[0], rest);
      assert s == [s[0]] + s[1..];
    }
  }

  /** Joining a prefix and a suffix of the parts with "__" between them joins all the parts. */
  lemma {:induction false} JoinAt(parts: seq<string>, k: nat)
    requires 0 < k < |parts|
    ensures Join(parts[..k]) + Sep + Join(parts[k..]) == Join(parts)
    decreases k
  {
    if k == 1 {
      assert parts[..1] == [parts[0]];
      assert parts[1..] == parts[k..];
    } else {
      JoinAt(parts[1..], k - 1);
      assert parts[1..][..k - 1] == parts[..k][1..];
      assert parts[1..][k - 1..] == parts[k..];
      assert parts[..k] == [parts[0]] + parts[..k][1..];
      JoinCons(parts[0], parts[..k][1..]);
      assert parts == [parts[0]] + parts[1..];
      JoinCons(parts[0], parts[1..]);
    }
  }

  /**
   * Cutting a split lookup after its first `k` parts gives a head and a tail
   * that rebuild the lookup, and a non-empty tail is shorter than the lookup by
   * at least the separator.
   */
  lemma HeadTail(s: string, k: nat)
    requires 0 < k <= |Split(s)|
    ensures var parts := Split(s);
            var head, tail := Join(parts[..k]), Join(parts[k..]);
            (k == |parts| ==> head == s && tail == "") &&
            (k < |parts| ==> head + Sep + tail == s && |tail| + 2 <= |s|)
  {
    var parts := Split(s);
    JoinSplit(s);
    if k == |parts| {
      assert parts[..k] == parts;
      assert parts[k..] == [];
    } else {
      JoinAt(parts, k);
    }
  }

  /**
   * The older one-cut split agrees with the full split: its head is the first
   * part and its tail is the remaining parts joined back.
   */
  lemma {:induction false} SplitFirstIsFirstPart(s: string)
    ensures SplitFirst(s) == (Split(s)[0], if |Split(s)| == 1 then None else Some(Join(Split(s)[1..])))
    decreases |s|
  {
    if |s| < 2 {
    } else if StartsWithSep(s) {
      assert Split(s)[1..] == Split(s[2..]);
      JoinSplit(s[2..]);
    } else {
      SplitFirstIsFirstPart(s[1..]);
      SplitNoSep(s);
      assert Split(s)[1..] == Split(s[1..])[1..];
    }
  }

  /** The one-cut split rebuilds the lookup: head, separator, tail. */
  lemma SplitFirstRebuilds(s: string)
    ensures SplitFirst(s).1.None? ==> SplitFirst(s).0 == s
    ensures SplitFirst(s).1.Some? ==> SplitFirst(s).0 + Sep + SplitFirst(s).1.value == s
  {
    SplitFirstIsFirstPart(s);
    var parts := Split(s);
    HeadTail(s, 1);
    assert parts[..1] == [parts[0]];
  }

  /** Every part of the lookup is a non-empty name. */
  predicate NoEmptyPart(s: string) {
    forall p :: p in Split(s) ==> p != ""
  }

  /** Joined parts start with the first part. */
  lemma {:induction false} JoinStartsWithFirst(parts: seq<string>)
    requires parts != []
    ensures |Join(parts)| >= |parts[0]| && Join(parts)[..|parts[0]|] == parts[0]
  {
    if |parts| > 1 {
      assert Join(parts) == parts[0] + (Sep + Join(parts[1..]));
    }
  }

  /** The parts after the first, joined back, split into exactly those parts. */
  lemma {:induction false} SplitRest(s: string)
    requires |Split(s)| > 1
    ensures Split(Join(Split(s)[1..])) == Split(s)[1..]
    decreases |s|
  {
    if StartsWithSep(s) {
      assert Split(s)[1..] == Split(s[2..]);
      JoinSplit(s[2..]);
    } else {
      SplitNoSep(s);
      var rest := Split(s[1..]);
      assert Split(s)[1..] == rest[1..];
      SplitRest(s[1..]);
    }
  }

  /** Any suffix of the parts, joined back, splits into exactly that suffix. */
  lemma {:induction false} SplitSuffix(s: string, k: nat)
    requires 0 < k < |Split(s)|
    ensures Split(Join(Split(s)[k..])) == Split(s)[k..]
    decreases k
  {
    SplitRest(s);
    if k > 1 {
      var s' := Join(Split(s)[1..]);
      SplitSuffix(s', k - 1);
      assert Split(s')[k - 1..] == Split(s)[k..];
    }
  }
}
