/** Bounding of trace details: `_truncate` and `_sanitize_detail` in server/live_call_trace.py. */
module LiveTrace {

  /** A dictionary key: a string, or another hashable together with its text. */
  datatype Key = StrKey(text: string) | OtherKey(text: string, id: int)

  datatype Value =
    | Nothing
    | Scalar(id: int)
    | Str(text: string)
    | Dict(items: seq<(Key, Value)>)
    | List(elements: seq<Value>)
    | Opaque(text: string)

  const MAX_DEPTH: nat := 4
  const MAX_ENTRIES: nat := 40
  const MAX_ELEMENTS: nat := 50
  const TOO_DEEP: string := "<max_depth>"

  /** Python's `s[:k]`, where a negative bound counts from the end. */
  function Head(s: string, k: int): string {
    if k >= 0 then (if k <= |s| then s[..k] else s)
    else if -k <= |s| then s[..|s| + k]
    else ""
  }

  /** `limit` is the configured length limit, any integer. */
  function Truncate(s: string, limit: int): string {
    if |s| <= limit then s else Head(s, limit - 3) + "..."
  }

  /** Stores under a key as a dictionary does: in place if the key is there, at the end if not. */
  function Put(items: seq<(Key, Value)>, k: Key, v: Value): seq<(Key, Value)> {
    if items == [] then [(k, v)]
    else if items[0].0 == k then [(k, v)] + items[1..]
    else [items[0]] + Put(items[1..], k, v)
  }

  function Take<T>(s: seq<T>, n: nat): seq<T> {
    if |s| <= n then s else s[..n]
  }

  function Sanitize(v: Value, depth: nat, limit: int): Value
    decreases v, 1
  {
    if depth > MAX_DEPTH then Str(TOO_DEEP)
    else
      match v
      case Nothing => v
      case Scalar(_) => v
      case Str(s) => Str(Truncate(s, limit))
      case Dict(items) => Dict(SanitizeItems(v, |Take(items, MAX_ENTRIES)|, depth + 1, limit))
      case List(elements) =>
        List(seq(|Take(elements, MAX_ELEMENTS)|,
                 i requires 0 <= i < |Take(elements, MAX_ELEMENTS)| => Sanitize(elements[i], depth + 1, limit)))
      case Opaque(s) => Str(Truncate(s, limit))
  }

  /** The dictionary comprehension over the first `n` items. */
  function SanitizeItems(v: Value, n: nat, depth: nat, limit: int): seq<(Key, Value)>
    requires v.Dict? && n <= |v.items|
    decreases v, 0, n
  {
    if n == 0 then []
    else
      var (k, x) := v.items[n - 1];
      Put(SanitizeItems(v, n - 1, depth, limit), StrKey(k.text), Sanitize(x, depth, limit))
  }
}

/** Exactly which values sanitising leaves alone, and how large they can be. */
module LiveTraceLaws {
  import opened LiveTrace

  // ----- Truncation -----

  /** Truncation keeps every string within the limit exactly if there is room for the ellipsis. */
  lemma TruncationRespectsLimitIff(limit: int)
    ensures (forall s :: |Truncate(s, limit)| <= limit) <==> limit >= 3
  {
    if limit < 3 {
      var s := "....";
      assert |Truncate(s, limit)| >= 3;
    }
  }

  /** Truncating twice is truncating once exactly for a limit of zero or of at least three. */
  lemma TruncationIsIdempotentIff(limit: int)
    ensures (forall s :: Truncate(Truncate(s, limit), limit) == Truncate(s, limit)) <==> limit >= 3 || limit == 0
  {
    if limit >= 3 {
    } else if limit == 0 {
      forall s
        ensures Truncate(Truncate(s, 0), 0) == Truncate(s, 0)
      {
        if |s| > 0 {
          var t := Truncate(s, 0);
          assert t == Head(s, -3) + "...";
          assert Head(t, -3) == Head(s, -3);
        }
      }
    } else {
      var s := seq(if limit > 0 then 10 else 10 - limit, i => 'x');
      var t := Truncate(s, limit);
      assert |Truncate(t, limit)| != |t|;
    }
  }

  // ----- Clean values -----

  predicate DistinctStringKeys(items: seq<(Key, Value)>) {
    && (forall i :: 0 <= i < |items| ==> items[i].0.StrKey?)
    && (forall i, j :: 0 <= i < j < |items| ==> items[i].0 != items[j].0)
  }

  /** Texts that truncation leaves alone, for the limits where truncating twice is truncating once. */
  predicate CleanText(s: string, limit: int) {
    if limit >= 3 then |s| <= limit
    else limit == 0 ==> s == "" || (|s| >= 3 && s[|s| - 3..] == "...")
  }

  lemma TruncationCleans(s: string, limit: int)
    ensures CleanText(Truncate(s, limit), limit)
    ensures (limit >= 3 || limit == 0) && CleanText(s, limit) ==> Truncate(s, limit) == s
  {
    if limit == 0 && s != "" && CleanText(s, 0) {
      assert s == s[..|s| - 3] + s[|s| - 3..];
    }
  }

  /** Within every limit, seen from `depth`. */
  predicate Clean(v: Value, depth: nat, limit: int) {
    if depth > MAX_DEPTH then v == Str(TOO_DEEP)
    else
      match v
      case Nothing => true
      case Scalar(_) => true
      case Str(s) => CleanText(s, limit)
      case Dict(items) =>
        && |items| <= MAX_ENTRIES && DistinctStringKeys(items)
        && (forall i :: 0 <= i < |items| ==> Clean(items[i].1, depth + 1, limit))
      case List(elements) =>
        && |elements| <= MAX_ELEMENTS
        && (forall i :: 0 <= i < |elements| ==> Clean(elements[i], depth + 1, limit))
      case Opaque(_) => false
  }

  predicate CleanItems(items: seq<(Key, Value)>, depth: nat, limit: int) {
    DistinctStringKeys(items) && forall i :: 0 <= i < |items| ==> Clean(items[i].1, depth, limit)
  }

  lemma {:induction false} PutKeepsClean(items: seq<(Key, Value)>, k: Key, v: Value, depth: nat, limit: int)
    requires CleanItems(items, depth, limit) && k.StrKey? && Clean(v, depth, limit)
    ensures CleanItems(Put(items, k, v), depth, limit)
    ensures |Put(items, k, v)| <= |items| + 1
    ensures forall i :: 0 <= i < |Put(items, k, v)| ==>
              Put(items, k, v)[i].0 == k || exists j :: 0 <= j < |items| && items[j].0 == Put(items, k, v)[i].0
  {
    if items != [] && items[0].0 != k {
      var rest := Put(items[1..], k, v);
      PutKeepsClean(items[1..], k, v, depth, limit);
      var all := Put(items, k, v);
      assert all == [items[0]] + rest;
      forall i | 0 <= i < |rest|
        ensures rest[i].0 != items[0].0
        ensures rest[i].0 == k || exists j :: 0 <= j < |items| && items[j].0 == rest[i].0
      {
        if rest[i].0 != k {
          var j :| 0 <= j < |items[1..]| && items[1..][j].0 == rest[i].0;
          assert items[j + 1].0 == rest[i].0;
        }
      }
      forall i | 0 <= i < |all|
        ensures all[i].0.StrKey? && Clean(all[i].1, depth, limit)
        ensures all[i].0 == k || exists j :: 0 <= j < |items| && items[j].0 == all[i].0
      {
        if i == 0 {
          assert items[0].0 == all[0].0;
        } else {
          assert all[i] == rest[i - 1];
        }
      }
      forall i, j | 0 <= i < j < |all|
        ensures all[i].0 != all[j].0
      {
        assert all[j] == rest[j - 1];
        if i > 0 {
          assert all[i] == rest[i - 1];
        }
      }
    }
  }

  /** Sanitising always yields a clean value. */
  lemma {:induction false} SanitizingCleans(v: Value, depth: nat, limit: int)
    ensures Clean(Sanitize(v, depth, limit), depth, limit)
    decreases v, 1
  {
    if depth <= MAX_DEPTH {
      match v {
        case Dict(items) =>
          SanitizingCleansItems(v, |Take(items, MAX_ENTRIES)|, depth + 1, limit);
        case List(elements) =>
          forall i | 0 <= i < |Take(elements, MAX_ELEMENTS)|
            ensures Clean(Sanitize(elements[i], depth + 1, limit), depth + 1, limit)
          {
            SanitizingCleans(elements[i], depth + 1, limit);
          }
        case Str(s) => TruncationCleans(s, limit);
        case Opaque(s) => TruncationCleans(s, limit);
        case _ =>
      }
    }
  }

  lemma {:induction false} SanitizingCleansItems(v: Value, n: nat, depth: nat, limit: int)
    requires v.Dict? && n <= |v.items|
    ensures CleanItems(SanitizeItems(v, n, depth, limit), depth, limit)
    ensures |SanitizeItems(v, n, depth, limit)| <= n
    decreases v, 0, n
  {
    if n > 0 {
      SanitizingCleansItems(v, n - 1, depth, limit);
      SanitizingCleans(v.items[n - 1].1, depth, limit);
      PutKeepsClean(SanitizeItems(v, n - 1, depth, limit), StrKey(v.items[n - 1].0.text),
                    Sanitize(v.items[n - 1].1, depth, limit), depth, limit);
    }
  }

  lemma {:induction false} PutNewKeyAppends(items: seq<(Key, Value)>, k: Key, v: Value)
    requires forall i :: 0 <= i < |items| ==> items[i].0 != k
    ensures Put(items, k, v) == items + [(k, v)]
  {
    if items != [] {
      PutNewKeyAppends(items[1..], k, v);
    }
  }

  /** A clean value is left as it is. */
  lemma {:induction false} CleanIsKept(v: Value, depth: nat, limit: int)
    requires Clean(v, depth, limit) && (limit >= 3 || limit == 0)
    ensures Sanitize(v, depth, limit) == v
    decreases v, 1
  {
    if depth <= MAX_DEPTH {
      match v {
        case Dict(items) =>
          CleanItemsAreKept(v, |items|, depth + 1, limit);
          assert items[..|items|] == items;
        case List(elements) =>
          forall i | 0 <= i < |elements|
            ensures Sanitize(elements[i], depth + 1, limit) == elements[i]
          {
            CleanIsKept(elements[i], depth + 1, limit);
          }
          assert Sanitize(v, depth, limit).elements == elements;
        case Str(s) => TruncationCleans(s, limit);
        case _ =>
      }
    }
  }

  lemma {:induction false} CleanItemsAreKept(v: Value, n: nat, depth: nat, limit: int)
    requires v.Dict? && n <= |v.items| && CleanItems(v.items, depth, limit) && (limit >= 3 || limit == 0)
    ensures SanitizeItems(v, n, depth, limit) == v.items[..n]
    decreases v, 0, n
  {
    if n > 0 {
      var (k, x) := v.items[n - 1];
      CleanItemsAreKept(v, n - 1, depth, limit);
      CleanIsKept(x, depth, limit);
      assert v.items[..n] == v.items[..n - 1] + [v.items[n - 1]];
      assert k == StrKey(k.text);
      PutNewKeyAppends(v.items[..n - 1], k, x);
    }
  }

  // ----- Main results -----

  /** The values sanitising leaves alone are exactly the clean ones. */
  lemma {:induction false} FixedExactlyIfClean(v: Value, depth: nat, limit: int)
    requires limit >= 3 || limit == 0
    ensures Sanitize(v, depth, limit) == v <==> Clean(v, depth, limit)
  {
    SanitizingCleans(v, depth, limit);
    if Clean(v, depth, limit) {
      CleanIsKept(v, depth, limit);
    }
  }

  /** Sanitising is idempotent on every tree and at every depth exactly for these limits. */
  lemma {:induction false} SanitizingIsIdempotentIff(limit: int)
    ensures (forall v, depth: nat :: Sanitize(Sanitize(v, depth, limit), depth, limit) == Sanitize(v, depth, limit))
            <==> limit >= 3 || limit == 0
  {
    if limit >= 3 || limit == 0 {
      forall v, depth: nat
        ensures Sanitize(Sanitize(v, depth, limit), depth, limit) == Sanitize(v, depth, limit)
      {
        SanitizingCleans(v, depth, limit);
        CleanIsKept(Sanitize(v, depth, limit), depth, limit);
      }
    } else {
      TruncationIsIdempotentIff(limit);
      var s :| Truncate(Truncate(s, limit), limit) != Truncate(s, limit);
      assert Sanitize(Str(s), 0, limit) == Str(Truncate(s, limit));
      assert Sanitize(Str(Truncate(s, limit)), 0, limit) == Str(Truncate(Truncate(s, limit), limit));
      assert Sanitize(Sanitize(Str(s), 0, limit), 0, limit) != Sanitize(Str(s), 0, limit);
    }
  }

  function Nodes(v: Value): nat
    decreases v, 1
  {
    match v
    case Dict(items) => 1 + NodesBelow(v, |items|)
    case List(elements) => 1 + NodesBelow(v, |elements|)
    case _ => 1
  }

  /** The nodes under the first `n` children. */
  function NodesBelow(v: Value, n: nat): nat
    requires (v.Dict? && n <= |v.items|) || (v.List? && n <= |v.elements|)
    decreases v, 0, n
  {
    if n == 0 then 0
    else NodesBelow(v, n - 1) + Nodes(if v.Dict? then v.items[n - 1].1 else v.elements[n - 1])
  }

  /** Levels of nesting: a leaf has none. */
  predicate NestedWithin(v: Value, levels: nat) {
    match v
    case Dict(items) => levels > 0 && forall i :: 0 <= i < |items| ==> NestedWithin(items[i].1, levels - 1)
    case List(elements) => levels > 0 && forall i :: 0 <= i < |elements| ==> NestedWithin(elements[i], levels - 1)
    case _ => true
  }

  predicate StringsWithin(v: Value, n: int) {
    match v
    case Str(s) => |s| <= n
    case Dict(items) => forall i :: 0 <= i < |items| ==> StringsWithin(items[i].1, n)
    case List(elements) => forall i :: 0 <= i < |elements| ==> StringsWithin(elements[i], n)
    case _ => true
  }

  /** The nodes of a full tree with fifty children per node over the remaining levels. */
  function NodeBound(depth: nat): nat
    decreases MAX_DEPTH + 1 - depth
  {
    if depth > MAX_DEPTH then 1 else 1 + MAX_ELEMENTS * NodeBound(depth + 1)
  }

  lemma {:induction false} CleanIsShallow(v: Value, depth: nat, limit: int, longest: int)
    requires Clean(v, depth, limit)
    ensures depth <= MAX_DEPTH + 1 ==> NestedWithin(v, MAX_DEPTH + 1 - depth)
    ensures 3 <= limit <= longest && |TOO_DEEP| <= longest ==> StringsWithin(v, longest)
  {
    match v {
      case Dict(items) =>
        forall i | 0 <= i < |items|
          ensures NestedWithin(items[i].1, MAX_DEPTH - depth)
          ensures 3 <= limit <= longest && |TOO_DEEP| <= longest ==> StringsWithin(items[i].1, longest)
        {
          CleanIsShallow(items[i].1, depth + 1, limit, longest);
        }
      case List(elements) =>
        forall i | 0 <= i < |elements|
          ensures NestedWithin(elements[i], MAX_DEPTH - depth)
          ensures 3 <= limit <= longest && |TOO_DEEP| <= longest ==> StringsWithin(elements[i], longest)
        {
          CleanIsShallow(elements[i], depth + 1, limit, longest);
        }
      case _ =>
    }
  }

  lemma {:induction false} CleanIsSmall(v: Value, depth: nat, limit: int)
    requires Clean(v, depth, limit)
    ensures Nodes(v) <= NodeBound(depth)
    decreases v, 1
  {
    match v {
      case Dict(items) => ChildrenAreSmall(v, |items|, depth, limit);
      case List(elements) => ChildrenAreSmall(v, |elements|, depth, limit);
      case _ =>
    }
  }

  lemma {:induction false} ChildrenAreSmall(v: Value, n: nat, depth: nat, limit: int)
    requires (v.Dict? && n <= |v.items|) || (v.List? && n <= |v.elements|)
    requires Clean(v, depth, limit) && depth <= MAX_DEPTH
    ensures NodesBelow(v, n) <= n * NodeBound(depth + 1)
    decreases v, 0, n
  {
    hide NodeBound;
    if n > 0 {
      var child, bound := if v.Dict? then v.items[n - 1].1 else v.elements[n - 1], NodeBound(depth + 1);
      ChildrenAreSmall(v, n - 1, depth, limit);
      CleanIsSmall(child, depth + 1, limit);
      hide Clean, Nodes;
      assert n * bound == (n - 1) * bound + bound;
    }
  }

  /** Whatever goes in, a stored detail nests at most five levels and holds at most (50^6 - 1) / 49 nodes;
      with room for the ellipsis no string value is longer than the limit or the depth marker. */
  lemma {:induction false} StoredDetailIsBounded(v: Value, limit: int)
    ensures var d := Sanitize(v, 0, limit);
            && 49 * Nodes(d) <= 50 * 50 * 50 * 50 * 50 * 50 - 1
            && NestedWithin(d, 5)
            && (limit >= 3 ==> StringsWithin(d, if limit < 11 then 11 else limit))
  {
    SanitizingCleans(v, 0, limit);
    assert |TOO_DEEP| == 11;
    CleanIsSmall(Sanitize(v, 0, limit), 0, limit);
    CleanIsShallow(Sanitize(v, 0, limit), 0, limit, if limit < 11 then 11 else limit);
    assert NodeBound(5) == 1;
    assert NodeBound(4) == 51;
    assert NodeBound(3) == 2551;
    assert NodeBound(2) == 127551;
    assert NodeBound(1) == 6377551;
    assert NodeBound(0) == 318877551;
  }
}
