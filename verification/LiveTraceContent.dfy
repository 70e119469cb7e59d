/** What a sanitised detail still says. */
module LiveTraceContent {
  import opened LiveTrace

  /** Truncation keeps the start of a text. With room for the ellipsis it fills the limit exactly; without, it takes as
      many characters from the end as are lacking. */
  lemma TruncationKeepsTheStart(s: string, limit: int)
    ensures var t := Truncate(s, limit);
            && (|s| <= limit ==> t == s)
            && (|s| > limit >= 3 ==> |t| == limit && t[..limit - 3] == s[..limit - 3] && t[limit - 3..] == "...")
            && (|s| > limit && limit < 3 && |s| >= 3 - limit ==>
                  |t| == |s| + limit && t[..|s| + limit - 3] == s[..|s| + limit - 3] && t[|s| + limit - 3..] == "...")
            && (|s| > limit && limit < 3 && |s| < 3 - limit ==> t == "...")
  {
  }

  /** Leaves stay what they are, but for long texts, and anything else becomes text. */
  lemma LeavesAreKept(v: Value, depth: nat, limit: int)
    ensures var w := Sanitize(v, depth, limit);
            && (depth > 4 ==> w == Str("<max_depth>"))
            && (depth <= 4 && (v.Nothing? || v.Scalar?) ==> w == v)
            && (depth <= 4 && (v.Str? || v.Opaque?) ==> w.Str? && w.text == Truncate(v.text, limit))
            && (depth <= 4 ==> (w.Dict? <==> v.Dict?) && (w.List? <==> v.List?))
  {
  }

  /** The first fifty elements of a list stay, in their places. */
  lemma ListsKeepTheirElements(v: Value, depth: nat, limit: int)
    requires v.List? && depth <= 4
    ensures var w := Sanitize(v, depth, limit);
            && w.List? && |w.elements| == (if |v.elements| < 50 then |v.elements| else 50)
            && forall i :: 0 <= i < |w.elements| ==> w.elements[i] == Sanitize(v.elements[i], depth + 1, limit)
  {
  }

  /** Item `j` is the last of the first `n` under its key's text. */
  predicate IsLastOfKey(items: seq<(Key, Value)>, j: nat, n: nat)
    requires j < n <= |items|
  {
    forall i :: j < i < n ==> items[i].0.text != items[j].0.text
  }

  /** `out` has, for every key text among the first `n` items, the value of the last of them, and nothing else. */
  ghost predicate KeepsLastOfEachKey(out: seq<(Key, Value)>, items: seq<(Key, Value)>, n: nat, depth: nat, limit: int)
    requires n <= |items|
  {
    && (forall j :: 0 <= j < n && IsLastOfKey(items, j, n) ==>
          EntryOf(items, j, depth, limit) in out)
    && (forall e :: e in out ==>
          exists j :: 0 <= j < n && IsLastOfKey(items, j, n) && e == EntryOf(items, j, depth, limit))
  }

  function EntryOf(items: seq<(Key, Value)>, j: nat, depth: nat, limit: int): (Key, Value)
    requires j < |items|
  {
    (StrKey(items[j].0.text), Sanitize(items[j].1, depth, limit))
  }

  predicate KeysDiffer(out: seq<(Key, Value)>) {
    forall i, j :: 0 <= i < j < |out| ==> out[i].0 != out[j].0
  }

  lemma DifferingTail(out: seq<(Key, Value)>)
    requires out != [] && KeysDiffer(out)
    ensures KeysDiffer(out[1..]) && forall e :: e in out[1..] ==> e.0 != out[0].0
    ensures forall e :: e in out <==> e == out[0] || e in out[1..]
  {
    assert out == [out[0]] + out[1..];
  }

  lemma DifferingFront(x: (Key, Value), rest: seq<(Key, Value)>)
    requires KeysDiffer(rest) && forall e :: e in rest ==> e.0 != x.0
    ensures KeysDiffer([x] + rest)
  {
  }

  lemma PutUnfolds(out: seq<(Key, Value)>, k: Key, x: Value)
    ensures out == [] ==> Put(out, k, x) == [(k, x)]
    ensures out != [] ==>
              Put(out, k, x) == if out[0].0 == k then [(k, x)] + out[1..] else [out[0]] + Put(out[1..], k, x)
  {
  }

  lemma {:induction false} PutReplacesOrAdds(out: seq<(Key, Value)>, k: Key, x: Value)
    requires KeysDiffer(out)
    ensures KeysDiffer(Put(out, k, x))
    ensures forall e :: e in Put(out, k, x) <==> e == (k, x) || (e in out && e.0 != k)
  {
    hide Put;
    PutUnfolds(out, k, x);
    if out != [] {
      hide KeysDiffer;
      DifferingTail(out);
      if out[0].0 == k {
        DifferingFront((k, x), out[1..]);
      } else {
        PutReplacesOrAdds(out[1..], k, x);
        DifferingFront(out[0], Put(out[1..], k, x));
      }
    }
  }

  lemma {:induction false} ItemsKeepLastOfEachKey(v: Value, n: nat, depth: nat, limit: int)
    requires v.Dict? && n <= |v.items|
    ensures KeysDiffer(SanitizeItems(v, n, depth, limit))
    ensures KeepsLastOfEachKey(SanitizeItems(v, n, depth, limit), v.items, n, depth, limit)
  {
    if n > 0 {
      hide Put, Sanitize, KeysDiffer, KeepsLastOfEachKey;
      var out := SanitizeItems(v, n - 1, depth, limit);
      var (k, x) := v.items[n - 1];
      ItemsKeepLastOfEachKey(v, n - 1, depth, limit);
      PutReplacesOrAdds(out, StrKey(k.text), Sanitize(x, depth, limit));
      KeepStep(out, Put(out, StrKey(k.text), Sanitize(x, depth, limit)), v.items, n, depth, limit);
    }
  }

  lemma KeepStep(out: seq<(Key, Value)>, more: seq<(Key, Value)>, items: seq<(Key, Value)>, n: nat, depth: nat,
                 limit: int)
    requires 0 < n <= |items| && KeepsLastOfEachKey(out, items, n - 1, depth, limit)
    requires forall e :: e in more <==>
               e == EntryOf(items, n - 1, depth, limit) || (e in out && e.0 != StrKey(items[n - 1].0.text))
    ensures KeepsLastOfEachKey(more, items, n, depth, limit)
  {
    hide EntryOf;
    assert IsLastOfKey(items, n - 1, n);
    forall j | 0 <= j < n && IsLastOfKey(items, j, n)
      ensures EntryOf(items, j, depth, limit) in more
    {
      if j < n - 1 {
        assert IsLastOfKey(items, j, n - 1);
        EntryKey(items, j, depth, limit);
      }
    }
    forall e | e in more && e != EntryOf(items, n - 1, depth, limit)
      ensures exists j :: 0 <= j < n && IsLastOfKey(items, j, n) && e == EntryOf(items, j, depth, limit)
    {
      var j :| 0 <= j < n - 1 && IsLastOfKey(items, j, n - 1) && e == EntryOf(items, j, depth, limit);
      EntryKey(items, j, depth, limit);
      assert IsLastOfKey(items, j, n);
    }
  }

  lemma EntryKey(items: seq<(Key, Value)>, j: nat, depth: nat, limit: int)
    requires j < |items|
    ensures EntryOf(items, j, depth, limit).0 == StrKey(items[j].0.text)
  {
  }

  /** Of the first forty items of a dictionary each key, as text, keeps the value of its last item. */
  lemma {:induction false} DictionariesKeepTheLastOfEachKey(v: Value, depth: nat, limit: int)
    requires v.Dict? && depth <= 4
    ensures var w, n := Sanitize(v, depth, limit), if |v.items| < 40 then |v.items| else 40;
            && w.Dict? && KeysDiffer(w.items) && KeepsLastOfEachKey(w.items, v.items, n, depth + 1, limit)
  {
    ItemsKeepLastOfEachKey(v, if |v.items| < 40 then |v.items| else 40, depth + 1, limit);
    hide SanitizeItems;
  }
}
