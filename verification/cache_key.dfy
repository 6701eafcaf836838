/** `_build_cache_key(operation, field, filters)`: the filters are sorted, so
    the key does not depend on the order they were given in, and written as
    `k:v` items joined by `|` after the operation and, when present, the
    field. */
module CacheKeys {
  import opened Wrappers
  import opened Text
  import opened OrderedDict

  /** Python's order on strings: code point by code point, a proper prefix
      before the longer string. */
  predicate StrLe(a: string, b: string)
    decreases |a|
  {
    |a| == 0 || (|b| > 0 && (a[0] < b[0] || (a[0] == b[0] && StrLe(a[1..], b[1..]))))
  }

  lemma {:induction false} StrLeReflexive(a: string)
    ensures StrLe(a, a)
    decreases |a|
  {
    if |a| > 0 {
      StrLeReflexive(a[1..]);
    }
  }

  lemma {:induction false} StrLeTotal(a: string, b: string)
    ensures StrLe(a, b) || StrLe(b, a)
    decreases |a|
  {
    if |a| > 0 && |b| > 0 && a[0] == b[0] {
      StrLeTotal(a[1..], b[1..]);
    }
  }

  lemma {:induction false} StrLeAntisymmetric(a: string, b: string)
    requires StrLe(a, b) && StrLe(b, a)
    ensures a == b
    decreases |a|
  {
    if |a| > 0 {
      assert |b| > 0 && a[0] == b[0];
      StrLeAntisymmetric(a[1..], b[1..]);
      assert a == [a[0]] + a[1..] && b == [b[0]] + b[1..];
    }
  }

  lemma {:induction false} StrLeTransitive(a: string, b: string, c: string)
    requires StrLe(a, b) && StrLe(b, c)
    ensures StrLe(a, c)
    decreases |a|
  {
    if |a| > 0 {
      assert |b| > 0 && |c| > 0;
      if a[0] == b[0] && b[0] == c[0] {
        StrLeTransitive(a[1..], b[1..], c[1..]);
      }
    }
  }

  /** The order `sorted` puts `(key, value)` tuples in: by key, then by value. */
  predicate PairLe(x: Item, y: Item) {
    (StrLe(x.0, y.0) && x.0 != y.0) || (x.0 == y.0 && StrLe(x.1, y.1))
  }

  lemma PairLeTotal(x: Item, y: Item)
    ensures PairLe(x, y) || PairLe(y, x)
  {
    StrLeTotal(x.0, y.0);
    StrLeTotal(x.1, y.1);
  }

  lemma PairLeAntisymmetric(x: Item, y: Item)
    requires PairLe(x, y) && PairLe(y, x)
    ensures x == y
  {
    if x.0 != y.0 {
      StrLeAntisymmetric(x.0, y.0);
    } else {
      StrLeAntisymmetric(x.1, y.1);
    }
  }

  lemma PairLeTransitive(x: Item, y: Item, z: Item)
    requires PairLe(x, y) && PairLe(y, z)
    ensures PairLe(x, z)
  {
    if x.0 == y.0 && y.0 == z.0 {
      StrLeTransitive(x.1, y.1, z.1);
    } else {
      StrLeReflexive(x.0);
      StrLeReflexive(y.0);
      StrLeTransitive(x.0, y.0, z.0);
      if x.0 == z.0 {
        StrLeAntisymmetric(x.0, y.0);
      }
    }
  }

  predicate Sorted(s: seq<Item>) {
    forall i, j :: 0 <= i < j < |s| ==> PairLe(s[i], s[j])
  }

  /** `x` placed before the first element it does not come after. */
  function Insert(x: Item, s: seq<Item>): seq<Item>
    decreases |s|
  {
    if |s| == 0 then [x]
    else if PairLe(x, s[0]) then [x] + s
    else [s[0]] + Insert(x, s[1..])
  }

  lemma {:induction false} InsertSorted(x: Item, s: seq<Item>)
    requires Sorted(s)
    ensures Sorted(Insert(x, s))
    ensures multiset(Insert(x, s)) == multiset(s) + multiset{x}
    decreases |s|
  {
    if |s| > 0 {
      assert s == [s[0]] + s[1..];
      if PairLe(x, s[0]) {
        forall j | 0 < j < |s|
          ensures PairLe(x, s[j])
        {
          PairLeTransitive(x, s[0], s[j]);
        }
        ConsSorted(x, s);
      } else {
        PairLeTotal(x, s[0]);
        InsertSorted(x, s[1..]);
        BoundStaysBelow(s[0], x, s[1..], Insert(x, s[1..]));
        ConsSorted(s[0], Insert(x, s[1..]));
      }
    }
  }

  /** A sorted sequence stays sorted with an element in front that comes
      before all of it. */
  lemma ConsSorted(y: Item, rest: seq<Item>)
    requires Sorted(rest) && forall j :: 0 <= j < |rest| ==> PairLe(y, rest[j])
    ensures Sorted([y] + rest)
  {
    var t := [y] + rest;
    forall i, j | 0 <= i < j < |t|
      ensures PairLe(t[i], t[j])
    {
      assert t[j] == rest[j - 1];
      if i > 0 {
        assert t[i] == rest[i - 1];
      }
    }
  }

  /** An element that comes before `x` and before all of `t` comes before
      every element of a permutation of `t` plus `x`. */
  lemma BoundStaysBelow(y: Item, x: Item, t: seq<Item>, rest: seq<Item>)
    requires PairLe(y, x) && forall j :: 0 <= j < |t| ==> PairLe(y, t[j])
    requires multiset(rest) == multiset(t) + multiset{x}
    ensures forall j :: 0 <= j < |rest| ==> PairLe(y, rest[j])
  {
    forall j | 0 <= j < |rest|
      ensures PairLe(y, rest[j])
    {
      assert rest[j] in multiset(rest);
      if rest[j] != x {
        assert rest[j] in multiset(t);
        var k :| 0 <= k < |t| && t[k] == rest[j];
      }
    }
  }

  /** `sorted(filters.items())`: the entries, each exactly once, in order. */
  function SortItems(s: seq<Item>): (r: seq<Item>)
    ensures Sorted(r)
    ensures multiset(r) == multiset(s)
    decreases |s|
  {
    if |s| == 0 then []
    else
      InsertSorted(s[0], SortItems(s[1..]));
      assert s == [s[0]] + s[1..];
      Insert(s[0], SortItems(s[1..]))
  }

  /** The head of a sorted sequence comes before every element. */
  lemma SortedHeadFirst(s: seq<Item>, x: Item)
    requires Sorted(s) && x in multiset(s)
    ensures |s| > 0 && PairLe(s[0], x)
  {
    var i :| 0 <= i < |s| && s[i] == x;
    if i == 0 {
      StrLeReflexive(x.1);
    }
  }

  lemma MultisetTail(s: seq<Item>)
    requires |s| > 0
    ensures multiset(s[1..]) == multiset(s) - multiset{s[0]}
  {
    assert s == [s[0]] + s[1..];
  }

  /** Two sorted sequences with the same elements are the same sequence. */
  lemma {:induction false} SortedUnique(a: seq<Item>, b: seq<Item>)
    requires Sorted(a) && Sorted(b)
    requires multiset(a) == multiset(b)
    ensures a == b
    decreases |a|
  {
    assert |a| == |multiset(a)| == |multiset(b)| == |b|;
    if |a| > 0 {
      assert a[0] in multiset(a) && b[0] in multiset(b);
      SortedHeadFirst(b, a[0]);
      SortedHeadFirst(a, b[0]);
      PairLeAntisymmetric(a[0], b[0]);
      MultisetTail(a);
      MultisetTail(b);
      SortedUnique(a[1..], b[1..]);
      assert a == [a[0]] + a[1..] && b == [b[0]] + b[1..];
    }
  }

  /** `f"{k}:{v}"` */
  function ItemText(item: Item): string {
    item.0 + ":" + item.1
  }

  function ItemTexts(items: seq<Item>): (texts: seq<string>)
    ensures |texts| == |items| && forall i :: 0 <= i < |items| ==> texts[i] == ItemText(items[i])
  {
    seq(|items|, i requires 0 <= i < |items| => ItemText(items[i]))
  }

  /** `"|".join(f"{k}:{v}" for k, v in sorted(filters.items()))` */
  function FilterString(filters: seq<Item>): string {
    Join(ItemTexts(SortItems(filters)), "|")
  }

  /** `_build_cache_key`: the key starts with the operation and a `:`, and
      ends with the filter string. */
  function BuildCacheKey(operation: string, field: Option<string>, filters: seq<Item>): (key: string)
    ensures |key| > |operation| && key[..|operation|] == operation && key[|operation|] == ':'
    ensures |key| >= |FilterString(filters)| && key[|key| - |FilterString(filters)|..] == FilterString(filters)
  {
    if field.Some? && field.value != "" then operation + ":" + field.value + ":" + FilterString(filters)
    else operation + ":" + FilterString(filters)
  }

  /** The key does not depend on the order of the filters. */
  lemma CacheKeyOrderIndependent(operation: string, field: Option<string>, f1: seq<Item>, f2: seq<Item>)
    requires multiset(f1) == multiset(f2)
    ensures BuildCacheKey(operation, field, f1) == BuildCacheKey(operation, field, f2)
  {
    SortedUnique(SortItems(f1), SortItems(f2));
  }

  /** The key is `operation:field:filters` with a non-empty field and
      `operation:filters` with none or an empty one; no filters give an empty
      filter part. */
  lemma CacheKeyFormat(operation: string, field: string, filters: seq<Item>)
    ensures field != "" ==> BuildCacheKey(operation, Some(field), filters) == operation + ":" + field + ":" + FilterString(filters)
    ensures BuildCacheKey(operation, Some(""), filters) == BuildCacheKey(operation, None, filters)
    ensures BuildCacheKey(operation, None, filters) == operation + ":" + FilterString(filters)
    ensures FilterString([]) == ""
  {
  }

  /** The text before the key's first `:` is the operation, when the
      operation has no `:` of its own. */
  lemma CacheKeyOperation(operation: string, field: Option<string>, filters: seq<Item>)
    requires ':' !in operation
    ensures Split(BuildCacheKey(operation, field, filters), ':')[0] == operation
  {
    var key := BuildCacheKey(operation, field, filters);
    var rest := key[|operation| + 1..];
    assert key == operation + [':'] + rest;
    SplitAtFirstSeparator(operation, rest, ':');
  }

  /** Keys of different operations never coincide, whatever their fields and
      filters: a count is never served a summary's entry. */
  lemma OperationsNeverShareKeys(op1: string, field1: Option<string>, filters1: seq<Item>,
                                 op2: string, field2: Option<string>, filters2: seq<Item>)
    requires ':' !in op1 && ':' !in op2 && op1 != op2
    ensures BuildCacheKey(op1, field1, filters1) != BuildCacheKey(op2, field2, filters2)
  {
    CacheKeyOperation(op1, field1, filters1);
    CacheKeyOperation(op2, field2, filters2);
  }

  /** Values are written unescaped, so different filters can share a key: a
      single filter whose value contains `|` and `:` reads like two filters. */
  lemma KeyCollision()
    ensures BuildCacheKey("sample_count", Some("sex"), [("race", "x|sex:F")])
         == BuildCacheKey("sample_count", Some("sex"), [("race", "x"), ("sex", "F")])
  {
    OneFilterString();
    TwoFilterString();
  }

  lemma OneFilterString()
    ensures FilterString([("race", "x|sex:F")]) == "race:x|sex:F"
  {
    assert SortItems([("race", "x|sex:F")]) == [("race", "x|sex:F")];
    assert ItemText(("race", "x|sex:F")) == "race:x|sex:F";
    assert ItemTexts([("race", "x|sex:F")]) == ["race:x|sex:F"];
  }

  lemma TwoFilterString()
    ensures FilterString([("race", "x"), ("sex", "F")]) == "race:x|sex:F"
  {
    SortTwo();
    var parts := ["race:x", "sex:F"];
    assert ItemText(("race", "x")) == "race:x" && ItemText(("sex", "F")) == "sex:F";
    assert ItemTexts([("race", "x"), ("sex", "F")]) == parts;
    assert Join(parts[1..], "|") == "sex:F";
    assert Join(parts, "|") == "race:x" + "|" + "sex:F";
  }

  lemma SortTwo()
    ensures SortItems([("race", "x"), ("sex", "F")]) == [("race", "x"), ("sex", "F")]
  {
    assert StrLe("race", "sex");
    assert PairLe(("race", "x"), ("sex", "F"));
    assert SortItems([("sex", "F")]) == [("sex", "F")];
  }
}
