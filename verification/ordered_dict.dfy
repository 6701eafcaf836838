/** Python's insertion-ordered `dict[str, str]`: a sequence of (key, value)
    pairs with pairwise different keys. Assigning a new key appends it,
    assigning an existing key replaces its value in place, `pop` removes it. */
module OrderedDict {
  import opened Wrappers

  type Item = (string, string)

  function Keys(items: seq<Item>): (ks: seq<string>)
    ensures |ks| == |items|
    ensures forall i :: 0 <= i < |items| ==> ks[i] == items[i].0
  {
    seq(|items|, i requires 0 <= i < |items| => items[i].0)
  }

  predicate UniqueKeys(items: seq<Item>) {
    forall i, j :: 0 <= i < j < |items| ==> items[i].0 != items[j].0
  }

  /** `d.get(k)`. */
  function Get(items: seq<Item>, k: string): (r: Option<string>)
    ensures r.Some? <==> k in Keys(items)
  {
    if |items| == 0 then None
    else if items[0].0 == k then Some(items[0].1)
    else
      assert Keys(items) == [items[0].0] + Keys(items[1..]);
      Get(items[1..], k)
  }

  /** `d[k] = v`. */
  function Set(items: seq<Item>, k: string, v: string): seq<Item> {
    if |items| == 0 then [(k, v)]
    else if items[0].0 == k then [(k, v)] + items[1..]
    else [items[0]] + Set(items[1..], k, v)
  }

  /** `d.pop(k, None)` as far as the remaining entries go. */
  function Remove(items: seq<Item>, k: string): seq<Item> {
    if |items| == 0 then []
    else if items[0].0 == k then Remove(items[1..], k)
    else [items[0]] + Remove(items[1..], k)
  }

  /** `d.update(extra)`: the entries of `extra` assigned one by one, in order. */
  function Update(items: seq<Item>, extra: seq<Item>): seq<Item>
    decreases |extra|
  {
    if |extra| == 0 then items else Update(Set(items, extra[0].0, extra[0].1), extra[1..])
  }

  lemma {:induction false} SetKeys(items: seq<Item>, k: string, v: string)
    ensures Keys(Set(items, k, v)) == if k in Keys(items) then Keys(items) else Keys(items) + [k]
    decreases |items|
  {
    if |items| > 0 {
      assert Keys(items) == [items[0].0] + Keys(items[1..]);
      SetKeys(items[1..], k, v);
      if items[0].0 != k {
        assert Keys(Set(items, k, v)) == [items[0].0] + Keys(Set(items[1..], k, v));
      } else {
        assert Keys(Set(items, k, v)) == [k] + Keys(items[1..]);
      }
    }
  }

  lemma {:induction false} SetGet(items: seq<Item>, k: string, v: string, q: string)
    ensures Get(Set(items, k, v), q) == if q == k then Some(v) else Get(items, q)
    decreases |items|
  {
    if |items| > 0 && items[0].0 != k {
      SetGet(items[1..], k, v, q);
    }
  }

  lemma {:induction false} SetUnique(items: seq<Item>, k: string, v: string)
    requires UniqueKeys(items)
    ensures UniqueKeys(Set(items, k, v))
  {
    SetKeys(items, k, v);
    var r := Set(items, k, v);
    assert Keys(r) == Keys(items) || Keys(r) == Keys(items) + [k];
    forall i, j | 0 <= i < j < |r| ensures r[i].0 != r[j].0 {
      assert Keys(r)[i] == r[i].0 && Keys(r)[j] == r[j].0;
      if j == |items| {
        assert k !in Keys(items);
      }
    }
  }

  /** The entries `Remove` keeps: those whose key is not `k`, in their order. */
  lemma {:induction false} RemoveKeys(items: seq<Item>, k: string)
    ensures k !in Keys(Remove(items, k))
    ensures forall q :: q in Keys(Remove(items, k)) <==> q in Keys(items) && q != k
    decreases |items|
  {
    if |items| > 0 {
      RemoveKeys(items[1..], k);
      assert Keys(items) == [items[0].0] + Keys(items[1..]);
      if items[0].0 != k {
        assert Keys(Remove(items, k)) == [items[0].0] + Keys(Remove(items[1..], k));
      }
    }
  }

  lemma {:induction false} RemoveGet(items: seq<Item>, k: string, q: string)
    ensures Get(Remove(items, k), q) == if q == k then None else Get(items, q)
    decreases |items|
  {
    RemoveKeys(items, k);
    if |items| > 0 {
      RemoveGet(items[1..], k, q);
    }
  }

  lemma {:induction false} RemoveAbsent(items: seq<Item>, k: string)
    requires k !in Keys(items)
    ensures Remove(items, k) == items
    decreases |items|
  {
    if |items| > 0 {
      assert Keys(items) == [items[0].0] + Keys(items[1..]);
      RemoveAbsent(items[1..], k);
    }
  }

  lemma {:induction false} RemoveUnique(items: seq<Item>, k: string)
    requires UniqueKeys(items)
    ensures UniqueKeys(Remove(items, k))
    decreases |items|
  {
    if |items| > 0 {
      RemoveUnique(items[1..], k);
      RemoveKeys(items[1..], k);
      assert Keys(items) == [items[0].0] + Keys(items[1..]);
      if items[0].0 != k {
        var r := Remove(items, k);
        var t := Remove(items[1..], k);
        assert r == [items[0]] + t;
        assert items[0].0 !in Keys(items[1..]) by {
          forall i | 0 <= i < |items| - 1 ensures Keys(items[1..])[i] != items[0].0 {
            assert items[1..][i] == items[i + 1];
          }
        }
        forall j | 0 < j < |r| ensures r[0].0 != r[j].0 {
          assert r[j] == t[j - 1];
          assert Keys(t)[j - 1] == t[j - 1].0;
          assert t[j - 1].0 in Keys(items[1..]);
        }
      }
    }
  }

  lemma {:induction false} UpdateUnique(items: seq<Item>, extra: seq<Item>)
    requires UniqueKeys(items)
    ensures UniqueKeys(Update(items, extra))
    decreases |extra|
  {
    if |extra| > 0 {
      SetUnique(items, extra[0].0, extra[0].1);
      UpdateUnique(Set(items, extra[0].0, extra[0].1), extra[1..]);
    }
  }

  /** After `d.update(extra)` a key holds the value `extra` gives it, if any,
      and its old value otherwise: the extra entries win. */
  lemma {:induction false} UpdateGet(items: seq<Item>, extra: seq<Item>, q: string)
    requires UniqueKeys(extra)
    ensures Get(Update(items, extra), q) == if q in Keys(extra) then Get(extra, q) else Get(items, q)
    decreases |extra|
  {
    if |extra| > 0 {
      var e := extra[0];
      var s := Set(items, e.0, e.1);
      assert Keys(extra) == [e.0] + Keys(extra[1..]);
      assert UniqueKeys(extra[1..]);
      UpdateGet(s, extra[1..], q);
      SetGet(items, e.0, e.1, q);
      if q == e.0 {
        assert q !in Keys(extra[1..]);
      }
    }
  }

  lemma KeysAppend(a: seq<Item>, b: seq<Item>)
    ensures Keys(a + b) == Keys(a) + Keys(b)
  {
  }

  /** Assigning a key the dict does not hold appends the entry. */
  lemma {:induction false} SetNewKey(items: seq<Item>, k: string, v: string)
    requires k !in Keys(items)
    ensures Set(items, k, v) == items + [(k, v)]
    decreases |items|
  {
    if |items| > 0 {
      assert Keys(items) == [items[0].0] + Keys(items[1..]);
      SetNewKey(items[1..], k, v);
    }
  }

  /** Popping the key of an entry appended last gives back the entries before it. */
  lemma {:induction false} RemoveLast(items: seq<Item>, k: string, v: string)
    requires k !in Keys(items)
    ensures Remove(items + [(k, v)], k) == items
    decreases |items|
  {
    if |items| == 0 {
      assert Remove([(k, v)], k) == Remove([], k);
    } else {
      assert Keys(items) == [items[0].0] + Keys(items[1..]);
      assert (items + [(k, v)])[1..] == items[1..] + [(k, v)];
      RemoveLast(items[1..], k, v);
    }
  }

  /** Looking a key up in two dicts laid end to end finds it in the first one
      that holds it. */
  lemma {:induction false} GetAppend(a: seq<Item>, b: seq<Item>, k: string)
    ensures Get(a + b, k) == if k in Keys(a) then Get(a, k) else Get(b, k)
    decreases |a|
  {
    if |a| > 0 {
      assert Keys(a) == [a[0].0] + Keys(a[1..]);
      assert (a + b)[1..] == a[1..] + b;
      GetAppend(a[1..], b, k);
    } else {
      assert a + b == b;
    }
  }

  /** A mutable Python dict of strings. */
  class StringDict {
    var items: seq<Item>

    predicate Valid()
      reads this
    {
      UniqueKeys(items)
    }

    /** `{}` */
    constructor ()
      ensures Valid() && items == []
    {
      items := [];
    }

    /** `dict(other)` */
    constructor Copy(other: seq<Item>)
      requires UniqueKeys(other)
      ensures Valid() && items == other
    {
      items := other;
    }

    predicate Contains(k: string)
      reads this
    {
      k in Keys(items)
    }

    /** `d[k] = v` */
    method Put(k: string, v: string)
      requires Valid()
      modifies this
      ensures Valid() && items == Set(old(items), k, v)
    {
      SetUnique(items, k, v);
      items := Set(items, k, v);
    }

    /** `d.pop(k, None)` */
    method Pop(k: string) returns (v: Option<string>)
      requires Valid()
      modifies this
      ensures Valid() && items == Remove(old(items), k)
      ensures v == Get(old(items), k)
    {
      v := Get(items, k);
      RemoveUnique(items, k);
      items := Remove(items, k);
    }

    /** `d.update(extra)` */
    method UpdateFrom(extra: seq<Item>)
      requires Valid()
      modifies this
      ensures Valid() && items == Update(old(items), extra)
    {
      var i := 0;
      while i < |extra|
        invariant 0 <= i <= |extra|
        invariant Valid()
        invariant Update(items, extra[i..]) == Update(old(items), extra)
      {
        assert extra[i..][0] == extra[i] && extra[i..][1..] == extra[i + 1..];
        Put(extra[i].0, extra[i].1);
        i := i + 1;
      }
    }
  }
}
