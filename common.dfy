/** Shared vocabulary of the pages: optional fields, JavaScript truthiness,
    `Array.prototype.filter`, insertion-ordered `Set`s, the "all-or-equal"
    category filter and decimal rendering of counts. */
module Common {

  /** An optional field of a catalogue record (`field?: T` in TypeScript). */
  datatype Option<T> = None | Some(value: T)

  /** The outcome of an awaited catalogue fetch: the items, or a thrown error. */
  datatype Fetch<T> = Fetched(items: T) | Failed

  /** JavaScript truthiness of an optional string: present and not `''`. */
  predicate Truthy(o: Option<string>) {
    o.Some? && o.value != ""
  }

  /** `o || fallback` on an optional string. */
  function OrElse(o: Option<string>, fallback: string): string {
    if Truthy(o) then o.value else fallback
  }

  /** `o || 0` on an optional number. */
  function OrZero(o: Option<int>): int {
    if o.Some? then o.value else 0
  }

  ghost predicate NoDuplicates<T>(s: seq<T>) {
    forall i, j :: 0 <= i < j < |s| ==> s[i] != s[j]
  }

  /** `s.filter(p)`: the elements satisfying `p`, in their original order. */
  function Filter<T(!new)>(s: seq<T>, p: T -> bool): (r: seq<T>)
    ensures |r| <= |s|
    ensures forall x :: x in r <==> x in s && p(x)
  {
    if s == [] then []
    else if p(s[0]) then [s[0]] + Filter(s[1..], p)
    else Filter(s[1..], p)
  }

  /** Filter distributes over concatenation: together with its value on a
      single element this pins down the result, order included. */
  lemma {:induction false} FilterAppend<T(!new)>(s: seq<T>, t: seq<T>, p: T -> bool)
    ensures Filter(s + t, p) == Filter(s, p) + Filter(t, p)
  {
    if s == [] {
      assert s + t == t;
    } else {
      assert (s + t)[1..] == s[1..] + t;
      FilterAppend(s[1..], t, p);
    }
  }

  /** A filter whose predicate holds everywhere keeps the whole sequence. */
  lemma {:induction false} FilterAll<T(!new)>(s: seq<T>, p: T -> bool)
    requires forall i :: 0 <= i < |s| ==> p(s[i])
    ensures Filter(s, p) == s
  {
    if s != [] {
      FilterAll(s[1..], p);
    }
  }

  /** A filtered view of a sequence along which `key` strictly increases
      keeps that property: filtering never reorders. */
  lemma {:induction false} FilterKeepsIncreasing<T(!new)>(s: seq<T>, p: T -> bool, key: T -> int)
    requires forall i, j :: 0 <= i < j < |s| ==> key(s[i]) < key(s[j])
    ensures forall i, j :: 0 <= i < j < |Filter(s, p)| ==> key(Filter(s, p)[i]) < key(Filter(s, p)[j])
  {
    if s != [] {
      FilterKeepsIncreasing(s[1..], p, key);
      var rest := Filter(s[1..], p);
      if p(s[0]) {
        forall k | 0 <= k < |rest|
          ensures key(s[0]) < key(rest[k])
        {
          assert rest[k] in s[1..];
        }
      }
    }
  }

  /** Index of the first occurrence of `x` in `xs`. */
  function FirstIndex<T(==)>(xs: seq<T>, x: T): (k: nat)
    requires x in xs
    ensures k < |xs| && xs[k] == x && x !in xs[..k]
  {
    if xs[0] == x then 0 else 1 + FirstIndex(xs[1..], x)
  }

  /** `Array.from(new Set(xs))`: the distinct values, each at its first
      appearance (a JavaScript `Set` iterates in insertion order). */
  function Unique<T(!new,==)>(xs: seq<T>): (r: seq<T>)
    ensures forall x :: x in r <==> x in xs
    ensures NoDuplicates(r)
  {
    if xs == [] then []
    else
      var u := Unique(xs[..|xs| - 1]);
      if xs[|xs| - 1] in u then u else u + [xs[|xs| - 1]]
  }

  /** The values of `Unique(xs)` come in the order of their first appearance in `xs`. */
  lemma {:induction false} UniqueFirstAppearanceOrder<T(!new)>(xs: seq<T>)
    ensures forall i, j :: 0 <= i < j < |Unique(xs)| ==>
              FirstIndex(xs, Unique(xs)[i]) < FirstIndex(xs, Unique(xs)[j])
  {
    if xs != [] {
      var init, y := xs[..|xs| - 1], xs[|xs| - 1];
      assert xs == init + [y];
      UniqueFirstAppearanceOrder(init);
      var u := Unique(init);
      forall x | x in init
        ensures FirstIndex(xs, x) == FirstIndex(init, x)
      {
        FirstIndexOfPrefix(init, y, x);
      }
      if y !in u {
        assert y !in init;
        FirstIndexOfNew(init, y);
      }
    }
  }

  lemma FirstIndexOfPrefix<T>(init: seq<T>, y: T, x: T)
    requires x in init
    ensures FirstIndex(init + [y], x) == FirstIndex(init, x)
  {
    var xs := init + [y];
    var k, k' := FirstIndex(init, x), FirstIndex(xs, x);
    assert forall i :: 0 <= i < k ==> xs[i] != x by {
      assert xs[..k] == init[..k];
    }
    assert forall i :: 0 <= i < k' ==> xs[i] != x by {
      assert forall i :: 0 <= i < k' ==> xs[i] == xs[..k'][i];
    }
    assert xs[k] == x && xs[k'] == x;
  }

  lemma FirstIndexOfNew<T>(init: seq<T>, y: T)
    requires y !in init
    ensures FirstIndex(init + [y], y) == |init|
  {
    var xs := init + [y];
    assert forall i :: 0 <= i < |init| ==> xs[i] != y;
  }

  /** `vals.filter(Boolean)` on optional strings: the present, non-empty ones, in order. */
  function Present(vals: seq<Option<string>>): (r: seq<string>)
    ensures forall x :: x in r <==> Some(x) in vals && x != ""
  {
    if vals == [] then []
    else if Truthy(vals[0]) then [vals[0].value] + Present(vals[1..])
    else Present(vals[1..])
  }

  /** `filter(Boolean)` works entry by entry and keeps the order: the
      values of a concatenation are those of its parts, in turn, and a single
      entry is kept exactly when it is truthy. */
  lemma {:induction false} PresentAppend(a: seq<Option<string>>, b: seq<Option<string>>)
    ensures Present(a + b) == Present(a) + Present(b)
    ensures |a| == 1 ==> Present(a) == if Truthy(a[0]) then [a[0].value] else []
  {
    if a != [] {
      assert (a + b)[1..] == a[1..] + b;
      PresentAppend(a[1..], b);
    } else {
      assert a + b == b;
    }
    if |a| == 1 {
      assert a[1..] == [];
    }
  }

  /** Filtering out falsy entries keeps the order in which values first occur. */
  lemma {:induction false} PresentKeepsFirstOrder(vals: seq<Option<string>>, x: string, y: string)
    requires x in Present(vals) && y in Present(vals)
    requires FirstIndex(Present(vals), x) < FirstIndex(Present(vals), y)
    ensures FirstIndex(vals, Some(x)) < FirstIndex(vals, Some(y))
  {
    var p, rest := Present(vals), vals[1..];
    if Truthy(vals[0]) {
      assert p == [vals[0].value] + Present(rest);
      if x != vals[0].value {
        assert y != vals[0].value;
        assert p[1..] == Present(rest);
        PresentKeepsFirstOrder(rest, x, y);
      }
    } else {
      assert x != "" && y != "";
      PresentKeepsFirstOrder(rest, x, y);
    }
  }

  /** `Array.from(new Set(vals.filter(Boolean)))`: each present, non-empty
      value once, in the order of its first occurrence in `vals`. */
  function Distinct(vals: seq<Option<string>>): (r: seq<string>)
    ensures forall x :: x in r <==> Some(x) in vals && x != ""
    ensures NoDuplicates(r)
    ensures forall i, j :: 0 <= i < j < |r| ==> FirstIndex(vals, Some(r[i])) < FirstIndex(vals, Some(r[j]))
  {
    var p := Present(vals);
    UniqueFirstAppearanceOrder(p);
    DistinctOrder(vals);
    Unique(p)
  }

  lemma DistinctOrder(vals: seq<Option<string>>)
    ensures forall i, j :: 0 <= i < j < |Unique(Present(vals))| ==>
              FirstIndex(vals, Some(Unique(Present(vals))[i])) < FirstIndex(vals, Some(Unique(Present(vals))[j]))
  {
    var p := Present(vals);
    var u := Unique(p);
    UniqueFirstAppearanceOrder(p);
    forall i, j | 0 <= i < j < |u|
      ensures FirstIndex(vals, Some(u[i])) < FirstIndex(vals, Some(u[j]))
    {
      PresentKeepsFirstOrder(vals, u[i], u[j]);
    }
  }

  /** `['all', ...Array.from(new Set(vals.filter(Boolean)))]`: the filter
      buttons offered by a page, `'all'` first and then each value in the
      order of its first occurrence. */
  function Choices(vals: seq<Option<string>>): (r: seq<string>)
    ensures |r| >= 1 && r[0] == "all"
    ensures forall x :: x in r[1..] <==> Some(x) in vals && x != ""
    ensures NoDuplicates(r[1..])
    ensures forall i, j :: 1 <= i < j < |r| ==> FirstIndex(vals, Some(r[i])) < FirstIndex(vals, Some(r[j]))
  {
    var d := Distinct(vals);
    assert (["all"] + d)[1..] == d;
    ["all"] + d
  }

  /** `items.map(key)`. */
  function Keys<T>(items: seq<T>, key: T -> Option<string>): (vals: seq<Option<string>>)
    ensures |vals| == |items|
  {
    seq(|items|, i requires 0 <= i < |items| => key(items[i]))
  }

  /** Some item carrying `x` comes before every item carrying `y`. */
  ghost predicate OccursFirst<T>(items: seq<T>, key: T -> Option<string>, x: string, y: string) {
    exists k :: 0 <= k < |items| && key(items[k]) == Some(x) &&
      forall k' :: 0 <= k' <= k ==> key(items[k']) != Some(y)
  }

  /** The distinct values of `items.map(key)`: each value carried by an item
      exactly once, in the order in which the items first carry them. */
  lemma DistinctFollowsItems<T>(items: seq<T>, key: T -> Option<string>)
    ensures forall x :: x in Distinct(Keys(items, key)) <==>
              x != "" && exists i :: 0 <= i < |items| && key(items[i]) == Some(x)
    ensures NoDuplicates(Distinct(Keys(items, key)))
    ensures forall a, b :: 0 <= a < b < |Distinct(Keys(items, key))| ==>
              OccursFirst(items, key, Distinct(Keys(items, key))[a], Distinct(Keys(items, key))[b])
  {
    var vals, d := Keys(items, key), Distinct(Keys(items, key));
    forall x
      ensures Some(x) in vals <==> exists i :: 0 <= i < |items| && key(items[i]) == Some(x)
    {
      if Some(x) in vals {
        var i :| 0 <= i < |vals| && vals[i] == Some(x);
        assert key(items[i]) == Some(x);
      }
      if exists i :: 0 <= i < |items| && key(items[i]) == Some(x) {
        var i :| 0 <= i < |items| && key(items[i]) == Some(x);
        assert vals[i] == Some(x);
      }
    }
    forall a, b | 0 <= a < b < |d|
      ensures OccursFirst(items, key, d[a], d[b])
    {
      var k := FirstIndex(vals, Some(d[a]));
      var kb := FirstIndex(vals, Some(d[b]));
      assert vals[k] == key(items[k]);
      forall k' | 0 <= k' <= k
        ensures key(items[k']) != Some(d[b])
      {
        assert vals[k'] == key(items[k']);
        assert vals[k'] in vals[..kb];
      }
    }
  }

  /** The filter buttons built from `items.map(key)`: `'all'`, then each
      value carried by an item exactly once, in the order in which the items
      first carry them. */
  lemma ChoicesFollowItems<T>(items: seq<T>, key: T -> Option<string>)
    ensures |Choices(Keys(items, key))| >= 1 && Choices(Keys(items, key))[0] == "all"
    ensures Choices(Keys(items, key))[1..] == Distinct(Keys(items, key))
    ensures forall x :: x in Choices(Keys(items, key))[1..] <==>
              x != "" && exists i :: 0 <= i < |items| && key(items[i]) == Some(x)
    ensures NoDuplicates(Choices(Keys(items, key))[1..])
    ensures forall a, b :: 1 <= a < b < |Choices(Keys(items, key))| ==>
              OccursFirst(items, key, Choices(Keys(items, key))[a], Choices(Keys(items, key))[b])
  {
    var c, d := Choices(Keys(items, key)), Distinct(Keys(items, key));
    assert c == ["all"] + d && c[1..] == d;
    DistinctFollowsItems(items, key);
    forall a, b | 1 <= a < b < |c|
      ensures OccursFirst(items, key, c[a], c[b])
    {
      assert c[a] == d[a - 1] && c[b] == d[b - 1];
    }
  }

  /** The predicate `x => key(x) === selected` of a page's filter. */
  function KeyIs<T>(key: T -> Option<string>, selected: string): T -> bool {
    x => key(x) == Some(selected)
  }

  /** `selected === 'all' ? items : items.filter(x => key(x) === selected)`. */
  function SelectAllOrEqual<T(!new)>(items: seq<T>, key: T -> Option<string>, selected: string): (r: seq<T>)
    ensures selected == "all" ==> r == items
    ensures selected != "all" ==> forall x :: x in r <==> x in items && key(x) == Some(selected)
  {
    if selected == "all" then items else Filter(items, KeyIs(key, selected))
  }

  /** A decimal digit character. */
  function DigitChar(d: nat): char
    requires d < 10
  {
    "0123456789"[d]
  }

  /** `${n}`: the decimal rendering of a count, as a template literal prints it. */
  function Decimal(n: nat): (s: string)
    ensures |s| >= 1
    ensures forall i :: 0 <= i < |s| ==> '0' <= s[i] <= '9'
  {
    if n < 10 then [DigitChar(n)] else Decimal(n / 10) + [DigitChar(n % 10)]
  }

  /** Reading a string of decimal digits back as a number. */
  function ParseDecimal(s: string): nat
    requires forall i :: 0 <= i < |s| ==> '0' <= s[i] <= '9'
  {
    if s == [] then 0
    else ParseDecimal(s[..|s| - 1]) * 10 + ((s[|s| - 1] as int) - ('0' as int))
  }

  /** Rendering a count in decimal loses nothing. */
  lemma {:induction false} DecimalRoundTrip(n: nat)
    ensures ParseDecimal(Decimal(n)) == n
  {
    var s := Decimal(n);
    if n >= 10 {
      DecimalRoundTrip(n / 10);
      assert s[..|s| - 1] == Decimal(n / 10);
    }
  }
}
