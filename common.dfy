/** Values shared by every part of the order-analytics engine: the order
    line record, optional and fallible results, JavaScript-style records with
    insertion-ordered keys, and the per-key folds the engine keeps repeating
    (distinct keys in first-appearance order, the lines of one key, sums of
    quantities). */
module Common {

  datatype Option<T> = None | Some(value: T)

  /** A call that either returns a value or throws an Error with a message. */
  datatype Result<T> = Ok(value: T) | Err(message: string)

  /** One line item of an order (OrderData in the source). Several lines may
      share an order number. */
  datatype Order = Order(orderNumber: string, sku: string, quantity: int, date: string)

  function OrderNumberOf(o: Order): string { o.orderNumber }
  function SkuOf(o: Order): string { o.sku }

  function Max(a: int, b: int): int { if a < b then b else a }
  function Min(a: int, b: int): int { if a < b then a else b }

  /** A JavaScript object or Map used as a dictionary: its keys in insertion
      order, and the value stored under each key. */
  datatype Record<V> = Record(keys: seq<string>, entries: map<string, V>)
  {
    ghost predicate Valid() {
      NoDups(keys) && forall k :: k in entries <==> k in keys
    }
  }

  predicate NoDups<T(==)>(s: seq<T>) {
    forall i, j :: 0 <= i < j < |s| ==> s[i] != s[j]
  }

  function ToSet<T>(s: seq<T>): set<T> { set x | x in s }

  /** Sum of the quantities of some lines (a `reduce` with `+`). */
  function SumQuantity(lines: seq<Order>): int {
    if |lines| == 0 then 0 else SumQuantity(lines[..|lines| - 1]) + lines[|lines| - 1].quantity
  }

  function SumInts(xs: seq<int>): int {
    if |xs| == 0 then 0 else SumInts(xs[..|xs| - 1]) + xs[|xs| - 1]
  }

  /** The key of every line, in order (`data.map(key)`). */
  function Keys(data: seq<Order>, key: Order -> string): (r: seq<string>)
    ensures |r| == |data|
    ensures forall i :: 0 <= i < |data| ==> r[i] == key(data[i])
  {
    if |data| == 0 then [] else Keys(data[..|data| - 1], key) + [key(data[|data| - 1])]
  }

  /** The elements of `xs` without repetitions, in order of first appearance:
      what `Array.from(new Set(xs))` yields. */
  function Dedup<T(==)>(xs: seq<T>): (r: seq<T>)
    ensures NoDups(r)
    ensures ToSet(r) == ToSet(xs)
    ensures |r| <= |xs|
  {
    if |xs| == 0 then []
    else
      var d := Dedup(xs[..|xs| - 1]);
      var x := xs[|xs| - 1];
      assert ToSet(xs) == ToSet(xs[..|xs| - 1]) + {x} by {
        assert xs == xs[..|xs| - 1] + [x];
      }
      if x in d then d
      else
        assert NoDups(d + [x]) by {
          forall i | 0 <= i < |d| ensures (d + [x])[i] != x {
            assert d[i] in d;
          }
        }
        d + [x]
  }

  /** The distinct keys of some lines, in first-appearance order. */
  function DistinctKeys(data: seq<Order>, key: Order -> string): seq<string> {
    Dedup(Keys(data, key))
  }

  /** The lines whose key is `k`, in input order (`data.filter(o => key(o) === k)`). */
  function LinesWith(data: seq<Order>, key: Order -> string, k: string): (r: seq<Order>)
    ensures |r| <= |data|
  {
    if |data| == 0 then []
    else
      var last := data[|data| - 1];
      LinesWith(data[..|data| - 1], key, k) + (if key(last) == k then [last] else [])
  }

  /** A JavaScript Set's size is the number of distinct elements. */
  lemma {:induction false} NoDupsCard<T>(s: seq<T>)
    requires NoDups(s)
    ensures |ToSet(s)| == |s|
  {
    if |s| > 0 {
      var p := s[..|s| - 1];
      var x := s[|s| - 1];
      NoDupsCard(p);
      assert x !in p by {
        forall i | 0 <= i < |p| ensures p[i] != x {
          assert s[i] != s[|s| - 1];
        }
      }
      assert ToSet(s) == ToSet(p) + {x} by {
        assert s == p + [x];
      }
    }
  }

  /** A key occurs among the distinct keys iff some line carries it. */
  lemma DistinctKeysHas(data: seq<Order>, key: Order -> string, k: string)
    ensures k in DistinctKeys(data, key) <==> exists i :: 0 <= i < |data| && key(data[i]) == k
  {
    var ks := Keys(data, key);
    assert k in DistinctKeys(data, key) <==> k in ToSet(ks);
    if k in ks {
      var i :| 0 <= i < |ks| && ks[i] == k;
      assert key(data[i]) == k;
    }
    if i :| 0 <= i < |data| && key(data[i]) == k {
      assert ks[i] == k;
    }
  }

  /** The number of distinct keys is the size of the set of keys. */
  lemma DistinctKeysCard(data: seq<Order>, key: Order -> string)
    ensures |DistinctKeys(data, key)| == |set o | o in data :: key(o)|
  {
    var d := DistinctKeys(data, key);
    NoDupsCard(d);
    forall k ensures k in ToSet(d) <==> k in set o | o in data :: key(o) {
      DistinctKeysHas(data, key, k);
      if k in set o | o in data :: key(o) {
        var o :| o in data && key(o) == k;
        var i :| 0 <= i < |data| && data[i] == o;
        assert key(data[i]) == k;
      }
    }
    assert ToSet(d) == set o | o in data :: key(o);
  }

  lemma KeysSnoc(data: seq<Order>, key: Order -> string, x: Order)
    ensures Keys(data + [x], key) == Keys(data, key) + [key(x)]
  {
    assert (data + [x])[..|data|] == data;
  }

  /** Appending one line adds its key at the end, unless the key was seen. */
  lemma DistinctKeysSnoc(data: seq<Order>, key: Order -> string, x: Order)
    ensures DistinctKeys(data + [x], key)
         == if key(x) in DistinctKeys(data, key) then DistinctKeys(data, key)
            else DistinctKeys(data, key) + [key(x)]
  {
    KeysSnoc(data, key, x);
    assert Keys(data + [x], key)[..|data|] == Keys(data, key);
  }

  /** Appending one line adds it to its own key's lines and to no other. */
  lemma LinesWithSnoc(data: seq<Order>, key: Order -> string, x: Order, k: string)
    ensures LinesWith(data + [x], key, k)
         == LinesWith(data, key, k) + (if key(x) == k then [x] else [])
  {
    assert (data + [x])[..|data|] == data;
  }

  lemma SumQuantitySnoc(lines: seq<Order>, x: Order)
    ensures SumQuantity(lines + [x]) == SumQuantity(lines) + x.quantity
  {
    assert (lines + [x])[..|lines|] == lines;
  }

  lemma {:induction false} SumQuantityAppend(a: seq<Order>, b: seq<Order>)
    ensures SumQuantity(a + b) == SumQuantity(a) + SumQuantity(b)
  {
    if |b| > 0 {
      var b' := b[..|b| - 1];
      SumQuantityAppend(a, b');
      assert a + b == (a + b') + [b[|b| - 1]];
      SumQuantitySnoc(a + b', b[|b| - 1]);
      assert b == b' + [b[|b| - 1]];
      SumQuantitySnoc(b', b[|b| - 1]);
    } else {
      assert a + b == a;
    }
  }

  lemma SumIntsSnoc(xs: seq<int>, x: int)
    ensures SumInts(xs + [x]) == SumInts(xs) + x
  {
    assert (xs + [x])[..|xs|] == xs;
  }

  /** The sum, over the keys `ks`, of the quantities of each key's lines. */
  function SumOverKeys(data: seq<Order>, key: Order -> string, ks: seq<string>): int {
    if |ks| == 0 then 0
    else SumOverKeys(data, key, ks[..|ks| - 1]) + SumQuantity(LinesWith(data, key, ks[|ks| - 1]))
  }

  lemma {:induction false} SumOverKeysSnoc(data: seq<Order>, key: Order -> string, x: Order, ks: seq<string>)
    requires NoDups(ks)
    ensures SumOverKeys(data + [x], key, ks)
         == SumOverKeys(data, key, ks) + (if key(x) in ks then x.quantity else 0)
  {
    if |ks| > 0 {
      var p := ks[..|ks| - 1];
      var k := ks[|ks| - 1];
      assert NoDups(p);
      SumOverKeysSnoc(data, key, x, p);
      LinesWithSnoc(data, key, x, k);
      if key(x) == k {
        SumQuantitySnoc(LinesWith(data, key, k), x);
        assert key(x) !in p by {
          forall i | 0 <= i < |p| ensures p[i] != key(x) {
            assert ks[i] != ks[|ks| - 1];
          }
        }
      } else {
        assert LinesWith(data + [x], key, k) == LinesWith(data, key, k);
        assert key(x) in ks <==> key(x) in p by {
          assert ks == p + [k];
        }
      }
    }
  }

  /** Totalling each key's lines and adding the totals gives the total of all
      lines, for any list of distinct keys that covers every line's key:
      grouping neither loses nor double-counts a quantity. */
  lemma {:induction false} SumOverKeysCovers(data: seq<Order>, key: Order -> string, ks: seq<string>)
    requires NoDups(ks)
    requires forall o :: o in data ==> key(o) in ks
    ensures SumOverKeys(data, key, ks) == SumQuantity(data)
  {
    if |data| == 0 {
      SumOverKeysEmpty(key, ks);
    } else {
      var p := data[..|data| - 1];
      var x := data[|data| - 1];
      assert data == p + [x];
      SumOverKeysCovers(p, key, ks);
      SumOverKeysSnoc(p, key, x, ks);
    }
  }

  lemma {:induction false} SumOverKeysEmpty(key: Order -> string, ks: seq<string>)
    ensures SumOverKeys([], key, ks) == 0
  {
    if |ks| > 0 {
      SumOverKeysEmpty(key, ks[..|ks| - 1]);
    }
  }

  /** The per-key totals of the distinct keys add up to the grand total. */
  lemma SumOverDistinctKeys(data: seq<Order>, key: Order -> string)
    ensures SumOverKeys(data, key, DistinctKeys(data, key)) == SumQuantity(data)
  {
    forall o | o in data ensures key(o) in DistinctKeys(data, key) {
      var i :| 0 <= i < |data| && data[i] == o;
      DistinctKeysHas(data, key, key(o));
    }
    SumOverKeysCovers(data, key, DistinctKeys(data, key));
  }

  /** A line belongs to the lines of its own key. */
  lemma {:induction false} LinesWithHas(data: seq<Order>, key: Order -> string, i: nat)
    requires i < |data|
    ensures data[i] in LinesWith(data, key, key(data[i]))
  {
    var p := data[..|data| - 1];
    if i < |data| - 1 {
      LinesWithHas(p, key, i);
      assert p[i] == data[i];
    }
  }

  /** A key that occurs among the distinct keys has at least one line. */
  lemma DistinctKeyHasLines(data: seq<Order>, key: Order -> string, k: string)
    requires k in DistinctKeys(data, key)
    ensures |LinesWith(data, key, k)| > 0
  {
    DistinctKeysHas(data, key, k);
    var i :| 0 <= i < |data| && key(data[i]) == k;
    LinesWithHas(data, key, i);
  }

  /** A key that occurs on no line has no lines. */
  lemma {:induction false} LinesWithAbsent(data: seq<Order>, key: Order -> string, k: string)
    requires k !in DistinctKeys(data, key)
    ensures LinesWith(data, key, k) == []
  {
    if |data| > 0 {
      var p := data[..|data| - 1];
      assert data == p + [data[|data| - 1]];
      DistinctKeysSnoc(p, key, data[|data| - 1]);
      LinesWithAbsent(p, key, k);
    }
  }


  /** Folds `step` over some lines from `init`, first line first: the value a
      `reduce` callback builds for one key. */
  function FoldLines<A>(lines: seq<Order>, init: A, step: (A, Order) -> A): A {
    if |lines| == 0 then init else step(FoldLines(lines[..|lines| - 1], init, step), lines[|lines| - 1])
  }

  lemma FoldLinesSnoc<A>(lines: seq<Order>, init: A, step: (A, Order) -> A, x: Order)
    ensures FoldLines(lines + [x], init, step) == step(FoldLines(lines, init, step), x)
  {
    assert (lines + [x])[..|lines|] == lines;
  }

  /** `r` holds, for each distinct key of `data` in first-appearance order,
      the fold of that key's lines, and nothing else. */
  ghost predicate AccumulatedBy<A>(r: Record<A>, data: seq<Order>, key: Order -> string, init: A, step: (A, Order) -> A) {
    && r.keys == DistinctKeys(data, key)
    && (forall k :: k in r.entries <==> k in r.keys)
    && (forall k :: k in r.entries ==> r.entries[k] == FoldLines(LinesWith(data, key, k), init, step))
  }

  /** The per-key accumulation every `reduce`/`forEach` into a keyed record
      performs: a missing key opens at `init`, then `step` folds the line in. */
  method AccumulateBy<A>(data: seq<Order>, key: Order -> string, init: A, step: (A, Order) -> A)
    returns (r: Record<A>)
    ensures AccumulatedBy(r, data, key, init, step)
  {
    r := Record([], map[]);
    for i := 0 to |data|
      invariant AccumulatedBy(r, data[..i], key, init, step)
    {
      var o := data[i];
      var k := key(o);
      assert data[..i + 1] == data[..i] + [o];
      DistinctKeysSnoc(data[..i], key, o);
      var r0 := r;
      var current := if k in r.entries then r.entries[k] else init;
      if k !in r.entries {
        LinesWithAbsent(data[..i], key, k);
        r := Record(r.keys + [k], r.entries[k := step(current, o)]);
      } else {
        r := r.(entries := r.entries[k := step(current, o)]);
      }
      forall k' | k' in r.entries
        ensures r.entries[k'] == FoldLines(LinesWith(data[..i + 1], key, k'), init, step)
      {
        LinesWithSnoc(data[..i], key, o, k');
        if k' == k {
          FoldLinesSnoc(LinesWith(data[..i], key, k), init, step, o);
        } else {
          assert LinesWith(data[..i + 1], key, k') == LinesWith(data[..i], key, k');
          assert r.entries[k'] == r0.entries[k'];
        }
      }
    }
    assert data[..|data|] == data;
  }

  /** The accumulator of `acc[k].push(line)`. */
  function AppendLine(acc: seq<Order>, o: Order): seq<Order> { acc + [o] }

  /** The accumulator of `acc[k] += line.quantity` (or `get(k) || 0` plus it). */
  function AddQuantity(acc: int, o: Order): int { acc + o.quantity }

  lemma {:induction false} FoldAppendLines(lines: seq<Order>)
    ensures FoldLines(lines, [], AppendLine) == lines
  {
    if |lines| > 0 {
      FoldAppendLines(lines[..|lines| - 1]);
      assert lines == lines[..|lines| - 1] + [lines[|lines| - 1]];
    }
  }

  lemma {:induction false} FoldAddQuantity(lines: seq<Order>)
    ensures FoldLines(lines, 0, AddQuantity) == SumQuantity(lines)
  {
    if |lines| > 0 {
      FoldAddQuantity(lines[..|lines| - 1]);
    }
  }

  /** `r` maps each distinct key of `data`, in first-appearance order, to
      that key's lines, and holds nothing else. */
  ghost predicate GroupedBy(r: Record<seq<Order>>, data: seq<Order>, key: Order -> string) {
    && r.keys == DistinctKeys(data, key)
    && (forall k :: k in r.entries <==> k in r.keys)
    && (forall k :: k in r.entries ==> r.entries[k] == LinesWith(data, key, k))
  }

  /** `r` maps each distinct key of `data`, in first-appearance order, to
      the total quantity of that key's lines, and holds nothing else. */
  ghost predicate TotalledBy(r: Record<int>, data: seq<Order>, key: Order -> string) {
    && r.keys == DistinctKeys(data, key)
    && (forall k :: k in r.entries <==> k in r.keys)
    && (forall k :: k in r.entries ==> r.entries[k] == SumQuantity(LinesWith(data, key, k)))
  }

  /** Groups lines by key, as a `reduce` that pushes each line into
      `acc[key]` does. */
  method GroupBy(data: seq<Order>, key: Order -> string) returns (r: Record<seq<Order>>)
    ensures GroupedBy(r, data, key)
  {
    r := AccumulateBy(data, key, [], AppendLine);
    forall k | k in r.entries ensures r.entries[k] == LinesWith(data, key, k) {
      FoldAppendLines(LinesWith(data, key, k));
    }
  }

  /** Totals quantities by key, as a `Map` updated with `get(k) || 0` plus
      the line's quantity does. */
  method TotalBy(data: seq<Order>, key: Order -> string) returns (r: Record<int>)
    ensures TotalledBy(r, data, key)
  {
    r := AccumulateBy(data, key, 0, AddQuantity);
    forall k | k in r.entries ensures r.entries[k] == SumQuantity(LinesWith(data, key, k)) {
      FoldAddQuantity(LinesWith(data, key, k));
    }
  }

  /** `new Set(data.map(key)).size`. */
  function CountDistinct(data: seq<Order>, key: Order -> string): (n: nat)
    ensures n == |set o | o in data :: key(o)|
    ensures n <= |data|
    ensures |data| > 0 ==> n >= 1
  {
    DistinctKeysCard(data, key);
    if |data| > 0 then
      DistinctKeysHas(data, key, key(data[0]));
      |DistinctKeys(data, key)|
    else
      |DistinctKeys(data, key)|
  }

  /** A grouping's groups, read in key order, add up to all the lines' quantity. */
  method SumGroupTotals(r: Record<int>, ghost data: seq<Order>, ghost key: Order -> string) returns (sum: int)
    requires TotalledBy(r, data, key)
    ensures sum == SumQuantity(data)
  {
    sum := 0;
    for j := 0 to |r.keys|
      invariant sum == SumOverKeys(data, key, r.keys[..j])
    {
      assert r.keys[..j + 1][..j] == r.keys[..j];
      assert r.keys[j] in r.entries;
      sum := sum + r.entries[r.keys[j]];
    }
    assert r.keys[..|r.keys|] == r.keys;
    SumOverDistinctKeys(data, key);
  }

  /** `r[k] = v` on a JavaScript object: a new key goes last, an existing
      key keeps its place and takes the new value. */
  function Put<V>(r: Record<V>, k: string, v: V): Record<V> {
    Record(if k in r.entries then r.keys else r.keys + [k], r.entries[k := v])
  }

  /** Assigning keeps a record well formed, and its keys become those of
      `Dedup` once the new key is appended. */
  lemma PutKeys<V>(r: Record<V>, ks: seq<string>, k: string, v: V)
    requires r.Valid() && r.keys == Dedup(ks)
    ensures Put(r, k, v).Valid()
    ensures Put(r, k, v).keys == Dedup(ks + [k])
  {
    assert (ks + [k])[..|ks|] == ks;
    assert k in r.entries <==> k in Dedup(ks);
    if k !in r.entries {
      assert NoDups(r.keys + [k]) by {
        forall i | 0 <= i < |r.keys| ensures r.keys[i] != k {
          assert r.keys[i] in r.entries;
        }
      }
    }
  }

  /** `r` assigns `f(k)` to every key `k` of `ks`, once each, in the order
      the keys first appear: the record a `forEach` over `ks` writing
      `r[k] = f(k)` leaves behind. */
  ghost predicate Tabulates<V>(r: Record<V>, ks: seq<string>, f: string -> V) {
    && r.Valid() && r.keys == Dedup(ks)
    && (forall k :: k in r.entries <==> k in ks)
    && (forall k :: k in r.entries ==> r.entries[k] == f(k))
  }

  /** Writing the next key's value extends the tabulation to it. */
  lemma TabulatesStep<V>(r: Record<V>, ks: seq<string>, j: nat, f: string -> V)
    requires j < |ks| && Tabulates(r, ks[..j], f)
    ensures Tabulates(Put(r, ks[j], f(ks[j])), ks[..j + 1], f)
  {
    var r' := Put(r, ks[j], f(ks[j]));
    assert ks[..j + 1] == ks[..j] + [ks[j]];
    assert r'.Valid() && r'.keys == Dedup(ks[..j + 1]) by {
      PutKeys(r, ks[..j], ks[j], f(ks[j]));
    }
    assert forall k :: k in r'.entries <==> k in ks[..j + 1] by {
      forall k ensures k in r'.entries <==> k in ks[..j + 1] {
        assert k in ks[..j + 1] <==> k in ks[..j] || k == ks[j];
      }
    }
    assert forall k :: k in r'.entries ==> r'.entries[k] == f(k) by {
      forall k | k in r'.entries ensures r'.entries[k] == f(k) {
        if k != ks[j] {
          assert k in r.entries;
        }
      }
    }
  }

  /** Filtering a concatenation filters each part. */
  lemma {:induction false} LinesWithAppend(a: seq<Order>, b: seq<Order>, key: Order -> string, k: string)
    ensures LinesWith(a + b, key, k) == LinesWith(a, key, k) + LinesWith(b, key, k)
  {
    if |b| == 0 {
      assert a + b == a;
    } else {
      var b' := b[..|b| - 1];
      var x := b[|b| - 1];
      assert a + b == (a + b') + [x];
      assert b == b' + [x];
      LinesWithAppend(a, b', key, k);
      LinesWithSnoc(a + b', key, x, k);
      LinesWithSnoc(b', key, x, k);
    }
  }

  /** Lines that all share key `k0` are all of `k0`'s lines and none of any other key's. */
  lemma {:induction false} LinesWithUniform(b: seq<Order>, key: Order -> string, k0: string, k: string)
    requires forall i :: 0 <= i < |b| ==> key(b[i]) == k0
    ensures LinesWith(b, key, k) == if k == k0 then b else []
  {
    if |b| > 0 {
      LinesWithUniform(b[..|b| - 1], key, k0, k);
      assert b == b[..|b| - 1] + [b[|b| - 1]];
    }
  }

  /** When no line carries key `k`, none is selected. */
  lemma {:induction false} LinesWithNone(data: seq<Order>, key: Order -> string, k: string)
    requires forall i :: 0 <= i < |data| ==> key(data[i]) != k
    ensures LinesWith(data, key, k) == []
  {
    if |data| > 0 {
      LinesWithNone(data[..|data| - 1], key, k);
    }
  }

  /** When no other line shares the key of line `j`, the lines with that
      key are line `j` alone. */
  lemma {:induction false} LinesWithUnique(data: seq<Order>, key: Order -> string, j: int)
    requires 0 <= j < |data|
    requires forall i :: 0 <= i < |data| && i != j ==> key(data[i]) != key(data[j])
    ensures LinesWith(data, key, key(data[j])) == [data[j]]
  {
    var prefix := data[..|data| - 1];
    if j == |data| - 1 {
      LinesWithNone(prefix, key, key(data[j]));
    } else {
      assert prefix[j] == data[j];
      LinesWithUnique(prefix, key, j);
    }
  }

  /** A list without repeats is its own `Dedup`. */
  lemma {:induction false} DedupNoDups<T>(xs: seq<T>)
    requires NoDups(xs)
    ensures Dedup(xs) == xs
  {
    if |xs| > 0 {
      var p := xs[..|xs| - 1];
      assert NoDups(p);
      DedupNoDups(p);
      assert xs[|xs| - 1] !in p by {
        forall i | 0 <= i < |p| ensures p[i] != xs[|xs| - 1] {
          assert xs[i] != xs[|xs| - 1];
        }
      }
      assert xs == p + [xs[|xs| - 1]];
    }
  }

  /** Every line among the lines of key `k` is a line of `data` carrying `k`. */
  lemma {:induction false} LinesWithKey(data: seq<Order>, key: Order -> string, k: string)
    ensures forall o :: o in LinesWith(data, key, k) ==> o in data && key(o) == k
  {
    if |data| > 0 {
      var p := data[..|data| - 1];
      LinesWithKey(p, key, k);
      assert forall o :: o in p ==> o in data;
    }
  }

  /** Filtering by two keys gives the same lines in either order. */
  lemma {:induction false} LinesWithCommute(data: seq<Order>, key1: Order -> string, k1: string,
                                            key2: Order -> string, k2: string)
    ensures LinesWith(LinesWith(data, key1, k1), key2, k2) == LinesWith(LinesWith(data, key2, k2), key1, k1)
  {
    if |data| > 0 {
      var p := data[..|data| - 1];
      var x := data[|data| - 1];
      LinesWithCommute(p, key1, k1, key2, k2);
      var a := LinesWith(p, key1, k1);
      var b := LinesWith(p, key2, k2);
      if key1(x) == k1 {
        LinesWithSnoc(a, key2, x, k2);
      } else {
        assert LinesWith(data, key1, k1) == a;
      }
      if key2(x) == k2 {
        LinesWithSnoc(b, key1, x, k1);
      } else {
        assert LinesWith(data, key2, k2) == b;
      }
    }
  }

  /** `set.add(x)` on a JavaScript Set read in insertion order: a new
      element goes last, a present one changes nothing. */
  function AddKey<T(==)>(s: seq<T>, x: T): seq<T> {
    if x in s then s else s + [x]
  }

  /** Adding elements one by one in order yields their `Dedup`. */
  lemma DedupSnoc<T>(xs: seq<T>, x: T)
    ensures Dedup(xs + [x]) == AddKey(Dedup(xs), x)
  {
    assert (xs + [x])[..|xs|] == xs;
  }

  /** The lines `keep` accepts, in input order (`data.filter(keep)`). */
  function Select(data: seq<Order>, keep: Order -> bool): seq<Order> {
    if |data| == 0 then []
    else
      var last := data[|data| - 1];
      Select(data[..|data| - 1], keep) + (if keep(last) then [last] else [])
  }

  /** A line is selected iff it is in the input and accepted. */
  lemma {:induction false} SelectHas(data: seq<Order>, keep: Order -> bool, o: Order)
    ensures o in Select(data, keep) <==> o in data && keep(o)
  {
    if |data| > 0 {
      var p := data[..|data| - 1];
      SelectHas(p, keep, o);
      assert data == p + [data[|data| - 1]];
    }
  }

  /** Selecting from a concatenation selects from each part in turn; a
      selection is never longer than its input. */
  lemma {:induction false} SelectAppend(a: seq<Order>, b: seq<Order>, keep: Order -> bool)
    ensures Select(a + b, keep) == Select(a, keep) + Select(b, keep)
    ensures |Select(a, keep)| <= |a|
  {
    if |b| == 0 {
      assert a + b == a;
      SelectLength(a, keep);
    } else {
      var b' := b[..|b| - 1];
      SelectAppend(a, b', keep);
      assert (a + b)[..|a + b| - 1] == a + b';
    }
  }

  lemma {:induction false} SelectLength(data: seq<Order>, keep: Order -> bool)
    ensures |Select(data, keep)| <= |data|
  {
    if |data| > 0 {
      SelectLength(data[..|data| - 1], keep);
    }
  }

  /** Nothing is selected when nothing is accepted. */
  lemma {:induction false} SelectNone(data: seq<Order>, keep: Order -> bool)
    requires forall o :: !keep(o)
    ensures Select(data, keep) == []
  {
    if |data| > 0 {
      SelectNone(data[..|data| - 1], keep);
    }
  }

  /** The keys of the lines that have one, in input order. */
  function PresentKeys(data: seq<Order>, key: Order -> Option<string>): seq<string> {
    if |data| == 0 then []
    else
      PresentKeys(data[..|data| - 1], key)
        + match key(data[|data| - 1])
          case Some(k) => [k]
          case None => []
  }

  /** One more line adds its key, if it has one. */
  lemma PresentKeysStep(data: seq<Order>, i: nat, key: Order -> Option<string>)
    requires i < |data|
    ensures PresentKeys(data[..i + 1], key)
            == PresentKeys(data[..i], key) + match key(data[i])
                                              case Some(k) => [k]
                                              case None => []
  {
    assert data[..i + 1][..i] == data[..i];
  }

  /** A key is present iff some line has it. */
  lemma {:induction false} PresentKeysHas(data: seq<Order>, key: Order -> Option<string>, k: string)
    ensures k in PresentKeys(data, key) <==> exists i :: 0 <= i < |data| && key(data[i]) == Some(k)
  {
    if |data| > 0 {
      var p := data[..|data| - 1];
      PresentKeysHas(p, key, k);
      if i :| 0 <= i < |p| && key(p[i]) == Some(k) {
        assert key(data[i]) == Some(k);
      }
      if i :| 0 <= i < |data| && key(data[i]) == Some(k) {
        if i < |p| {
          assert key(p[i]) == Some(k);
        }
      }
    }
  }
}
