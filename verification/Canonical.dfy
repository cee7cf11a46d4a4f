/** The canonical form of JSON payloads behind the payload hash. */
module Canonical {
  import opened Types

  /** An object is its entries in the order `Object.entries` lists them. */
  datatype Json = Null | Bool(b: bool) | Num(n: real) | Str(s: string) | Arr(items: seq<Json>) | Obj(fields: seq<Field>)

  datatype Field = Field(key: string, value: Json)

  /** `le(a, b)`: key `a` compares less than or equal to key `b`. */
  type Order = (string, string) -> bool

  ghost predicate Ordering(le: Order) {
    && (forall a, b :: le(a, b) || le(b, a))
    && (forall a, b, c :: le(a, b) && le(b, c) ==> le(a, c))
  }

  ghost predicate NoTies(le: Order) {
    forall a, b :: le(a, b) && le(b, a) ==> a == b
  }

  // ---------- canonicalize ----------

  /** Insertion behind all entries whose key is not greater. */
  function Insert(le: Order, s: seq<Field>, x: Field): (r: seq<Field>)
    ensures |r| == |s| + 1 && forall f :: f in r <==> f in s || f == x
  {
    if s == [] then [x]
    else
      var n := |s| - 1;
      assert s == s[..n] + [s[n]];
      if le(s[n].key, x.key) then s + [x] else Insert(le, s[..n], x) + [s[n]]
  }

  /** The stable sort of the entries by key. */
  function Sort(le: Order, s: seq<Field>): (r: seq<Field>)
    ensures |r| == |s| && forall f :: f in r <==> f in s
  {
    if s == [] then []
    else
      var n := |s| - 1;
      assert s == s[..n] + [s[n]];
      Insert(le, Sort(le, s[..n]), s[n])
  }

  function Canon(le: Order, v: Json): Json {
    match v
    case Arr(items) => Arr(seq(|items|, i requires 0 <= i < |items| => Canon(le, items[i])))
    case Obj(fields) =>
      var sorted := Sort(le, fields);
      Obj(seq(|sorted|, i requires 0 <= i < |sorted| =>
        assert sorted[i] in fields;
        Field(sorted[i].key, Canon(le, sorted[i].value))))
    case _ => v
  }

  // ---------- Equality up to key order ----------

  predicate DistinctKeys(s: seq<Field>) {
    forall i, j :: 0 <= i < j < |s| ==> s[i].key != s[j].key
  }

  /** JSON values as they exist in memory: no object has a key twice. */
  ghost predicate WellFormed(v: Json) {
    match v
    case Arr(items) => forall i :: 0 <= i < |items| ==> WellFormed(items[i])
    case Obj(fields) => DistinctKeys(fields) && forall i :: 0 <= i < |fields| ==> WellFormed(fields[i].value)
    case _ => true
  }

  /** Equal except for the order of entries, at every depth. */
  ghost predicate Equivalent(a: Json, b: Json) {
    match (a, b)
    case (Arr(x), Arr(y)) => |x| == |y| && forall i :: 0 <= i < |x| ==> Equivalent(x[i], y[i])
    case (Obj(f), Obj(g)) =>
      |f| == |g| && forall i :: 0 <= i < |f| ==>
        exists j :: 0 <= j < |g| && f[i].key == g[j].key && Equivalent(f[i].value, g[j].value)
    case _ => a == b
  }

  // ---------- Sorting ----------

  ghost predicate Sorted(le: Order, s: seq<Field>) {
    forall i, j :: 0 <= i < j < |s| ==> le(s[i].key, s[j].key)
  }

  lemma {:induction false} InsertSorted(le: Order, s: seq<Field>, x: Field)
    requires Ordering(le) && Sorted(le, s)
    ensures Sorted(le, Insert(le, s, x))
  {
    if s != [] {
      var n := |s| - 1;
      if !le(s[n].key, x.key) {
        InsertSorted(le, s[..n], x);
        var r := Insert(le, s[..n], x);
        forall i | 0 <= i < |r| ensures le(r[i].key, s[n].key) { assert r[i] in s[..n] || r[i] == x; }
      }
    }
  }

  lemma {:induction false} SortSorted(le: Order, s: seq<Field>)
    requires Ordering(le)
    ensures Sorted(le, Sort(le, s))
  {
    if s != [] {
      SortSorted(le, s[..|s| - 1]);
      InsertSorted(le, Sort(le, s[..|s| - 1]), s[|s| - 1]);
    }
  }

  /** A sorted sequence is left as it is, ties included. */
  lemma {:induction false} SortKeepsSorted(le: Order, s: seq<Field>)
    requires Sorted(le, s)
    ensures Sort(le, s) == s
  {
    if s != [] {
      var n := |s| - 1;
      SortKeepsSorted(le, s[..n]);
      assert s == s[..n] + [s[n]];
      if n > 0 { assert le(s[n - 1].key, s[n].key); }
    }
  }

  lemma {:induction false} InsertDistinct(le: Order, s: seq<Field>, x: Field)
    requires DistinctKeys(s) && forall i :: 0 <= i < |s| ==> s[i].key != x.key
    ensures DistinctKeys(Insert(le, s, x))
  {
    if s != [] {
      var n := |s| - 1;
      if !le(s[n].key, x.key) {
        InsertDistinct(le, s[..n], x);
        var r := Insert(le, s[..n], x);
        forall i | 0 <= i < |r| ensures r[i].key != s[n].key { assert r[i] in s[..n] || r[i] == x; }
      }
    }
  }

  lemma {:induction false} SortDistinct(le: Order, s: seq<Field>)
    requires DistinctKeys(s)
    ensures DistinctKeys(Sort(le, s))
  {
    if s != [] {
      var n := |s| - 1;
      SortDistinct(le, s[..n]);
      var r := Sort(le, s[..n]);
      forall i | 0 <= i < |r| ensures r[i].key != s[n].key { assert r[i] in s[..n]; }
      InsertDistinct(le, r, s[n]);
    }
  }

  predicate HasKey(s: seq<Field>, k: string) {
    exists i :: 0 <= i < |s| && s[i].key == k
  }

  lemma FirstPart(le: Order, s: seq<Field>)
    requires Sorted(le, s) && DistinctKeys(s) && s != []
    ensures Sorted(le, s[..|s| - 1]) && DistinctKeys(s[..|s| - 1])
  {}

  lemma KeysWithoutLast(f: seq<Field>, g: seq<Field>, i: nat)
    requires DistinctKeys(f) && |f| == |g| && i < |f| - 1 && f[|f| - 1].key == g[|g| - 1].key
    requires HasKey(g, f[i].key)
    ensures HasKey(g[..|g| - 1], f[..|f| - 1][i].key)
  {
    var j :| 0 <= j < |g| && g[j].key == f[i].key;
    assert g[..|g| - 1][j].key == f[i].key;
  }

  /** Two sorted sequences with the same distinct keys list them in the same order, when the order has no ties. */
  lemma {:induction false} SameKeyOrder(le: Order, f: seq<Field>, g: seq<Field>)
    requires Ordering(le) && NoTies(le) && Sorted(le, f) && Sorted(le, g) && DistinctKeys(f) && DistinctKeys(g)
    requires |f| == |g| && forall i :: 0 <= i < |f| ==> HasKey(g, f[i].key)
    ensures forall i :: 0 <= i < |f| ==> f[i].key == g[i].key
  {
    hide Ordering, NoTies, Sorted, DistinctKeys, HasKey;
    if f != [] {
      var n := |f| - 1;
      LastKey(le, f, g);
      FirstPart(le, f);
      FirstPart(le, g);
      forall i | 0 <= i < n ensures HasKey(g[..n], f[..n][i].key) { KeysWithoutLast(f, g, i); }
      SameKeyOrder(le, f[..n], g[..n]);
      forall i | 0 <= i < n ensures f[i].key == g[i].key { assert f[..n][i].key == g[..n][i].key; }
    }
  }

  /** By counting: the greatest key of `g` is a key of `f`, so it is the greatest key of `f`. */
  lemma LastKey(le: Order, f: seq<Field>, g: seq<Field>)
    requires Ordering(le) && NoTies(le) && Sorted(le, f) && Sorted(le, g) && DistinctKeys(f) && DistinctKeys(g)
    requires |f| == |g| > 0 && forall i :: 0 <= i < |f| ==> HasKey(g, f[i].key)
    ensures f[|f| - 1].key == g[|g| - 1].key
  {
    var n := |f| - 1;
    Covering(f, g, n);
    var i :| 0 <= i < |f| && f[i].key == g[n].key;
    var j :| 0 <= j < |g| && g[j].key == f[n].key;
  }

  /** Keys of `f` are keys of `g` and there are as many, so every key of `g` is a key of `f`. */
  lemma Covering(f: seq<Field>, g: seq<Field>, m: nat)
    requires DistinctKeys(f) && DistinctKeys(g) && |f| == |g| && m < |g|
    requires forall i :: 0 <= i < |f| ==> HasKey(g, f[i].key)
    ensures HasKey(f, g[m].key)
  {
    if !HasKey(f, g[m].key) {
      var rest := g[..m] + g[m + 1..];
      forall i | 0 <= i < |f| ensures HasKey(rest, f[i].key) {
        var j :| 0 <= j < |g| && g[j].key == f[i].key;
        assert rest[if j < m then j else j - 1].key == f[i].key;
      }
      TooMany(f, rest);
    }
  }

  lemma {:induction false} TooMany(f: seq<Field>, g: seq<Field>)
    requires DistinctKeys(f) && forall i :: 0 <= i < |f| ==> HasKey(g, f[i].key)
    ensures |f| <= |g|
  {
    if f != [] {
      var n := |f| - 1;
      assert HasKey(g, f[n].key);
      var m :| 0 <= m < |g| && g[m].key == f[n].key;
      var rest := g[..m] + g[m + 1..];
      forall i | 0 <= i < n ensures HasKey(rest, f[..n][i].key) {
        var j :| 0 <= j < |g| && g[j].key == f[i].key;
        assert rest[if j < m then j else j - 1].key == f[i].key;
      }
      TooMany(f[..n], rest);
    }
  }

  // ---------- Theorems ----------

  /** The entries of a canonical object: sorted by key, each value canonical. */
  lemma CanonObject(le: Order, fields: seq<Field>)
    ensures var s, c := Sort(le, fields), Canon(le, Obj(fields)).fields;
            |c| == |s| == |fields| && forall i :: 0 <= i < |s| ==> c[i] == Field(s[i].key, Canon(le, s[i].value))
  {
  }

  /** Canonicalizing twice changes nothing, for every ordering of the keys. */
  lemma {:induction false} CanonIdempotent(le: Order, v: Json)
    requires Ordering(le)
    ensures Canon(le, Canon(le, v)) == Canon(le, v)
    decreases v
  {
    match v
    case Arr(items) =>
      forall i | 0 <= i < |items| ensures Canon(le, Canon(le, items[i])) == Canon(le, items[i]) {
        CanonIdempotent(le, items[i]);
      }
    case Obj(fields) =>
      var s := Sort(le, fields);
      var c := Canon(le, v).fields;
      CanonObject(le, fields);
      SortSorted(le, fields);
      SortKeepsSorted(le, c);
      CanonObject(le, c);
      forall i | 0 <= i < |s| ensures Canon(le, Canon(le, s[i].value)) == Canon(le, s[i].value) {
        assert s[i] in fields;
        CanonIdempotent(le, s[i].value);
      }
      assert Canon(le, Obj(c)).fields == c;
    case _ =>
  }

  /** The entry of `g` that matches entry `x` of an equivalent object. */
  ghost predicate Matches(x: Field, g: seq<Field>, j: int) {
    0 <= j < |g| && x.key == g[j].key && Equivalent(x.value, g[j].value)
  }

  lemma EntriesMatch(f: seq<Field>, g: seq<Field>, x: Field) returns (j: int)
    requires Equivalent(Obj(f), Obj(g)) && x in f
    ensures Matches(x, g, j)
  {
    var i :| 0 <= i < |f| && f[i] == x;
    j :| 0 <= j < |g| && f[i].key == g[j].key && Equivalent(f[i].value, g[j].value);
  }

  lemma SameKey(s: seq<Field>, x: Field, y: Field)
    requires DistinctKeys(s) && x in s && y in s && x.key == y.key
    ensures x == y
  {
    var i :| 0 <= i < |s| && s[i] == x;
    var j :| 0 <= j < |s| && s[j] == y;
  }

  /** Equivalent objects list their entries in step once sorted. */
  lemma SortedInStep(le: Order, f: seq<Field>, g: seq<Field>)
    requires Ordering(le) && NoTies(le) && WellFormed(Obj(f)) && WellFormed(Obj(g)) && Equivalent(Obj(f), Obj(g))
    ensures var s, t := Sort(le, f), Sort(le, g);
            |s| == |t| && forall i :: 0 <= i < |s| ==> s[i].key == t[i].key && Equivalent(s[i].value, t[i].value)
  {
    var s, t := Sort(le, f), Sort(le, g);
    SortSorted(le, f); SortSorted(le, g);
    SortDistinct(le, f); SortDistinct(le, g);
    forall i | 0 <= i < |s| ensures HasKey(t, s[i].key) {
      assert s[i] in f;
      var j := EntriesMatch(f, g, s[i]);
      assert g[j] in t;
      var m :| 0 <= m < |t| && t[m] == g[j];
    }
    SameKeyOrder(le, s, t);
    forall i | 0 <= i < |s| ensures Equivalent(s[i].value, t[i].value) {
      assert s[i] in f && t[i] in g;
      var j := EntriesMatch(f, g, s[i]);
      assert g[j] in g;
      SameKey(g, g[j], t[i]);
    }
  }

  lemma {:induction false} EquivalentCanon(le: Order, a: Json, b: Json)
    requires Ordering(le) && NoTies(le) && WellFormed(a) && WellFormed(b) && Equivalent(a, b)
    ensures Canon(le, a) == Canon(le, b)
    decreases a
  {
    match (a, b)
    case (Arr(x), Arr(y)) =>
      forall i | 0 <= i < |x| ensures Canon(le, x[i]) == Canon(le, y[i]) { EquivalentCanon(le, x[i], y[i]); }
    case (Obj(f), Obj(g)) =>
      SortedInStep(le, f, g);
      CanonObject(le, f);
      CanonObject(le, g);
      var s, t := Sort(le, f), Sort(le, g);
      forall i | 0 <= i < |s| ensures Canon(le, s[i].value) == Canon(le, t[i].value) {
        assert s[i] in f && t[i] in g;
        EquivalentCanon(le, s[i].value, t[i].value);
      }
      assert Canon(le, a).fields == Canon(le, b).fields;
    case _ =>
  }

  lemma {:induction false} CanonEquivalent(le: Order, a: Json, b: Json)
    requires Canon(le, a) == Canon(le, b)
    ensures Equivalent(a, b)
    decreases a
  {
    match (a, b)
    case (Arr(x), Arr(y)) =>
      assert |x| == |Canon(le, a).items| == |y|;
      forall i | 0 <= i < |x| ensures Equivalent(x[i], y[i]) {
        assert Canon(le, a).items[i] == Canon(le, x[i]) && Canon(le, b).items[i] == Canon(le, y[i]);
        CanonEquivalent(le, x[i], y[i]);
      }
    case (Obj(f), Obj(g)) =>
      CanonObject(le, f);
      CanonObject(le, g);
      hide Sort;
      var s, t := Sort(le, f), Sort(le, g);
      forall i | 0 <= i < |f| ensures exists j :: 0 <= j < |g| && f[i].key == g[j].key && Equivalent(f[i].value, g[j].value) {
        assert f[i] in s;
        var m :| 0 <= m < |s| && s[m] == f[i];
        assert Canon(le, a).fields[m] == Canon(le, b).fields[m];
        CanonEquivalent(le, f[i].value, t[m].value);
        assert t[m] in g;
        var j :| 0 <= j < |g| && g[j] == t[m];
      }
    case _ =>
  }

  /** Two payloads have the same canonical form if and only if they are equal up to key order at every depth. */
  lemma CanonicalForm(le: Order, a: Json, b: Json)
    requires Ordering(le) && NoTies(le) && WellFormed(a) && WellFormed(b)
    ensures Canon(le, a) == Canon(le, b) <==> Equivalent(a, b)
  {
    if Canon(le, a) == Canon(le, b) { CanonEquivalent(le, a, b); }
    if Equivalent(a, b) { EquivalentCanon(le, a, b); }
  }

  /** Without the no-ties condition it fails: any two different keys that compare equal keep the order they came in,
      so the two orders of the same object have different canonical forms. */
  lemma TiesKeepOrder(le: Order, k: string, l: string)
    requires Ordering(le) && k != l && le(k, l) && le(l, k)
    ensures var a, b := Obj([Field(k, Null), Field(l, Null)]), Obj([Field(l, Null), Field(k, Null)]);
            WellFormed(a) && WellFormed(b) && Equivalent(a, b) && Canon(le, a) != Canon(le, b)
  {
    var x, y := Field(k, Null), Field(l, Null);
    var f, g := [x, y], [y, x];
    SortKeepsSorted(le, f);
    SortKeepsSorted(le, g);
    CanonObject(le, f);
    CanonObject(le, g);
    hide Ordering, Sort, Sorted;
    assert Canon(le, Obj(f)).fields[0].key == k && Canon(le, Obj(g)).fields[0].key == l;
    assert Matches(x, g, 1) && Matches(y, g, 0);
  }

  /** The canonical form is a function of the value up to key order exactly when the key order has no ties. */
  lemma CanonicalExactly(le: Order)
    requires Ordering(le)
    ensures NoTies(le) <==>
              forall a, b :: WellFormed(a) && WellFormed(b) && Equivalent(a, b) ==> Canon(le, a) == Canon(le, b)
  {
    if NoTies(le) {
      forall a, b | WellFormed(a) && WellFormed(b) && Equivalent(a, b) ensures Canon(le, a) == Canon(le, b) {
        EquivalentCanon(le, a, b);
      }
    } else {
      var k, l :| le(k, l) && le(l, k) && k != l;
      TiesKeepOrder(le, k, l);
    }
  }

  /** With a serialisation and hash that do not collide, two published payloads get the same hash if and only if they
      are equal up to key order. */
  lemma PayloadHashAgrees(le: Order, digest: Json -> string, a: Json, b: Json)
    requires Ordering(le) && NoTies(le) && WellFormed(a) && WellFormed(b)
    requires forall x, y :: digest(x) == digest(y) ==> x == y
    ensures digest(Canon(le, a)) == digest(Canon(le, b)) <==> Equivalent(a, b)
  {
    CanonicalForm(le, a, b);
  }
}
