/** The in-memory document a YAML loader produces for a tutorial description:
    strings, integers, booleans, lists and mappings, each tagged with its
    Python type. A mapping is an association list in insertion order, as a
    Python dict iterates. This module also fixes the few Python operators the
    compiler applies to such values: `==`, `in`, iteration and `len`. */
module Values {

  datatype Option<+T> = None | Some(value: T)

  /** The Python type of a value, as `type(v)` reports it (`bool` is its own type). */
  datatype Kind = KStr | KInt | KBool | KList | KDict

  datatype Value =
    | Str(s: string)
    | Int(i: int)
    | Bool(b: bool)
    | List(items: seq<Value>)
    | Dict(entries: seq<Entry>)

  /** One key/value pair of a mapping. */
  datatype Entry = Entry(key: string, val: Value)

  function KindOf(v: Value): Kind {
    match v
    case Str(_) => KStr
    case Int(_) => KInt
    case Bool(_) => KBool
    case List(_) => KList
    case Dict(_) => KDict
  }

  // ----- mappings -----

  /** `k in d` for a dict `d`. */
  predicate HasKey(d: seq<Entry>, k: string) {
    d != [] && (d[0].key == k || HasKey(d[1..], k))
  }

  lemma {:induction false} HasKeyAt(d: seq<Entry>, j: nat)
    requires j < |d|
    ensures HasKey(d, d[j].key)
  {
    if j > 0 {
      assert d[1..][j - 1] == d[j];
      HasKeyAt(d[1..], j - 1);
    }
  }

  /** A key some entry carries. */
  lemma {:induction false} HasKeyWitness(d: seq<Entry>, k: string) returns (j: nat)
    requires HasKey(d, k)
    ensures j < |d| && d[j].key == k
  {
    if d[0].key == k {
      j := 0;
    } else {
      var m := HasKeyWitness(d[1..], k);
      j := m + 1;
    }
  }

  /** `d.get(k)`: the value stored under the first occurrence of `k`. */
  function Lookup(d: seq<Entry>, k: string): (r: Option<Value>)
    ensures r.Some? <==> HasKey(d, k)
  {
    if d == [] then None
    else if d[0].key == k then Some(d[0].val)
    else Lookup(d[1..], k)
  }

  /** `d[k]` for a key that is present. */
  function Get(d: seq<Entry>, k: string): Value
    requires HasKey(d, k)
  {
    Lookup(d, k).value
  }

  /** A Python dict never holds a key twice. */
  predicate DistinctKeys(d: seq<Entry>) {
    d == [] || (!HasKey(d[1..], d[0].key) && DistinctKeys(d[1..]))
  }

  /** In a dict with distinct keys, two entries with one key are one entry. */
  lemma {:induction false} DistinctKeysAt(d: seq<Entry>, i: nat, j: nat)
    requires DistinctKeys(d) && i < |d| && j < |d| && d[i].key == d[j].key
    ensures i == j
  {
    if i > 0 && j > 0 {
      assert d[1..][i - 1] == d[i] && d[1..][j - 1] == d[j];
      DistinctKeysAt(d[1..], i - 1, j - 1);
    } else if i > 0 {
      assert d[1..][i - 1] == d[i];
      HasKeyAt(d[1..], i - 1);
    } else if j > 0 {
      assert d[1..][j - 1] == d[j];
      HasKeyAt(d[1..], j - 1);
    }
  }

  /** In a dict with distinct keys, the entry at position `j` is what its key looks up. */
  lemma {:induction false} LookupAt(d: seq<Entry>, j: nat)
    requires DistinctKeys(d) && j < |d|
    ensures Lookup(d, d[j].key) == Some(d[j].val)
  {
    if j > 0 {
      assert d[1..][j - 1] == d[j];
      HasKeyAt(d[1..], j - 1);
      LookupAt(d[1..], j - 1);
    }
  }

  /** `d[k] = v`: an existing key keeps its place and takes the new value,
      a new key is appended. */
  method Put(d: seq<Entry>, k: string, v: Value) returns (r: seq<Entry>)
    ensures Lookup(r, k) == Some(v)
    ensures forall k' :: k' != k ==> Lookup(r, k') == Lookup(d, k')
    ensures DistinctKeys(d) ==> DistinctKeys(r)
    decreases |d|
  {
    if d == [] {
      r := [Entry(k, v)];
    } else if d[0].key == k {
      r := [Entry(k, v)] + d[1..];
    } else {
      var rest := Put(d[1..], k, v);
      assert ([d[0]] + rest)[1..] == rest;
      assert Lookup(rest, d[0].key) == Lookup(d[1..], d[0].key);
      r := [d[0]] + rest;
    }
  }

  /** `d.pop(k)` for a key that is present (a missing key raises `KeyError`):
      no entry for `k` is left. */
  method Pop(d: seq<Entry>, k: string) returns (r: seq<Entry>)
    requires HasKey(d, k)
    ensures Lookup(r, k) == None
    ensures forall k' :: k' != k ==> Lookup(r, k') == Lookup(d, k')
    ensures DistinctKeys(d) ==> DistinctKeys(r)
    decreases |d|
  {
    if d[0].key == k {
      if HasKey(d[1..], k) {
        r := Pop(d[1..], k);
      } else {
        r := d[1..];
      }
    } else {
      var rest := Pop(d[1..], k);
      assert ([d[0]] + rest)[1..] == rest;
      assert Lookup(rest, d[0].key) == Lookup(d[1..], d[0].key);
      r := [d[0]] + rest;
    }
  }

  // ----- Python operators -----

  function BoolToInt(b: bool): int {
    if b then 1 else 0
  }

  /** `a == b`: `True == 1` and `False == 0` hold in Python; otherwise values
      are equal when they are the same value. */
  predicate Eq(a: Value, b: Value): (r: bool)
    ensures a == b ==> r
    ensures r && KindOf(a) == KindOf(b) ==> a == b
    ensures a.Int? && b.Bool? ==> (r <==> a.i == BoolToInt(b.b))
    ensures a.Bool? && b.Int? ==> (r <==> b.i == BoolToInt(a.b))
    ensures r && KindOf(a) != KindOf(b) ==> (a.Int? && b.Bool?) || (a.Bool? && b.Int?)
  {
    if a.Int? && b.Bool? then a.i == BoolToInt(b.b)
    else if a.Bool? && b.Int? then BoolToInt(a.b) == b.i
    else a == b
  }

  /** `p in s` for two strings: `p` occurs in `s` as a substring. */
  predicate IsSubstring(p: string, s: string)
    decreases |s|
  {
    p <= s || (s != [] && IsSubstring(p, s[1..]))
  }

  /** `p` occurs in `s` starting at position `i`. */
  predicate OccursAt(p: string, s: string, i: nat) {
    i + |p| <= |s| && s[i..i + |p|] == p
  }

  /** Substring search agrees with "`p` occurs in `s` at some position". */
  lemma {:induction false} SubstringAt(p: string, s: string)
    ensures IsSubstring(p, s) <==> exists i: nat :: OccursAt(p, s, i)
    decreases |s|
  {
    if p <= s {
      assert OccursAt(p, s, 0);
    } else if s != [] {
      SubstringAt(p, s[1..]);
      if IsSubstring(p, s[1..]) {
        var i: nat :| OccursAt(p, s[1..], i);
        assert s[i + 1..i + 1 + |p|] == s[1..][i..i + |p|];
        assert OccursAt(p, s, i + 1);
      }
      if i: nat :| OccursAt(p, s, i) && i > 0 {
        assert s[1..][i - 1..i - 1 + |p|] == s[i..i + |p|];
        assert OccursAt(p, s[1..], i - 1);
      }
    }
  }

  /** The values on which `in`, `len` and `for` are defined. */
  predicate IsContainer(c: Value) {
    c.Str? || c.List? || c.Dict?
  }

  /** `x in c` does not raise: a dict needs a hashable `x`, a string a string `x`. */
  predicate InDefined(x: Value, c: Value) {
    c.List? || (c.Dict? && (x.Str? || x.Int? || x.Bool?)) || (c.Str? && x.Str?)
  }

  /** `x in c`: list membership by `==`, dict key membership, substring. */
  predicate Contains(x: Value, c: Value): (r: bool)
    requires InDefined(x, c)
    ensures c.Dict? ==> (r <==> x.Str? && Lookup(c.entries, x.s).Some?)
    ensures c.Str? ==> (r <==> exists i: nat :: OccursAt(x.s, c.s, i))
  {
    if c.List? then exists j :: 0 <= j < |c.items| && Eq(c.items[j], x)
    else if c.Dict? then x.Str? && HasKey(c.entries, x.s)
    else SubstringAt(x.s, c.s); IsSubstring(x.s, c.s)
  }

  /** What `for x in c` visits: the items of a list, the keys of a dict, the
      one-character strings of a string. */
  function Iter(c: Value): (r: seq<Value>)
    requires IsContainer(c)
    ensures c.List? ==> r == c.items
    ensures c.Dict? ==> |r| == |c.entries|
    ensures c.Str? ==> |r| == |c.s|
  {
    if c.List? then c.items
    else if c.Dict? then seq(|c.entries|, j requires 0 <= j < |c.entries| => Str(c.entries[j].key))
    else seq(|c.s|, j requires 0 <= j < |c.s| => Str([c.s[j]]))
  }

  /** Whatever `for x in c` visits is `in` `c`; over a dict, `for` visits
      exactly the keys `in` it. */
  lemma IterContained(c: Value)
    requires IsContainer(c)
    ensures forall j :: 0 <= j < |Iter(c)| ==> InDefined(Iter(c)[j], c) && Contains(Iter(c)[j], c)
    ensures c.Dict? ==> forall k :: Str(k) in Iter(c) <==> HasKey(c.entries, k)
  {
    if c.Dict? {
      forall k
        ensures Str(k) in Iter(c) <==> HasKey(c.entries, k)
      {
        if Str(k) in Iter(c) {
          var j :| 0 <= j < |Iter(c)| && Iter(c)[j] == Str(k);
          HasKeyAt(c.entries, j);
        }
        if HasKey(c.entries, k) {
          var j := HasKeyWitness(c.entries, k);
          assert Iter(c)[j] == Str(k);
        }
      }
    }
    forall j | 0 <= j < |Iter(c)|
      ensures InDefined(Iter(c)[j], c) && Contains(Iter(c)[j], c)
    {
      if c.List? {
        assert Eq(c.items[j], Iter(c)[j]);
      } else if c.Dict? {
        HasKeyAt(c.entries, j);
      } else {
        assert OccursAt(Iter(c)[j].s, c.s, j);
      }
    }
  }
}
