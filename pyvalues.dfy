/**
 * The decoded API document: JSON-like values whose objects are
 * insertion-ordered dictionaries, an object being a sequence of
 * (key, value) entries.  `Get` looks a key up, `Put` is `d[key] = v`
 * (overwrite in place, or append a new key at the end), and `Truthy` is
 * Python's truth test.
 */
module PyValues {
  import opened Wrappers

  datatype Value =
    | Null
    | Bool(b: bool)
    | Num(x: real)
    | Str(s: string)
    | List(items: seq<Value>)
    | Dict(entries: seq<(string, Value)>)

  type Entries = seq<(string, Value)>

  /** The keys of a dictionary, in insertion order. */
  function Keys(es: Entries): (ks: seq<string>)
    ensures |ks| == |es|
  {
    if es == [] then [] else [es[0].0] + Keys(es[1..])
  }

  /** The `i`-th key is the key of the `i`-th entry. */
  lemma {:induction false} KeysAt(es: Entries, i: nat)
    requires i < |es|
    ensures Keys(es)[i] == es[i].0
  {
    if i > 0 {
      KeysAt(es[1..], i - 1);
    }
  }

  /** No key occurs twice, as in every Python dictionary. */
  predicate UniqueKeys(es: Entries)
  {
    forall i, j :: 0 <= i < j < |es| ==> es[i].0 != es[j].0
  }

  /** `d.get(key)`: the value of the first entry with that key. */
  function Get(es: Entries, key: string): Option<Value>
  {
    if es == [] then None
    else if es[0].0 == key then Some(es[0].1)
    else Get(es[1..], key)
  }

  /** `d[key] = v`: an existing key keeps its position, a new key goes last. */
  function Put(es: Entries, key: string, v: Value): Entries
  {
    if es == [] then [(key, v)]
    else if es[0].0 == key then [(key, v)] + es[1..]
    else [es[0]] + Put(es[1..], key, v)
  }

  /** A key has a value exactly when it is one of the keys. */
  lemma {:induction false} GetSome(es: Entries, key: string)
    ensures Get(es, key).Some? <==> key in Keys(es)
  {
    if es != [] {
      GetSome(es[1..], key);
      assert Keys(es) == [es[0].0] + Keys(es[1..]);
    }
  }

  /** After `d[key] = v`, `key` maps to `v` and every other key to what it mapped to before. */
  lemma {:induction false} GetPut(es: Entries, key: string, v: Value, k: string)
    ensures Get(Put(es, key, v), k) == if k == key then Some(v) else Get(es, k)
  {
    if es != [] && es[0].0 != key {
      GetPut(es[1..], key, v, k);
      assert Put(es, key, v)[1..] == Put(es[1..], key, v);
    } else if es != [] {
      assert Put(es, key, v)[1..] == es[1..];
    }
  }

  /** `d[key] = v` keeps the order of the keys, adding `key` at the end when it is new. */
  lemma {:induction false} KeysPut(es: Entries, key: string, v: Value)
    ensures Keys(Put(es, key, v)) == if key in Keys(es) then Keys(es) else Keys(es) + [key]
    ensures |Put(es, key, v)| == if key in Keys(es) then |es| else |es| + 1
  {
    if es != [] && es[0].0 != key {
      KeysPut(es[1..], key, v);
      assert Keys(es) == [es[0].0] + Keys(es[1..]);
      assert Put(es, key, v)[1..] == Put(es[1..], key, v);
      assert Keys(Put(es, key, v)) == [es[0].0] + Keys(Put(es[1..], key, v));
    } else if es != [] {
      assert Keys(Put(es, key, v)) == [key] + Keys(es[1..]);
      assert Keys(es) == [key] + Keys(es[1..]);
    }
  }

  /** Writing a new key appends it. */
  lemma {:induction false} PutNew(es: Entries, key: string, v: Value)
    requires key !in Keys(es)
    ensures Put(es, key, v) == es + [(key, v)]
  {
    if es != [] {
      assert Keys(es) == [es[0].0] + Keys(es[1..]);
      PutNew(es[1..], key, v);
      assert es == [es[0]] + es[1..];
    }
  }

  /** Appending an entry appends its key. */
  lemma {:induction false} KeysSnoc(es: Entries, e: (string, Value))
    ensures Keys(es + [e]) == Keys(es) + [e.0]
  {
    if es != [] {
      assert (es + [e])[1..] == es[1..] + [e];
      KeysSnoc(es[1..], e);
    }
  }

  /** Looking a key up after an entry is appended: the earlier entries win. */
  lemma {:induction false} GetSnoc(es: Entries, key: string, v: Value, k: string)
    ensures Get(es + [(key, v)], k) == if k in Keys(es) then Get(es, k) else if k == key then Some(v) else None
  {
    if es != [] {
      assert Keys(es) == [es[0].0] + Keys(es[1..]);
      assert (es + [(key, v)])[1..] == es[1..] + [(key, v)];
      GetSnoc(es[1..], key, v, k);
    }
  }

  /** `d[key] = v` leaves every entry with another key at its position. */
  lemma {:induction false} PutOther(es: Entries, key: string, v: Value, j: nat)
    requires j < |es| && es[j].0 != key
    ensures j < |Put(es, key, v)| && Put(es, key, v)[j] == es[j]
  {
    if j > 0 && es[0].0 != key {
      PutOther(es[1..], key, v, j - 1);
    }
  }

  /** Replacing an entry's value in place keeps the keys. */
  lemma {:induction false} KeysUpdate(es: Entries, j: nat, e: (string, Value))
    requires j < |es| && e.0 == es[j].0
    ensures Keys(es[j := e]) == Keys(es)
  {
    if j > 0 {
      assert es[j := e][1..] == es[1..][j - 1 := e];
      KeysUpdate(es[1..], j - 1, e);
    } else {
      assert es[j := e][1..] == es[1..];
    }
  }

  /** Replacing an entry with another key in place does not change a lookup. */
  lemma {:induction false} GetUpdate(es: Entries, j: nat, e: (string, Value), key: string)
    requires j < |es| && es[j].0 != key && e.0 != key
    ensures Get(es[j := e], key) == Get(es, key)
  {
    if j > 0 {
      assert es[j := e][1..] == es[1..][j - 1 := e];
      if es[0].0 != key {
        GetUpdate(es[1..], j - 1, e, key);
      }
    } else {
      assert es[j := e][1..] == es[1..];
    }
  }

  /** Writing a key keeps the keys of a dictionary unique. */
  lemma PutUnique(es: Entries, key: string, v: Value)
    requires UniqueKeys(es)
    ensures UniqueKeys(Put(es, key, v))
  {
    KeysPut(es, key, v);
    var r := Put(es, key, v);
    forall i, j | 0 <= i < j < |r|
      ensures r[i].0 != r[j].0
    {
      KeysAt(r, i);
      KeysAt(r, j);
      if key in Keys(es) {
        KeysAt(es, i);
        KeysAt(es, j);
      } else if j < |es| {
        KeysAt(es, i);
        KeysAt(es, j);
      } else {
        KeysAt(es, i);
      }
    }
  }

  /** Python's truth test: `None`, `False`, zero, empty strings and empty containers are false. */
  predicate Truthy(v: Value)
  {
    match v
    case Null => false
    case Bool(b) => b
    case Num(x) => x != 0.0
    case Str(s) => s != []
    case List(items) => items != []
    case Dict(entries) => entries != []
  }

  /** The number of nodes of a value. */
  function Size(v: Value): (n: nat)
    ensures n >= 1
  {
    match v
    case List(items) => 1 + Sum(seq(|items|, i requires 0 <= i < |items| => Size(items[i])))
    case Dict(es) => 1 + Sum(seq(|es|, i requires 0 <= i < |es| => Size(es[i].1)))
    case _ => 1
  }

  /** The number of nodes below a dictionary's entries. */
  function EntriesSize(es: Entries): nat
  {
    Sum(seq(|es|, i requires 0 <= i < |es| => Size(es[i].1)))
  }

  function Sum(xs: seq<nat>): nat
  {
    if xs == [] then 0 else Sum(xs[..|xs| - 1]) + xs[|xs| - 1]
  }

  /** The entries' size grows by the size of each entry added at the end. */
  lemma EntriesSizeSnoc(es: Entries)
    requires es != []
    ensures EntriesSize(es) == EntriesSize(es[..|es| - 1]) + Size(es[|es| - 1].1)
  {
    var n := |es|;
    var xs := seq(n, i requires 0 <= i < n => Size(es[i].1));
    assert xs[..n - 1] == seq(n - 1, i requires 0 <= i < n - 1 => Size(es[..n - 1][i].1));
  }
}
