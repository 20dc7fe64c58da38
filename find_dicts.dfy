/**
 * `find_dicts_with_key`: a depth-first walk over the dictionaries nested in
 * a document, driven by an explicit stack, collecting every dictionary that
 * has the search key.  Only dictionary-valued entries are descended into;
 * lists are not.  A collected dictionary is identified by its index path
 * from the root (entry positions, one per level).
 */
module FindDicts {
  import opened Wrappers
  import opened PyValues

  /** Positions of entries, one per level, from the root dictionary down. */
  type Path = seq<nat>

  /** A pending dictionary of the worklist: where it sits, and its entries. */
  type Pending = (Path, Entries)

  /** The value reached by following `p` through dictionaries; `None` where it leaves them. */
  function NodeAt(v: Value, p: Path): Option<Value>
    decreases |p|
  {
    if p == [] then Some(v)
    else if v.Dict? && p[0] < |v.entries| then NodeAt(v.entries[p[0]].1, p[1..])
    else None
  }

  /** The dictionary at `p` exists and has `key`. */
  predicate HoldsKey(v: Value, p: Path, key: string)
  {
    var n := NodeAt(v, p);
    n.Some? && n.value.Dict? && key in Keys(n.value.entries)
  }

  /** The dictionary-valued entries of `es`, in order, as pending dictionaries below `p`. */
  function Children(p: Path, es: Entries): seq<Pending>
  {
    if es == [] then []
    else
      var n := |es| - 1;
      Children(p, es[..n]) + if es[n].1.Dict? then [(p + [n], es[n].1.entries)] else []
  }

  /** The nodes left to visit: each pending dictionary with what lies below it. */
  function StackSize(stack: seq<Pending>): nat
  {
    if stack == [] then 0
    else StackSize(stack[..|stack| - 1]) + 1 + EntriesSize(stack[|stack| - 1].1)
  }

  lemma {:induction false} StackSizeAppend(a: seq<Pending>, b: seq<Pending>)
    ensures StackSize(a + b) == StackSize(a) + StackSize(b)
    decreases |b|
  {
    if b == [] {
      assert a + b == a;
    } else {
      var n := |b| - 1;
      assert (a + b)[..|a + b| - 1] == a + b[..n];
      assert (a + b)[|a + b| - 1] == b[n];
      StackSizeAppend(a, b[..n]);
    }
  }

  /** The children of a dictionary are smaller, together, than its entries. */
  lemma {:induction false} ChildrenSmaller(p: Path, es: Entries)
    ensures StackSize(Children(p, es)) <= EntriesSize(es)
  {
    if es != [] {
      var n := |es| - 1;
      ChildrenSmaller(p, es[..n]);
      EntriesSizeSnoc(es);
      var last: seq<Pending> := if es[n].1.Dict? then [(p + [n], es[n].1.entries)] else [];
      StackSizeAppend(Children(p, es[..n]), last);
      if es[n].1.Dict? {
        assert StackSize(last) == 1 + EntriesSize(es[n].1.entries);
        assert Size(es[n].1) == 1 + EntriesSize(es[n].1.entries);
      }
    }
  }

  /**
   * The order in which the worklist reports dictionaries: pop the last
   * pending dictionary, report it if it has the key, push its
   * dictionary-valued children in order, and go on.
   */
  function Walk(stack: seq<Pending>, key: string): seq<Path>
    decreases StackSize(stack)
  {
    if stack == [] then []
    else
      var n := |stack| - 1;
      var (p, es) := stack[n];
      var rest := stack[..n] + Children(p, es);
      StackSizeAppend(stack[..n], Children(p, es));
      ChildrenSmaller(p, es);
      (if key in Keys(es) then [p] else []) + Walk(rest, key)
  }

  /** One round of the walk: the popped dictionary, then the rest with its children pushed. */
  lemma WalkStep(stack: seq<Pending>, key: string)
    requires stack != []
    ensures var n := |stack| - 1;
            Walk(stack, key) == (if key in Keys(stack[n].1) then [stack[n].0] else []) +
                                Walk(stack[..n] + Children(stack[n].0, stack[n].1), key)
  {
  }

  /** Popping a dictionary and pushing its children shrinks the worklist and leaves the report of the rest to do. */
  lemma WalkPop(stack: seq<Pending>, key: string)
    requires stack != []
    ensures var n := |stack| - 1;
            var rest := stack[..n] + Children(stack[n].0, stack[n].1);
            && StackSize(rest) < StackSize(stack)
            && Walk(stack, key) == (if key in Keys(stack[n].1) then [stack[n].0] else []) + Walk(rest, key)
  {
    var n := |stack| - 1;
    WalkStep(stack, key);
    StackSizeAppend(stack[..n], Children(stack[n].0, stack[n].1));
    ChildrenSmaller(stack[n].0, stack[n].1);
  }

  /** `find_dicts_with_key(dictionary, searchkey)` as a value: the paths in the order the source lists them. */
  function FindOrder(root: Entries, key: string): seq<Path>
  {
    Walk([([], root)], key)
  }

  /** The dictionary at `p` lies within the pending dictionary `c` and has `key`. */
  predicate Below(c: Pending, p: Path, key: string)
  {
    |c.0| <= |p| && p[..|c.0|] == c.0 && HoldsKey(Dict(c.1), p[|c.0|..], key)
  }

  /** Each child comes from a dictionary-valued entry. */
  lemma {:induction false} ChildOrigin(p: Path, es: Entries, j: nat) returns (i: nat)
    requires j < |Children(p, es)|
    ensures i < |es| && es[i].1.Dict? && Children(p, es)[j] == (p + [i], es[i].1.entries)
  {
    var n := |es| - 1;
    if j < |Children(p, es[..n])| {
      i := ChildOrigin(p, es[..n], j);
      assert es[..n][i] == es[i];
    } else {
      i := n;
    }
  }

  /** Each dictionary-valued entry is a child. */
  lemma {:induction false} ChildPosition(p: Path, es: Entries, i: nat) returns (j: nat)
    requires i < |es| && es[i].1.Dict?
    ensures j < |Children(p, es)| && Children(p, es)[j] == (p + [i], es[i].1.entries)
  {
    var n := |es| - 1;
    if i < n {
      assert es[..n][i] == es[i];
      j := ChildPosition(p, es[..n], i);
    } else {
      j := |Children(p, es[..n])|;
    }
  }

  /** A path that leads somewhere passes through dictionaries only. */
  lemma NodeAtDict(v: Value, p: Path)
    requires p != [] && NodeAt(v, p).Some?
    ensures v.Dict? && p[0] < |v.entries|
  {
  }

  /** A dictionary with the key strictly within a pending dictionary lies within one of its children. */
  lemma BelowChild(c: Pending, p: Path, key: string) returns (j: nat)
    requires Below(c, p, key) && p != c.0
    ensures j < |Children(c.0, c.1)| && Below(Children(c.0, c.1)[j], p, key)
  {
    var (q, es) := c;
    var r := p[|q|..];
    assert r != [] by { assert p == p[..|q|] + r; }
    NodeAtDict(Dict(es), r);
    var i := r[0];
    assert NodeAt(Dict(es), r) == NodeAt(es[i].1, r[1..]);
    if r[1..] != [] {
      NodeAtDict(es[i].1, r[1..]);
    }
    j := ChildPosition(q, es, i);
    assert p[..|q| + 1] == q + [i];
    assert p[|q| + 1..] == r[1..];
  }

  /** A dictionary with the key within a child lies within the parent. */
  lemma ChildBelow(c: Pending, p: Path, key: string, j: nat)
    requires j < |Children(c.0, c.1)| && Below(Children(c.0, c.1)[j], p, key)
    ensures Below(c, p, key)
  {
    var (q, es) := c;
    var i := ChildOrigin(q, es, j);
    assert p[..|q|] == q;
    assert p[|q|..] == [i] + p[|q| + 1..];
    assert NodeAt(Dict(es), p[|q|..]) == NodeAt(es[i].1, p[|q| + 1..]);
  }

  /** The pending dictionary itself is reported exactly when it has the key. */
  lemma BelowSelf(c: Pending, key: string)
    ensures Below(c, c.0, key) <==> key in Keys(c.1)
  {
    assert c.0[..|c.0|] == c.0 && c.0[|c.0|..] == [];
  }

  /** Some pending dictionary of the stack has the dictionary at `p`, with the key, within it. */
  predicate Within(stack: seq<Pending>, p: Path, key: string)
  {
    stack != [] && (Within(stack[..|stack| - 1], p, key) || Below(stack[|stack| - 1], p, key))
  }

  lemma {:induction false} WithinAppend(a: seq<Pending>, b: seq<Pending>, p: Path, key: string)
    ensures Within(a + b, p, key) <==> Within(a, p, key) || Within(b, p, key)
    decreases |b|
  {
    if b == [] {
      assert a + b == a;
    } else {
      var n := |b| - 1;
      assert (a + b)[..|a + b| - 1] == a + b[..n];
      assert (a + b)[|a + b| - 1] == b[n];
      WithinAppend(a, b[..n], p, key);
    }
  }

  lemma {:induction false} WithinAt(stack: seq<Pending>, p: Path, key: string, k: nat)
    requires k < |stack| && Below(stack[k], p, key)
    ensures Within(stack, p, key)
    decreases |stack|
  {
    var n := |stack| - 1;
    if k < n {
      assert stack[..n][k] == stack[k];
      WithinAt(stack[..n], p, key, k);
    }
  }

  lemma {:induction false} WithinWitness(stack: seq<Pending>, p: Path, key: string) returns (k: nat)
    requires Within(stack, p, key)
    ensures k < |stack| && Below(stack[k], p, key)
    decreases |stack|
  {
    var n := |stack| - 1;
    if Below(stack[n], p, key) {
      k := n;
    } else {
      k := WithinWitness(stack[..n], p, key);
      assert stack[..n][k] == stack[k];
    }
  }

  /** A dictionary with the key lies within a pending one exactly when it is that one, or lies within a child. */
  lemma BelowSplit(c: Pending, p: Path, key: string)
    ensures Below(c, p, key) <==> (p == c.0 && key in Keys(c.1)) || Within(Children(c.0, c.1), p, key)
  {
    BelowSelf(c, key);
    if Below(c, p, key) && p != c.0 {
      var j := BelowChild(c, p, key);
      WithinAt(Children(c.0, c.1), p, key, j);
    }
    if Within(Children(c.0, c.1), p, key) {
      var j := WithinWitness(Children(c.0, c.1), p, key);
      ChildBelow(c, p, key, j);
    }
  }

  /** The walk reports exactly the dictionaries with the key that lie within a pending dictionary. */
  lemma {:induction false} WalkMembers(stack: seq<Pending>, key: string, p: Path)
    ensures p in Walk(stack, key) <==> Within(stack, p, key)
    decreases StackSize(stack)
  {
    if stack != [] {
      var n := |stack| - 1;
      var (q, es) := stack[n];
      var cs := Children(q, es);
      WalkStep(stack, key);
      StackSizeAppend(stack[..n], cs);
      ChildrenSmaller(q, es);
      WalkMembers(stack[..n] + cs, key, p);
      WithinAppend(stack[..n], cs, p, key);
      BelowSplit(stack[n], p, key);
    }
  }

  /**
   * Every reported path leads to a dictionary with the search key, and every
   * dictionary with the key that is reachable from the root through
   * dictionary-valued entries is reported.
   */
  lemma FindOrderComplete(root: Entries, key: string, p: Path)
    ensures p in FindOrder(root, key) <==> HoldsKey(Dict(root), p, key)
  {
    var start: seq<Pending> := [([], root)];
    WalkMembers(start, key, p);
    assert start[..0] == [];
    assert p[..0] == [] && p[0..] == p;
  }

  /** `p` is a prefix of `q`: the dictionary at `q`, if any, lies within the one at `p`. */
  predicate Prefix(p: Path, q: Path)
  {
    |p| <= |q| && q[..|p|] == p
  }

  /** No pending dictionary lies within another: their paths are pairwise not prefixes of one another. */
  predicate Apart(stack: seq<Pending>)
  {
    forall i, j :: 0 <= i < |stack| && 0 <= j < |stack| && i != j ==> !Prefix(stack[i].0, stack[j].0)
  }

  /** No path occurs twice. */
  predicate NoRepeat(s: seq<Path>)
  {
    forall i, j :: 0 <= i < j < |s| ==> s[i] != s[j]
  }

  /** Two children sit at different entries, in the order of the entries. */
  lemma {:induction false} ChildrenIncreasing(p: Path, es: Entries, j1: nat, j2: nat) returns (i1: nat, i2: nat)
    requires j1 < j2 < |Children(p, es)|
    ensures i1 < i2 && Children(p, es)[j1].0 == p + [i1] && Children(p, es)[j2].0 == p + [i2]
  {
    var n := |es| - 1;
    var front := Children(p, es[..n]);
    if j2 < |front| {
      i1, i2 := ChildrenIncreasing(p, es[..n], j1, j2);
    } else {
      i1 := ChildOrigin(p, es[..n], j1);
      i2 := n;
    }
  }

  /** The children of one dictionary are apart. */
  lemma ChildrenApart(p: Path, es: Entries)
    ensures Apart(Children(p, es))
  {
    var cs := Children(p, es);
    forall i, j | 0 <= i < |cs| && 0 <= j < |cs| && i != j
      ensures !Prefix(cs[i].0, cs[j].0)
    {
      var lo, hi := if i < j then i else j, if i < j then j else i;
      var i1, i2 := ChildrenIncreasing(p, es, lo, hi);
      assert (p + [i1])[|p|] == i1 && (p + [i2])[|p|] == i2;
    }
  }

  /** A path apart from `q` is apart from every path one entry below `q`. */
  lemma ApartBelow(s: Path, q: Path, c: nat)
    requires !Prefix(s, q) && !Prefix(q, s)
    ensures !Prefix(s, q + [c]) && !Prefix(q + [c], s)
  {
  }

  /** Popping a dictionary and pushing its children keeps the stack apart. */
  lemma RestApart(stack: seq<Pending>)
    requires stack != [] && Apart(stack)
    ensures var n := |stack| - 1; Apart(stack[..n] + Children(stack[n].0, stack[n].1))
  {
    var n := |stack| - 1;
    var (q, es) := stack[n];
    var cs := Children(q, es);
    var rest := stack[..n] + cs;
    ChildrenApart(q, es);
    forall i, j | 0 <= i < |rest| && 0 <= j < |rest| && i != j
      ensures !Prefix(rest[i].0, rest[j].0)
    {
      if i < n && j < n {
        assert rest[i] == stack[i] && rest[j] == stack[j];
      } else if i >= n && j >= n {
        assert rest[i] == cs[i - n] && rest[j] == cs[j - n];
      } else if i < n {
        var c := ChildOrigin(q, es, j - n);
        assert rest[i] == stack[i] && rest[j] == cs[j - n];
        ApartBelow(stack[i].0, q, c);
      } else {
        var c := ChildOrigin(q, es, i - n);
        assert rest[j] == stack[j] && rest[i] == cs[i - n];
        ApartBelow(stack[j].0, q, c);
      }
    }
  }

  /** A popped dictionary is not met again by the walk over what is left. */
  lemma PoppedNotAgain(stack: seq<Pending>, key: string, r: Path)
    requires stack != [] && Apart(stack)
    requires var n := |stack| - 1; r in Walk(stack[..n] + Children(stack[n].0, stack[n].1), key)
    ensures r != stack[|stack| - 1].0
  {
    var n := |stack| - 1;
    var (q, es) := stack[n];
    var cs := Children(q, es);
    var rest := stack[..n] + cs;
    WalkMembers(rest, key, r);
    var k := WithinWitness(rest, r, key);
    if k < n {
      assert rest[k] == stack[k];
      assert Prefix(stack[k].0, r);
    } else {
      assert rest[k] == cs[k - n];
      var c := ChildOrigin(q, es, k - n);
      assert |rest[k].0| == |q| + 1;
    }
  }

  /** A walk over dictionaries apart from one another reports no path twice. */
  lemma {:induction false} WalkNoRepeat(stack: seq<Pending>, key: string)
    requires Apart(stack)
    ensures NoRepeat(Walk(stack, key))
    decreases StackSize(stack)
  {
    if stack != [] {
      var n := |stack| - 1;
      var (q, es) := stack[n];
      var rest := stack[..n] + Children(q, es);
      WalkStep(stack, key);
      StackSizeAppend(stack[..n], Children(q, es));
      ChildrenSmaller(q, es);
      RestApart(stack);
      WalkNoRepeat(rest, key);
      var tail := Walk(rest, key);
      if key in Keys(es) {
        forall j | 0 <= j < |tail|
          ensures tail[j] != q
        {
          PoppedNotAgain(stack, key, tail[j]);
        }
        assert Walk(stack, key) == [q] + tail;
      } else {
        assert Walk(stack, key) == tail;
      }
    }
  }

  /** Each dictionary with the key is reported once: the listed paths are distinct. */
  lemma FindOrderOnce(root: Entries, key: string)
    ensures NoRepeat(FindOrder(root, key))
  {
    WalkNoRepeat([([], root)], key);
  }

  /** The worklist traversal as the source writes it. */
  method FindDictsWithKey(root: Entries, searchKey: string) returns (found: seq<Path>)
    ensures found == FindOrder(root, searchKey)
  {
    var stack: seq<Pending> := [([], root)];
    found := [];
    while stack != []
      invariant found + Walk(stack, searchKey) == FindOrder(root, searchKey)
      decreases StackSize(stack)
    {
      stack, found := WalkRound(stack, found, searchKey);
    }
  }

  /** One round of the while loop: pop, report when the key is there, push the children. */
  method WalkRound(stack0: seq<Pending>, found0: seq<Path>, searchKey: string) returns (stack: seq<Pending>, found: seq<Path>)
    requires stack0 != []
    ensures found + Walk(stack, searchKey) == found0 + Walk(stack0, searchKey)
    ensures StackSize(stack) < StackSize(stack0)
  {
    var n := |stack0| - 1;
    var p, d := stack0[n].0, stack0[n].1;
    WalkPop(stack0, searchKey);
    found := found0;
    if searchKey in Keys(d) {
      found := found + [p];
    }
    assert found + Walk(stack0[..n] + Children(p, d), searchKey) == found0 + Walk(stack0, searchKey);
    stack := PushChildren(stack0[..n], p, d);
  }

  /** The inner loop of the walk: push every dictionary-valued entry of `d`, in order. */
  method PushChildren(stack0: seq<Pending>, p: Path, d: Entries) returns (stack: seq<Pending>)
    ensures stack == stack0 + Children(p, d)
  {
    stack := stack0;
    for i := 0 to |d|
      invariant stack == stack0 + Children(p, d[..i])
    {
      assert d[..i + 1][..i] == d[..i];
      if d[i].1.Dict? {
        stack := stack + [(p + [i], d[i].1.entries)];
      }
    }
    assert d[..|d|] == d;
  }
}
