/**
 Merging environment variables by name, with an index from names to places. The merged
 list means base followed by overlay, and merging is associative.
 */
module EnvVars {
  import opened Wrappers
  import opened Objects

  /** The place of the last variable of this name, or -1. */
  function LastIndex(vars: seq<EnvVar>, name: string): (i: int)
    ensures -1 <= i < |vars|
    ensures i >= 0 ==> vars[i].name == name
    ensures forall j :: i < j < |vars| ==> vars[j].name != name
  {
    if vars == [] then -1
    else if vars[|vars| - 1].name == name then |vars| - 1
    else LastIndex(vars[..|vars| - 1], name)
  }

  /** The variable a container sees: of several with one name, the last. */
  function Lookup(vars: seq<EnvVar>, name: string): Option<EnvVar> {
    if LastIndex(vars, name) < 0 then None else Some(vars[LastIndex(vars, name)])
  }

  /** One overlay variable: in the place of its namesake, else at the end. */
  function Put(vars: seq<EnvVar>, v: EnvVar): (r: seq<EnvVar>)
    ensures |vars| <= |r|
  {
    var i := LastIndex(vars, v.name);
    if i >= 0 then vars[i := v] else vars + [v]
  }

  function Merge(base: seq<EnvVar>, overlay: seq<EnvVar>): (r: seq<EnvVar>)
    ensures |base| <= |r|
  {
    if overlay == [] then base else Put(Merge(base, overlay[..|overlay| - 1]), overlay[|overlay| - 1])
  }

  /** The index holds, for each name, the place of its last variable. */
  ghost predicate Indexes(index: map<string, nat>, vars: seq<EnvVar>) {
    forall n :: if n in index then LastIndex(vars, n) == index[n] else LastIndex(vars, n) == -1
  }

  lemma LastIndexAt(vars: seq<EnvVar>, name: string, i: int)
    requires -1 <= i < |vars| && (i >= 0 ==> vars[i].name == name)
    requires forall j :: i < j < |vars| ==> vars[j].name != name
    ensures LastIndex(vars, name) == i
  {
  }

  lemma PutIndex(vars: seq<EnvVar>, v: EnvVar, name: string)
    ensures LastIndex(Put(vars, v), name)
         == if name == v.name && LastIndex(vars, name) < 0 then |vars| else LastIndex(vars, name)
  {
    var r, i := Put(vars, v), LastIndex(vars, name);
    LastIndexAt(r, name, if name == v.name && i < 0 then |vars| else i);
  }

  method MergeEnvVars(base: seq<EnvVar>, overlay: seq<EnvVar>) returns (merged: seq<EnvVar>)
    ensures merged == Merge(base, overlay)
  {
    if |overlay| == 0 {
      return base;
    }
    merged := base;
    var index: map<string, nat> := map[];
    for i := 0 to |merged|
      invariant Indexes(index, merged[..i])
    {
      assert merged[..i + 1][..i] == merged[..i];
      index := index[merged[i].name := i];
    }
    assert merged[..|merged|] == merged;
    for i := 0 to |overlay|
      invariant merged == Merge(base, overlay[..i])
      invariant Indexes(index, merged)
    {
      assert overlay[..i + 1][..i] == overlay[..i];
      var e := overlay[i];
      ghost var before := merged;
      forall n ensures LastIndex(Put(before, e), n)
                    == if n == e.name && LastIndex(before, n) < 0 then |before| else LastIndex(before, n)
      {
        PutIndex(before, e, n);
      }
      if e.name in index {
        merged := merged[index[e.name] := e];
        continue;
      }
      index := index[e.name := |merged|];
      merged := merged + [e];
    }
    assert overlay[..|overlay|] == overlay;
  }

  // ---- what the merge means ----

  lemma PutLookup(vars: seq<EnvVar>, v: EnvVar, name: string)
    ensures Lookup(Put(vars, v), name) == if name == v.name then Some(v) else Lookup(vars, name)
  {
    PutIndex(vars, v, name);
  }

  /** A merged list means base followed by overlay, duplicates included. */
  lemma {:induction false} MergeMeansAppend(base: seq<EnvVar>, overlay: seq<EnvVar>, name: string)
    ensures Lookup(Merge(base, overlay), name) == Lookup(base + overlay, name)
  {
    if overlay == [] {
      assert base + overlay == base;
    } else {
      var n := |overlay| - 1;
      MergeMeansAppend(base, overlay[..n], name);
      PutLookup(Merge(base, overlay[..n]), overlay[n], name);
      assert (base + overlay)[..|base + overlay| - 1] == base + overlay[..n];
    }
  }

  function Names(vars: seq<EnvVar>): (r: seq<string>)
    ensures |r| == |vars| && forall i :: 0 <= i < |r| ==> r[i] == vars[i].name
  {
    seq(|vars|, i requires 0 <= i < |vars| => vars[i].name)
  }

  /** The names not seen before, each where it first appears. */
  function NewNames(seen: seq<string>, names: seq<string>): seq<string> {
    if names == [] then []
    else
      var earlier, last := NewNames(seen, names[..|names| - 1]), names[|names| - 1];
      if last in seen || last in earlier then earlier else earlier + [last]
  }

  lemma HasName(vars: seq<EnvVar>, name: string)
    ensures LastIndex(vars, name) >= 0 <==> name in Names(vars)
  {
    if LastIndex(vars, name) >= 0 {
      assert Names(vars)[LastIndex(vars, name)] == name;
    }
  }

  /** Base keeps its order; names it has not come after it, in the order they first appear. */
  lemma {:induction false} MergeOrder(base: seq<EnvVar>, overlay: seq<EnvVar>)
    ensures Names(Merge(base, overlay)) == Names(base) + NewNames(Names(base), Names(overlay))
  {
    if overlay != [] {
      var n := |overlay| - 1;
      var before, v := Merge(base, overlay[..n]), overlay[n];
      MergeOrder(base, overlay[..n]);
      assert Names(overlay)[..n] == Names(overlay[..n]);
      HasName(before, v.name);
      assert v.name in Names(before) <==> v.name in Names(base) || v.name in NewNames(Names(base), Names(overlay[..n]));
      if LastIndex(before, v.name) >= 0 {
        assert Names(Put(before, v)) == Names(before);
      } else {
        assert Names(Put(before, v)) == Names(before) + [v.name];
      }
    }
  }

  // ---- associativity ----

  lemma PutTwice(vars: seq<EnvVar>, v: EnvVar, w: EnvVar)
    requires v.name == w.name
    ensures Put(Put(vars, v), w) == Put(vars, w)
  {
    PutIndex(vars, v, w.name);
  }

  lemma PutCommutes(vars: seq<EnvVar>, v: EnvVar, w: EnvVar)
    requires v.name != w.name && LastIndex(vars, v.name) >= 0
    ensures Put(Put(vars, v), w) == Put(Put(vars, w), v)
  {
    PutIndex(vars, v, w.name);
    PutIndex(vars, w, v.name);
  }

  lemma {:induction false} MergeKeepsName(base: seq<EnvVar>, overlay: seq<EnvVar>, name: string)
    requires LastIndex(base, name) >= 0
    ensures LastIndex(Merge(base, overlay), name) >= 0
  {
    if overlay != [] {
      MergeKeepsName(base, overlay[..|overlay| - 1], name);
      PutIndex(Merge(base, overlay[..|overlay| - 1]), overlay[|overlay| - 1], name);
    }
  }

  /** A variable replaced before others of different names is a variable replaced after them. */
  lemma {:induction false} PutMoves(vars: seq<EnvVar>, v: EnvVar, w: EnvVar, others: seq<EnvVar>)
    requires v.name == w.name && forall o :: o in others ==> o.name != w.name
    ensures Merge(Put(vars, w), others) == Put(Merge(Put(vars, v), others), w)
  {
    if others == [] {
      PutTwice(vars, v, w);
    } else {
      var n := |others| - 1;
      PutMoves(vars, v, w, others[..n]);
      PutIndex(vars, v, w.name);
      MergeKeepsName(Put(vars, v), others[..n], w.name);
      assert others[n] in others;
      PutCommutes(Merge(Put(vars, v), others[..n]), w, others[n]);
    }
  }

  lemma {:induction false} MergeAppend(base: seq<EnvVar>, first: seq<EnvVar>, second: seq<EnvVar>)
    ensures Merge(base, first + second) == Merge(Merge(base, first), second)
  {
    if second == [] {
      assert first + second == first;
    } else {
      var n := |second| - 1;
      MergeAppend(base, first, second[..n]);
      assert (first + second)[..|first + second| - 1] == first + second[..n];
    }
  }

  lemma MergePut(base: seq<EnvVar>, vars: seq<EnvVar>, w: EnvVar)
    ensures Merge(base, Put(vars, w)) == Put(Merge(base, vars), w)
  {
    var i := LastIndex(vars, w.name);
    if i >= 0 {
      var before, after := vars[..i], vars[i + 1..];
      assert vars == before + [vars[i]] + after && Put(vars, w) == before + [w] + after;
      MergeAppend(base, before + [vars[i]], after);
      MergeAppend(base, before + [w], after);
      MergeOne(Merge(base, before), vars[i]);
      MergeOne(Merge(base, before), w);
      MergeAppend(base, before, [vars[i]]);
      MergeAppend(base, before, [w]);
      assert forall o :: o in after ==> o.name != w.name;
      PutMoves(Merge(base, before), vars[i], w, after);
    } else {
      assert (vars + [w])[..|vars|] == vars;
    }
  }

  lemma MergeOne(base: seq<EnvVar>, v: EnvVar)
    ensures Merge(base, [v]) == Put(base, v)
  {
    assert [v][..0] == [];
  }

  /** Merging in two stages may be done in either order, for all lists, duplicates included. */
  lemma {:induction false} MergeAssociative(a: seq<EnvVar>, b: seq<EnvVar>, c: seq<EnvVar>)
    ensures Merge(Merge(a, b), c) == Merge(a, Merge(b, c))
  {
    if c != [] {
      var n := |c| - 1;
      MergeAssociative(a, b, c[..n]);
      MergePut(a, Merge(b, c[..n]), c[n]);
    }
  }
}
