/**
  cloneMap, cloneSlice, mergeMaps and mergeRequestPayload on a memory of maps. The merge writes
  into its base in whatever order the override's keys come; it yields the pure merge, and of the
  maps that existed before it changes only those of the base.
 */
module PayloadMerge {
  import opened Prelude
  import opened PayloadModel

  // Writing one key of a map -----------------------------------------------------------------

  /** Everything about the map a that does not concern its key k. */
  ghost predicate Siblings(cells: Cells, a: Addr, fields: map<string, Json>, k: string) {
    && a in cells && cells[a].Keys - {k} == fields.Keys - {k}
    && (forall l | l in fields && l != k :: l in cells[a] && Denotes(cells, cells[a][l], fields[l])
          && Tree(cells, cells[a][l], fields[l]) && a !in Foot(cells, cells[a][l], fields[l]))
    && (forall l, m | l in fields && m in fields && l != k && m != k && l != m ::
          Foot(cells, cells[a][l], fields[l]) !! Foot(cells, cells[a][m], fields[m]))
  }

  lemma SiblingKept(cells: Cells, cells': Cells, a: Addr, j: Json, l: string, region: set<Addr>)
    requires j.Obj? && Denotes(cells, Ref(a), j) && Tree(cells, Ref(a), j) && l in j.fields
    requires AgreeOn(cells, cells', cells.Keys - region) && a !in region && Foot(cells, cells[a][l], j.fields[l]) !! region
    ensures a in cells' && cells'[a] == cells[a]
    ensures Denotes(cells', cells[a][l], j.fields[l]) && Tree(cells', cells[a][l], j.fields[l])
    ensures Foot(cells', cells[a][l], j.fields[l]) == Foot(cells, cells[a][l], j.fields[l])
  {
    FootAllocated(cells, cells[a][l], j.fields[l]);
    Frame(cells, cells', cells[a][l], j.fields[l]);
    FrameTree(cells, cells', cells[a][l], j.fields[l]);
  }

  /** The maps below key k, if it is there. */
  ghost function Below(cells: Cells, a: Addr, j: Json, k: string): set<Addr>
    requires j.Obj? && Denotes(cells, Ref(a), j)
  {
    if k in j.fields then Foot(cells, cells[a][k], j.fields[k]) else {}
  }

  /** Work below key k, and new maps, leave the other keys as they were. */
  lemma SiblingsKept(cells: Cells, cells': Cells, a: Addr, j: Json, k: string)
    requires j.Obj? && Denotes(cells, Ref(a), j) && Tree(cells, Ref(a), j)
    requires AgreeOn(cells, cells', cells.Keys - Below(cells, a, j, k))
    ensures Siblings(cells', a, j.fields, k) && cells'[a] == cells[a]
    ensures forall l | l in j.fields && l != k :: Foot(cells', cells'[a][l], j.fields[l]) == Foot(cells, cells[a][l], j.fields[l])
  {
    var region := Below(cells, a, j, k);
    assert a !in region;
    forall l | l in j.fields && l != k
      ensures Denotes(cells', cells[a][l], j.fields[l]) && Tree(cells', cells[a][l], j.fields[l])
      ensures Foot(cells', cells[a][l], j.fields[l]) == Foot(cells, cells[a][l], j.fields[l])
    {
      SiblingKept(cells, cells', a, j, l, region);
    }
  }

  lemma ChildUnwritten(cells: Cells, cells': Cells, a: Addr, v: Val, j: Json)
    requires Denotes(cells, v, j) && Tree(cells, v, j) && a !in Foot(cells, v, j)
    requires AgreeOn(cells, cells', cells.Keys - {a})
    ensures Denotes(cells', v, j) && Tree(cells', v, j) && Foot(cells', v, j) == Foot(cells, v, j)
  {
    FootAllocated(cells, v, j);
    Frame(cells, cells', v, j);
    FrameTree(cells, cells', v, j);
  }

  /** Storing v, which shares nothing with the map a, under key k. */
  lemma PutKey(cells: Cells, a: Addr, fields: map<string, Json>, k: string, v: Val, j: Json)
    requires Siblings(cells, a, fields, k) && Denotes(cells, v, j) && Tree(cells, v, j) && a !in Foot(cells, v, j)
    requires forall l | l in fields && l != k :: Foot(cells, cells[a][l], fields[l]) !! Foot(cells, v, j)
    ensures var cells' := cells[a := cells[a][k := v]]; var j' := Obj(fields[k := j]);
      && Denotes(cells', Ref(a), j') && Tree(cells', Ref(a), j')
      && forall x | x in Foot(cells', Ref(a), j') ::
           x == a || x in Foot(cells, v, j) || exists l :: l in fields && l != k && x in Foot(cells, cells[a][l], fields[l])
  {
    var cells', fields' := cells[a := cells[a][k := v]], fields[k := j];
    assert cells'[a].Keys == (cells[a].Keys - {k}) + {k} && fields'.Keys == (fields.Keys - {k}) + {k};
    forall l | l in fields'
      ensures l in cells'[a] && Denotes(cells', cells'[a][l], fields'[l]) && Tree(cells', cells'[a][l], fields'[l])
      ensures Foot(cells', cells'[a][l], fields'[l]) == Foot(cells, if l == k then v else cells[a][l], fields'[l])
    {
      ChildUnwritten(cells, cells', a, if l == k then v else cells[a][l], fields'[l]);
    }
  }

  // The memory -------------------------------------------------------------------------------

  /** Old maps are as they were. */
  ghost predicate Extends(cells: Cells, cells': Cells) {
    AgreeOn(cells, cells', cells.Keys)
  }

  /** v stands for j and is made of maps that were not there before. */
  ghost predicate NewTree(cells: Cells, cells': Cells, v: Val, j: Json) {
    Denotes(cells', v, j) && Tree(cells', v, j) && Foot(cells', v, j) !! cells.Keys
  }

  lemma StillDenotes(cells: Cells, cells': Cells, v: Val, j: Json)
    requires Denotes(cells, v, j) && Extends(cells, cells')
    ensures Denotes(cells', v, j) && Foot(cells', v, j) == Foot(cells, v, j)
  {
    FootAllocated(cells, v, j);
    Frame(cells, cells', v, j);
  }

  /** The part of an object that the keys left to do do not cover. */
  function Done(fields: map<string, Json>, left: set<string>): map<string, Json> {
    map k | k in fields && k !in left :: fields[k]
  }

  lemma DoneOneMore(fields: map<string, Json>, left: set<string>, k: string)
    requires k in left && k in fields
    ensures Done(fields, left - {k}) == Done(fields, left)[k := fields[k]]
  {
  }

  /** A new value stored in a new map gives a bigger new tree. */
  lemma FillOneMore(c0: Cells, c1: Cells, c2: Cells, a: Addr, fields: map<string, Json>, k: string, v: Val, j: Json)
    requires k !in fields && NewTree(c0, c1, Ref(a), Obj(fields)) && Extends(c0, c1)
    requires Extends(c1, c2) && NewTree(c1, c2, v, j)
    ensures a in c2 && NewTree(c0, c2[a := c2[a][k := v]], Ref(a), Obj(fields[k := j])) && Extends(c0, c2[a := c2[a][k := v]])
  {
    FootAllocated(c1, Ref(a), Obj(fields));
    SiblingsKept(c1, c2, a, Obj(fields), k);
    forall l | l in fields ensures Foot(c2, c2[a][l], fields[l]) !! Foot(c2, v, j) {
      assert Foot(c2, c2[a][l], fields[l]) <= Foot(c1, Ref(a), Obj(fields));
    }
    PutKey(c2, a, fields, k, v, j);
  }

  // Merging in place --------------------------------------------------------------------------

  /** The base with the override's keys merged in, except for those left to do. */
  function Partly(base: Json, over: Json, left: set<string>): map<string, Json>
    requires base.Obj? && over.Obj?
  {
    map k | k in base.fields.Keys + (over.fields.Keys - left) ::
      if k !in over.fields || k in left then base.fields[k]
      else if k !in base.fields then over.fields[k]
      else Merge(base.fields[k], over.fields[k])
  }

  lemma PartlyNothing(base: Json, over: Json)
    requires base.Obj? && over.Obj?
    ensures Partly(base, over, over.fields.Keys) == base.fields
  {
  }

  lemma PartlyAll(base: Json, over: Json)
    requires base.Obj? && over.Obj?
    ensures Obj(Partly(base, over, {})) == Merge(base, over)
  {
    var p, m := Partly(base, over, {}), Merge(base, over).fields;
    assert p.Keys == m.Keys;
    assert forall k | k in p :: p[k] == m[k];
    assert p == m;
  }

  function MergedKey(base: Json, over: Json, k: string): Json
    requires base.Obj? && over.Obj? && k in over.fields
  {
    if k in base.fields then Merge(base.fields[k], over.fields[k]) else over.fields[k]
  }

  lemma PartlyOneMore(base: Json, over: Json, left: set<string>, k: string)
    requires base.Obj? && over.Obj? && k in left && left <= over.fields.Keys
    ensures Partly(base, over, left - {k}) == Partly(base, over, left)[k := MergedKey(base, over, k)]
    ensures k in Partly(base, over, left) <==> k in base.fields
    ensures k in base.fields ==> Partly(base, over, left)[k] == base.fields[k]
  {
  }

  lemma MergeEmpty(base: Json, over: Json)
    requires base.Obj? && over.Obj?
    ensures base.fields == map[] ==> Merge(base, over) == over
    ensures over.fields == map[] ==> Merge(base, over) == base
  {
  }

  /** v stands for j and is made of maps of the given region and of new ones. */
  ghost predicate TreeIn(cells: Cells, cells': Cells, v: Val, j: Json, region: set<Addr>) {
    && Denotes(cells', v, j) && Tree(cells', v, j)
    && forall a | a in Foot(cells', v, j) :: a in region || a !in cells
  }

  /** Only maps of the region were written to. */
  ghost predicate Confined(cells: Cells, cells': Cells, region: set<Addr>) {
    cells.Keys <= cells'.Keys && AgreeOn(cells, cells', cells.Keys - region)
  }

  lemma OverUntouched(cells: Cells, cells': Cells, v: Val, j: Json, region: set<Addr>)
    requires Denotes(cells, v, j) && Confined(cells, cells', region) && Foot(cells, v, j) !! region
    ensures Denotes(cells', v, j) && Foot(cells', v, j) == Foot(cells, v, j)
  {
    FootAllocated(cells, v, j);
    Frame(cells, cells', v, j);
  }

  lemma RefIsObj(cells: Cells, v: Val, j: Json)
    requires Denotes(cells, v, j)
    ensures v.Ref? <==> j.Obj?
  {
  }

  /** An entry of the override is still there, and shares nothing with the half-merged base. */
  lemma EntryReady(c0: Cells, c1: Cells, over: Addr, oj: Json, k: string, base: Addr, j: Json, region: set<Addr>)
    requires oj.Obj? && Denotes(c0, Ref(over), oj) && k in oj.fields && Foot(c0, Ref(over), oj) !! region
    requires Confined(c0, c1, region) && TreeIn(c0, c1, Ref(base), j, region)
    ensures Denotes(c1, c0[over][k], oj.fields[k])
    ensures Foot(c1, c0[over][k], oj.fields[k]) !! Foot(c1, Ref(base), j)
  {
    assert Foot(c0, c0[over][k], oj.fields[k]) <= Foot(c0, Ref(over), oj);
    OverUntouched(c0, c1, c0[over][k], oj.fields[k], region);
    FootAllocated(c0, c0[over][k], oj.fields[k]);
  }

  /** One turn of the loop, after the new value for key k was made below it or from new maps. */
  lemma MergeOneMore(c0: Cells, c1: Cells, c2: Cells, a: Addr, j: Json, k: string, v: Val, jv: Json, region: set<Addr>)
    requires j.Obj? && region <= c0.Keys && a in region
    requires Confined(c0, c1, region) && TreeIn(c0, c1, Ref(a), j, region)
    requires Confined(c1, c2, Below(c1, a, j, k)) && TreeIn(c1, c2, v, jv, Below(c1, a, j, k))
    ensures a in c2
    ensures var c3 := c2[a := c2[a][k := v]];
      Confined(c0, c3, region) && TreeIn(c0, c3, Ref(a), Obj(j.fields[k := jv]), region)
  {
    FootAllocated(c1, Ref(a), j);
    SiblingsKept(c1, c2, a, j, k);
    assert a !in Foot(c2, v, jv);
    forall l | l in j.fields && l != k ensures Foot(c2, c2[a][l], j.fields[l]) !! Foot(c2, v, jv) {
      assert Foot(c1, c1[a][l], j.fields[l]) <= Foot(c1, Ref(a), j);
      assert k in j.fields ==> Foot(c1, c1[a][l], j.fields[l]) !! Foot(c1, c1[a][k], j.fields[k]);
    }
    PutKey(c2, a, j.fields, k, v, jv);
    MergedFoot(c0, c1, c2, a, j, k, v, jv, region);
  }

  lemma MergedFoot(c0: Cells, c1: Cells, c2: Cells, a: Addr, j: Json, k: string, v: Val, jv: Json, region: set<Addr>)
    requires j.Obj? && region <= c0.Keys && a in region
    requires Confined(c0, c1, region) && TreeIn(c0, c1, Ref(a), j, region)
    requires Confined(c1, c2, Below(c1, a, j, k)) && TreeIn(c1, c2, v, jv, Below(c1, a, j, k))
    requires Siblings(c2, a, j.fields, k) && c2[a] == c1[a]
    requires forall l | l in j.fields && l != k :: Foot(c2, c2[a][l], j.fields[l]) == Foot(c1, c1[a][l], j.fields[l])
    ensures forall x | x in Foot(c2, v, jv) :: x in region || x !in c0
    ensures forall l, x | l in j.fields && l != k && x in Foot(c2, c2[a][l], j.fields[l]) :: x in region || x !in c0
    ensures Confined(c0, c2[a := c2[a][k := v]], region)
  {
    assert Below(c1, a, j, k) <= Foot(c1, Ref(a), j);
    forall l, x | l in j.fields && l != k && x in Foot(c2, c2[a][l], j.fields[l]) ensures x in region || x !in c0 {
      assert x in Foot(c1, Ref(a), j);
    }
  }

  class Memory {
    var cells: Cells
    var next: Addr

    ghost predicate Valid()
      reads this
    {
      forall a | a in cells :: a < next
    }

    constructor ()
      ensures Valid() && cells == map[]
    {
      cells, next := map[], 0;
    }

    method NewMap() returns (a: Addr)
      requires Valid()
      modifies this
      ensures Valid() && a !in old(cells) && cells == old(cells)[a := map[]]
    {
      a, next := next, next + 1;
      cells := cells[a := map[]];
    }

    method CloneValue(v: Val, ghost j: Json) returns (copy: Val)
      requires Valid() && Denotes(cells, v, j)
      modifies this
      ensures Valid() && Extends(old(cells), cells) && NewTree(old(cells), cells, copy, j)
      decreases j, 1
    {
      match v {
        case Scalar(_) =>
          return v;
        case List(items) =>
          var list := CloneSlice(items, j);
          return List(list);
        case Ref(addr) =>
          var a := CloneMap(addr, j);
          return Ref(a);
      }
    }

    method CloneMap(source: Addr, ghost j: Json) returns (r: Addr)
      requires Valid() && j.Obj? && Denotes(cells, Ref(source), j)
      modifies this
      ensures Valid() && Extends(old(cells), cells) && NewTree(old(cells), cells, Ref(r), j)
      decreases j, 0
    {
      ghost var c0 := cells;
      var entries := cells[source];
      r := NewMap();
      var left := entries.Keys;
      assert Done(j.fields, left) == map[];
      while left != {}
        invariant left <= entries.Keys && Valid() && Extends(c0, cells)
        invariant NewTree(c0, cells, Ref(r), Obj(Done(j.fields, left)))
        decreases left
      {
        var k := PickOne(left);
        ghost var c1 := cells;
        StillDenotes(c0, cells, entries[k], j.fields[k]);
        var copy := CloneValue(entries[k], j.fields[k]);
        FillOneMore(c0, c1, cells, r, Done(j.fields, left), k, copy, j.fields[k]);
        DoneOneMore(j.fields, left, k);
        cells := cells[r := cells[r][k := copy]];
        left := left - {k};
      }
      assert Done(j.fields, {}) == j.fields;
    }

    method CloneSlice(items: seq<Val>, ghost j: Json) returns (copies: seq<Val>)
      requires Valid() && j.Arr? && Denotes(cells, List(items), j)
      modifies this
      ensures Valid() && Extends(old(cells), cells) && NewTree(old(cells), cells, List(copies), j)
      decreases j, 0
    {
      ghost var c0 := cells;
      copies := [];
      for i := 0 to |items|
        invariant |copies| == i && Valid() && Extends(c0, cells)
        invariant forall n | 0 <= n < i :: Denotes(cells, copies[n], j.items[n]) && Foot(cells, copies[n], j.items[n]) !! c0.Keys
      {
        ghost var c1 := cells;
        StillDenotes(c0, cells, items[i], j.items[i]);
        var copy := CloneValue(items[i], j.items[i]);
        forall n | 0 <= n < i ensures Denotes(cells, copies[n], j.items[n]) && Foot(cells, copies[n], j.items[n]) !! c0.Keys {
          StillDenotes(c1, cells, copies[n], j.items[n]);
        }
        copies := copies + [copy];
      }
    }

    method MergeMaps(base: Addr, over: Addr, ghost bj: Json, ghost oj: Json) returns (r: Addr)
      requires Valid() && bj.Obj? && oj.Obj? && Denotes(cells, Ref(base), bj) && Tree(cells, Ref(base), bj)
      requires Denotes(cells, Ref(over), oj) && Foot(cells, Ref(base), bj) !! Foot(cells, Ref(over), oj)
      modifies this
      ensures Valid() && Confined(old(cells), cells, Foot(old(cells), Ref(base), bj))
      ensures TreeIn(old(cells), cells, Ref(r), Merge(bj, oj), Foot(old(cells), Ref(base), bj))
      decreases oj, 3
    {
      MergeEmpty(bj, oj);
      if |cells[base]| == 0 {
        r := CloneMap(over, oj);
        return;
      }
      if |cells[over]| == 0 {
        return base;
      }
      MergeEntries(base, over, bj, oj);
      PartlyAll(bj, oj);
      return base;
    }

    /** The loop over the override. */
    method MergeEntries(base: Addr, over: Addr, ghost bj: Json, ghost oj: Json)
      requires Valid() && bj.Obj? && oj.Obj? && Denotes(cells, Ref(base), bj) && Tree(cells, Ref(base), bj)
      requires Denotes(cells, Ref(over), oj) && Foot(cells, Ref(base), bj) !! Foot(cells, Ref(over), oj)
      modifies this
      ensures Valid() && Confined(old(cells), cells, Foot(old(cells), Ref(base), bj))
      ensures TreeIn(old(cells), cells, Ref(base), Obj(Partly(bj, oj, {})), Foot(old(cells), Ref(base), bj))
      decreases oj, 2
    {
      ghost var c0, region := cells, Foot(cells, Ref(base), bj);
      FootAllocated(cells, Ref(base), bj);
      var entries := cells[over];
      var left := entries.Keys;
      PartlyNothing(bj, oj);
      ghost var j := bj;
      while left != {}
        invariant left <= entries.Keys && Valid() && Confined(c0, cells, region)
        invariant j == Obj(Partly(bj, oj, left)) && TreeIn(c0, cells, Ref(base), j, region)
        decreases left
      {
        var k := PickOne(left);
        EntryReady(c0, cells, over, oj, k, base, j, region);
        PartlyOneMore(bj, oj, left, k);
        StoreMerged(base, k, entries[k], j, oj.fields[k], c0, region);
        left := left - {k};
        j := Obj(j.fields[k := MergedKey(bj, oj, k)]);
      }
    }

    /** One turn of the loop. */
    method StoreMerged(base: Addr, k: string, value: Val, ghost j: Json, ghost vj: Json, ghost c0: Cells, ghost region: set<Addr>)
      requires Valid() && j.Obj? && region <= c0.Keys && base in region
      requires Confined(c0, cells, region) && TreeIn(c0, cells, Ref(base), j, region)
      requires Denotes(cells, value, vj) && Foot(cells, value, vj) !! Foot(cells, Ref(base), j)
      modifies this
      ensures Valid() && Confined(c0, cells, region)
      ensures TreeIn(c0, cells, Ref(base), Obj(j.fields[k := if k in j.fields then Merge(j.fields[k], vj) else vj]), region)
      decreases vj, 5
    {
      ghost var c1 := cells;
      var v := MergeKey(base, k, value, j, vj);
      MergeOneMore(c0, c1, cells, base, j, k, v, if k in j.fields then Merge(j.fields[k], vj) else vj, region);
      cells := cells[base := cells[base][k := v]];
    }

    /** The new value for one key of the override. */
    method MergeKey(base: Addr, k: string, value: Val, ghost bj: Json, ghost vj: Json) returns (v: Val)
      requires Valid() && bj.Obj? && Denotes(cells, Ref(base), bj) && Tree(cells, Ref(base), bj)
      requires Denotes(cells, value, vj) && Foot(cells, value, vj) !! Foot(cells, Ref(base), bj)
      modifies this
      ensures Valid() && Confined(old(cells), cells, Below(old(cells), base, bj, k))
      ensures TreeIn(old(cells), cells, v, if k in bj.fields then Merge(bj.fields[k], vj) else vj, Below(old(cells), base, bj, k))
      decreases vj, 4
    {
      RefIsObj(cells, value, vj);
      if k in cells[base] {
        RefIsObj(cells, cells[base][k], bj.fields[k]);
        if cells[base][k].Ref? && value.Ref? {
          assert Foot(cells, cells[base][k], bj.fields[k]) <= Foot(cells, Ref(base), bj);
          var a := MergeMaps(cells[base][k].addr, value.addr, bj.fields[k], vj);
          return Ref(a);
        }
      }
      v := CloneValue(value, vj);
    }

    /** The defaults and the request, and every other map there was, stay as they are. */
    method MergeRequestPayload(defaults: Addr, request: Addr, model: string, ghost dj: Json, ghost qj: Json) returns (r: Addr)
      requires Valid() && dj.Obj? && qj.Obj? && Denotes(cells, Ref(defaults), dj) && Denotes(cells, Ref(request), qj)
      modifies this
      ensures Valid() && Extends(old(cells), cells)
      ensures Denotes(cells, Ref(r), Obj(Merge(dj, qj).fields["model" := Leaf(model)]))
      ensures Denotes(cells, Ref(defaults), dj) && Denotes(cells, Ref(request), qj)
    {
      ghost var c0 := cells;
      var merged := CloneMap(defaults, dj);
      StillDenotes(c0, cells, Ref(request), qj);
      FootAllocated(c0, Ref(request), qj);
      ghost var c1 := cells;
      r := MergeMaps(merged, request, dj, qj);
      ghost var c2 := cells;
      SiblingsKept(c2, c2, r, Merge(dj, qj), "model");
      PutKey(c2, r, Merge(dj, qj).fields, "model", Scalar(model), Leaf(model));
      cells := cells[r := cells[r]["model" := Scalar(model)]];
      assert r in Foot(c2, Ref(r), Merge(dj, qj));
      StillDenotes(c0, cells, Ref(defaults), dj);
      StillDenotes(c0, cells, Ref(request), qj);
    }
  }
}
