/**
  Request payloads of internal/poolgateway/openai_responses.go: JSON values, the pure
  right-biased deep merge, and a memory of maps in which the same values live by reference.
 */
module PayloadModel {
  import opened Prelude

  /** Any scalar, null included, is a leaf. */
  datatype Json = Leaf(text: string) | Arr(items: seq<Json>) | Obj(fields: map<string, Json>)

  /** Objects merge key by key; anything else in the override wins. */
  function Merge(base: Json, over: Json): Json
    decreases over
  {
    if !base.Obj? || !over.Obj? then over
    else Obj(map k | k in base.fields.Keys + over.fields.Keys ::
      if k !in over.fields then base.fields[k]
      else if k !in base.fields then over.fields[k]
      else Merge(base.fields[k], over.fields[k]))
  }

  // What a merge means, path by path ---------------------------------------------------------

  function Lookup(j: Json, path: seq<string>): Option<Json> {
    if path == [] then Some(j)
    else if j.Obj? && path[0] in j.fields then Lookup(j.fields[path[0]], path[1..])
    else None
  }

  /** On the way down the path there is a value without fields. */
  ghost predicate Cut(j: Json, path: seq<string>) {
    exists n :: 0 <= n < |path| && Lookup(j, path[..n]).Some? && !Lookup(j, path[..n]).value.Obj?
  }

  lemma {:induction false} CutBelow(j: Json, path: seq<string>)
    requires path != [] && j.Obj? && path[0] in j.fields
    ensures Cut(j, path) <==> Cut(j.fields[path[0]], path[1..])
  {
    var below := j.fields[path[0]];
    if Cut(j, path) {
      var n :| 0 <= n < |path| && Lookup(j, path[..n]).Some? && !Lookup(j, path[..n]).value.Obj?;
      assert n > 0;
      assert path[..n][1..] == path[1..][..n - 1];
    }
    if Cut(below, path[1..]) {
      var n :| 0 <= n < |path| - 1 && Lookup(below, path[1..][..n]).Some? && !Lookup(below, path[1..][..n]).value.Obj?;
      assert path[..n + 1][1..] == path[1..][..n];
    }
  }

  lemma NothingThere(j: Json, path: seq<string>)
    requires path != [] && j.Obj? && path[0] !in j.fields
    ensures !Cut(j, path)
  {
    forall n | 0 <= n < |path| ensures Lookup(j, path[..n]).Some? ==> Lookup(j, path[..n]).value.Obj? {
      if n > 0 { assert path[..n][0] == path[0]; }
    }
  }

  lemma LeafCuts(j: Json, path: seq<string>)
    requires path != [] && !j.Obj?
    ensures Cut(j, path) && Lookup(j, path) == None
  {
    assert path[..0] == [];
  }

  /** Right bias: the override decides wherever it says something, the base everywhere else. */
  lemma {:induction false} MergedLookup(base: Json, over: Json, path: seq<string>)
    ensures Lookup(Merge(base, over), path) ==
      if Lookup(over, path).Some? then
        if Lookup(base, path).Some? then Some(Merge(Lookup(base, path).value, Lookup(over, path).value)) else Lookup(over, path)
      else if Cut(over, path) then None
      else Lookup(base, path)
    decreases |path|
  {
    if path != [] {
      if !over.Obj? {
        LeafCuts(over, path);
      } else if path[0] !in over.fields {
        NothingThere(over, path);
      } else {
        CutBelow(over, path);
        if base.Obj? && path[0] in base.fields {
          MergedLookup(base.fields[path[0]], over.fields[path[0]], path[1..]);
        } else {
          OnlyOver(over.fields[path[0]], path[1..]);
        }
      }
    }
  }

  lemma {:induction false} OnlyOver(j: Json, path: seq<string>)
    ensures Cut(j, path) ==> Lookup(j, path) == None
    decreases |path|
  {
    if path != [] && j.Obj? && path[0] in j.fields {
      CutBelow(j, path);
      OnlyOver(j.fields[path[0]], path[1..]);
    }
  }

  /** The keys of the object at a path, if there is an object. */
  function KeysAt(j: Json, path: seq<string>): set<string> {
    if Lookup(j, path).Some? && Lookup(j, path).value.Obj? then Lookup(j, path).value.fields.Keys else {}
  }

  /** The same without the merge itself: values without fields are the override's, objects have the keys of both. */
  lemma MergedValues(base: Json, over: Json, path: seq<string>)
    ensures var merged := Lookup(Merge(base, over), path); var o := Lookup(over, path);
      if o.Some? && o.value.Obj? then merged.Some? && merged.value.Obj? && merged.value.fields.Keys == KeysAt(base, path) + KeysAt(over, path)
      else if o.Some? || Cut(over, path) then merged == o
      else merged == Lookup(base, path)
  {
    MergedLookup(base, over, path);
    OnlyOver(over, path);
  }

  // Maps by reference ------------------------------------------------------------------------

  type Addr = nat

  /** What a map or slice holds; slices are never written to, so they are plain values. */
  datatype Val = Scalar(text: string) | List(items: seq<Val>) | Ref(addr: Addr)

  type Cells = map<Addr, map<string, Val>>

  /** v stands for j. */
  ghost predicate Denotes(cells: Cells, v: Val, j: Json)
    decreases j
  {
    match j
    case Leaf(text) => v == Scalar(text)
    case Arr(items) => v.List? && |v.items| == |items| && forall i | 0 <= i < |items| :: Denotes(cells, v.items[i], items[i])
    case Obj(fields) =>
      && v.Ref? && v.addr in cells && cells[v.addr].Keys == fields.Keys
      && forall k | k in fields :: Denotes(cells, cells[v.addr][k], fields[k])
  }

  /** The maps that v reaches. */
  ghost function Foot(cells: Cells, v: Val, j: Json): set<Addr>
    requires Denotes(cells, v, j)
    decreases j
  {
    match j
    case Leaf(_) => {}
    case Arr(items) => set i, a | 0 <= i < |items| && a in Foot(cells, v.items[i], items[i]) :: a
    case Obj(fields) => {v.addr} + set k, a | k in fields && a in Foot(cells, cells[v.addr][k], fields[k]) :: a
  }

  /** No map is reached twice through nested maps: writing to one leaves the others alone. */
  ghost predicate Tree(cells: Cells, v: Val, j: Json)
    requires Denotes(cells, v, j)
    decreases j
  {
    j.Obj? ==>
      && (forall k | k in j.fields :: v.addr !in Foot(cells, cells[v.addr][k], j.fields[k]) && Tree(cells, cells[v.addr][k], j.fields[k]))
      && (forall k, l | k in j.fields && l in j.fields && k != l ::
            Foot(cells, cells[v.addr][k], j.fields[k]) !! Foot(cells, cells[v.addr][l], j.fields[l]))
  }

  ghost predicate AgreeOn(cells: Cells, cells': Cells, addrs: set<Addr>) {
    forall a | a in addrs && a in cells :: a in cells' && cells'[a] == cells[a]
  }

  /** Nothing that v reaches changed, so v stands for the same value. */
  lemma {:induction false} Frame(cells: Cells, cells': Cells, v: Val, j: Json)
    requires Denotes(cells, v, j) && AgreeOn(cells, cells', Foot(cells, v, j))
    ensures Denotes(cells', v, j) && Foot(cells', v, j) == Foot(cells, v, j)
    decreases j
  {
    match j {
      case Leaf(_) =>
      case Arr(items) =>
        forall i | 0 <= i < |items| ensures Denotes(cells', v.items[i], items[i]) && Foot(cells', v.items[i], items[i]) == Foot(cells, v.items[i], items[i]) {
          Frame(cells, cells', v.items[i], items[i]);
        }
      case Obj(fields) =>
        assert cells'[v.addr] == cells[v.addr];
        forall k | k in fields ensures Denotes(cells', cells'[v.addr][k], fields[k]) && Foot(cells', cells'[v.addr][k], fields[k]) == Foot(cells, cells[v.addr][k], fields[k]) {
          Frame(cells, cells', cells[v.addr][k], fields[k]);
        }
    }
  }

  lemma {:induction false} FrameTree(cells: Cells, cells': Cells, v: Val, j: Json)
    requires Denotes(cells, v, j) && Tree(cells, v, j) && AgreeOn(cells, cells', Foot(cells, v, j))
    ensures Denotes(cells', v, j) && Tree(cells', v, j)
    decreases j
  {
    Frame(cells, cells', v, j);
    if j.Obj? {
      forall k | k in j.fields ensures Foot(cells', cells'[v.addr][k], j.fields[k]) == Foot(cells, cells[v.addr][k], j.fields[k]) && Tree(cells', cells'[v.addr][k], j.fields[k]) {
        assert Foot(cells, cells[v.addr][k], j.fields[k]) <= Foot(cells, v, j);
        Frame(cells, cells', cells[v.addr][k], j.fields[k]);
        FrameTree(cells, cells', cells[v.addr][k], j.fields[k]);
      }
    }
  }

  lemma {:induction false} FootAllocated(cells: Cells, v: Val, j: Json)
    requires Denotes(cells, v, j)
    ensures Foot(cells, v, j) <= cells.Keys
    decreases j
  {
    match j {
      case Leaf(_) =>
      case Arr(items) =>
        forall i | 0 <= i < |items| ensures Foot(cells, v.items[i], items[i]) <= cells.Keys { FootAllocated(cells, v.items[i], items[i]); }
      case Obj(fields) =>
        forall k | k in fields ensures Foot(cells, cells[v.addr][k], fields[k]) <= cells.Keys { FootAllocated(cells, cells[v.addr][k], fields[k]); }
    }
  }
}
