/**
 Graphs of catalog values (catalogs/catalogs.go): what a deep copy of a
 possibly cyclic graph of pointers, maps and slices has to be.

 Memory is a map from references to their contents. A reference is what the
 code keys its visited table with; contents are the pointee, the elements, or
 the keys and entries of a map in turn.
 */
module CatalogGraph {

  datatype Kind = PointerKind | MapKind | SliceKind

  datatype Visit = Visit(kind: Kind, typ: int, address: nat, len: nat, cap: nat)

  /**
   `Composite` is an array, or a struct with or without unexported fields; immutable structs and plain values
   are scalars.
   */
  datatype Value =
    | Scalar(bits: int)
    | Nil(typ: int)
    | Ref(to: Visit)
    | Boxed(typ: int, inner: Value)
    | Composite(typ: int, exported: bool, parts: seq<Value>)

  type Memory = map<Visit, seq<Value>>

  // ---------- Reachability ----------

  function Refs(v: Value): set<Visit> {
    match v
    case Scalar(_) => {}
    case Nil(_) => {}
    case Ref(to) => {to}
    case Boxed(_, inner) => Refs(inner)
    case Composite(_, _, parts) => set i, x | 0 <= i < |parts| && x in Refs(parts[i]) :: x
  }

  function RefsOfAll(vs: seq<Value>): set<Visit> {
    set i, x | 0 <= i < |vs| && x in Refs(vs[i]) :: x
  }

  /** No struct inside `v` hides fields. */
  predicate Exported(v: Value) {
    match v
    case Boxed(_, inner) => Exported(inner)
    case Composite(_, exported, parts) => exported && forall i :: 0 <= i < |parts| ==> Exported(parts[i])
    case _ => true
  }

  predicate AllExported(vs: seq<Value>) {
    forall i :: 0 <= i < |vs| ==> Exported(vs[i])
  }

  /** What the references of `nodes` mention is among them. */
  ghost predicate Closed(memory: Memory, nodes: set<Visit>) {
    nodes <= memory.Keys && forall x :: x in nodes ==> RefsOfAll(memory[x]) <= nodes
  }

  ghost predicate Sound(memory: Memory, limit: nat) {
    && Closed(memory, memory.Keys)
    && (forall x :: x in memory ==> x.address < limit)
    && (forall x :: x in memory ==>
      (x.kind.PointerKind? ==> |memory[x]| == 1) && (x.kind.SliceKind? ==> |memory[x]| == x.len <= x.cap))
  }

  // ---------- Images ----------

  type Copies = map<Visit, Visit>

  /** `v` with every reference replaced by its copy. */
  function Image(v: Value, f: Copies): Value
    requires Refs(v) <= f.Keys
  {
    match v
    case Scalar(_) => v
    case Nil(_) => v
    case Ref(to) => Ref(f[to])
    case Boxed(typ, inner) => Boxed(typ, Image(inner, f))
    case Composite(typ, exported, parts) =>
      Composite(typ, exported, seq(|parts|, i requires 0 <= i < |parts| => assert Refs(parts[i]) <= Refs(v);
        Image(parts[i], f)))
  }

  function ImageOfAll(vs: seq<Value>, f: Copies): (r: seq<Value>)
    requires RefsOfAll(vs) <= f.Keys
    ensures |r| == |vs|
  {
    seq(|vs|, i requires 0 <= i < |vs| => assert Refs(vs[i]) <= RefsOfAll(vs); Image(vs[i], f))
  }

  ghost predicate Extends(f: Copies, g: Copies) {
    forall x :: x in f ==> x in g && g[x] == f[x]
  }

  lemma {:induction false} ImageStable(v: Value, f: Copies, g: Copies)
    requires Refs(v) <= f.Keys && Extends(f, g)
    ensures Refs(v) <= g.Keys && Image(v, f) == Image(v, g)
  {
    match v
    case Boxed(_, inner) => ImageStable(inner, f, g);
    case Composite(_, _, parts) =>
      forall i | 0 <= i < |parts| ensures Refs(parts[i]) <= Refs(v) && Image(parts[i], f) == Image(parts[i], g) {
        assert Refs(parts[i]) <= Refs(v);
        ImageStable(parts[i], f, g);
      }
    case _ =>
  }

  lemma ImagesStable(vs: seq<Value>, f: Copies, g: Copies)
    requires RefsOfAll(vs) <= f.Keys && Extends(f, g)
    ensures RefsOfAll(vs) <= g.Keys && ImageOfAll(vs, f) == ImageOfAll(vs, g)
  {
    forall i | 0 <= i < |vs| ensures Refs(vs[i]) <= RefsOfAll(vs) && Image(vs[i], f) == Image(vs[i], g) {
      assert Refs(vs[i]) <= RefsOfAll(vs);
      ImageStable(vs[i], f, g);
    }
  }

  ghost predicate Injective(f: Copies) {
    forall x, y :: x in f && y in f && f[x] == f[y] ==> x == y
  }

  /**
   Different values have different images: a copied map keeps its keys apart, and sharing is neither lost nor
   invented.
   */
  lemma {:induction false} ImageInjective(v: Value, w: Value, f: Copies)
    requires Refs(v) <= f.Keys && Refs(w) <= f.Keys && Injective(f) && Image(v, f) == Image(w, f)
    ensures v == w
  {
    match v
    case Boxed(_, inner) => ImageInjective(inner, w.inner, f);
    case Composite(_, _, parts) =>
      assert |parts| == |w.parts|;
      forall i | 0 <= i < |parts| ensures parts[i] == w.parts[i] {
        assert Refs(parts[i]) <= Refs(v) && Refs(w.parts[i]) <= Refs(w);
        assert Image(v, f).parts[i] == Image(w, f).parts[i];
        ImageInjective(parts[i], w.parts[i], f);
      }
    case _ =>
  }

  // ---------- Clones ----------

  /** A copy has its original's kind and type; a slice's capacity is trimmed to its length. */
  predicate Alike(x: Visit, y: Visit) {
    y.kind == x.kind && y.typ == x.typ && (x.kind.SliceKind? ==> y.len == x.len && y.cap == x.len)
  }

  /**
   `f` copies the nodes it names into `out`: at new addresses from `limit` up,
   one to one, contents replaced by their images. `open` are copied but not yet filled.
   */
  ghost predicate Copying(memory: Memory, limit: nat, next: nat, f: Copies, out: Memory, open: set<Visit>) {
    && f.Keys <= memory.Keys && open <= f.Keys && limit <= next
    && (forall x :: x in f ==> Alike(x, f[x]) && limit <= f[x].address < next && f[x] in out)
    && (forall x, y :: x in f && y in f && f[x].address == f[y].address ==> x == y)
    && (forall y :: y in out ==> exists x :: x in f && f[x] == y)
    && (forall x :: x in f && x !in open ==> Filled(memory, f, out, x))
  }

  ghost predicate Filled(memory: Memory, f: Copies, out: Memory, x: Visit)
    requires x in memory && x in f && f[x] in out
  {
    RefsOfAll(memory[x]) <= f.Keys && AllExported(memory[x]) && out[f[x]] == ImageOfAll(memory[x], f)
  }

  /** Reserving the copy of one more node. */
  lemma OpenNode(memory: Memory, limit: nat, next: nat, f: Copies, out: Memory, open: set<Visit>, x: Visit, y: Visit)
    requires Copying(memory, limit, next, f, out, open) && x in memory && x !in f && Alike(x, y) && y.address == next
    ensures Copying(memory, limit, next + 1, f[x := y], out[y := []], open + {x}) && Extends(f, f[x := y])
  {
    var f', out' := f[x := y], out[y := []];
    forall z | z in f' && z !in open + {x} ensures Filled(memory, f', out', z) {
      ImagesStable(memory[z], f, f');
    }
    forall z | z in out' ensures exists w :: w in f' && f'[w] == z {
      if z == y {
        assert f'[x] == y;
      } else {
        var w :| w in f && f[w] == z;
        assert f'[w] == z;
      }
    }
  }

  /** Writing part of an open node's contents. */
  lemma WriteNode(memory: Memory, limit: nat, next: nat, f: Copies, out: Memory, open: set<Visit>, x: Visit,
      contents: seq<Value>)
    requires Copying(memory, limit, next, f, out, open) && x in open
    ensures Copying(memory, limit, next, f, out[f[x] := contents], open)
  {
    var out' := out[f[x] := contents];
    forall z | z in f && z !in open ensures Filled(memory, f, out', z) {
      assert f[z] != f[x];
    }
  }

  /** An open node whose contents are written is filled. */
  lemma CloseNode(memory: Memory, limit: nat, next: nat, f: Copies, out: Memory, open: set<Visit>, x: Visit)
    requires Copying(memory, limit, next, f, out, open) && x in open && Filled(memory, f, out, x)
    ensures Copying(memory, limit, next, f, out, open - {x})
  {
  }

  // ---------- What a finished clone is ----------

  /** Nothing the clone reaches is a node of the original. */
  lemma {:induction false} FreshImage(memory: Memory, limit: nat, next: nat, f: Copies, out: Memory, v: Value)
    requires Sound(memory, limit) && Copying(memory, limit, next, f, out, {}) && Refs(v) <= f.Keys
    ensures Refs(Image(v, f)) <= out.Keys && Refs(Image(v, f)) !! memory.Keys
  {
    match v
    case Boxed(_, inner) => FreshImage(memory, limit, next, f, out, inner);
    case Composite(_, _, parts) =>
      forall i | 0 <= i < |parts|
        ensures Refs(Image(v, f).parts[i]) <= out.Keys && Refs(Image(v, f).parts[i]) !! memory.Keys {
        assert Refs(parts[i]) <= Refs(v);
        FreshImage(memory, limit, next, f, out, parts[i]);
      }
    case _ =>
  }

  lemma FreshImages(memory: Memory, limit: nat, next: nat, f: Copies, out: Memory, vs: seq<Value>)
    requires Sound(memory, limit) && Copying(memory, limit, next, f, out, {}) && RefsOfAll(vs) <= f.Keys
    ensures RefsOfAll(ImageOfAll(vs, f)) <= out.Keys && RefsOfAll(ImageOfAll(vs, f)) !! memory.Keys
  {
    forall i | 0 <= i < |vs|
      ensures Refs(ImageOfAll(vs, f)[i]) <= out.Keys && Refs(ImageOfAll(vs, f)[i]) !! memory.Keys {
      assert Refs(vs[i]) <= RefsOfAll(vs);
      FreshImage(memory, limit, next, f, out, vs[i]);
    }
  }

  /** A finished clone is a graph of its own: closed, and disjoint from the original. */
  lemma CloneIsSeparate(memory: Memory, limit: nat, next: nat, f: Copies, out: Memory, v: Value)
    requires Sound(memory, limit) && Copying(memory, limit, next, f, out, {}) && Refs(v) <= f.Keys
    ensures Closed(out, out.Keys) && out.Keys !! memory.Keys
    ensures Refs(Image(v, f)) <= out.Keys && Injective(f)
  {
    FreshImage(memory, limit, next, f, out, v);
    forall y | y in out ensures RefsOfAll(out[y]) <= out.Keys && y !in memory {
      var x :| x in f && f[x] == y;
      assert Filled(memory, f, out, x);
      FreshImages(memory, limit, next, f, out, memory[x]);
    }
  }
}
