/**
 The deep copy of catalog values as it runs (catalogs/catalogs.go): a visited
 table filled before the contents of a node are copied, so that cycles end and
 shared nodes stay shared.
 */
module CatalogClone {
  import opened Basics
  import opened CatalogGraph

  /** A struct with unexported fields stops the copy. */
  datatype CloneError = UnexportedFields(typ: int)

  /** No closed set of nodes with `from` and `refs` in it leaves out one of `now`. */
  ghost predicate Least(memory: Memory, from: set<Visit>, refs: set<Visit>, now: set<Visit>) {
    forall nodes :: Closed(memory, nodes) && from <= nodes && refs <= nodes ==> now <= nodes
  }

  /** Whatever reaches from `refs` includes a struct that hides fields. */
  ghost predicate Hiding(memory: Memory, refs: set<Visit>) {
    forall nodes :: Closed(memory, nodes) && refs <= nodes ==>
      exists x :: x in nodes && x in memory && !AllExported(memory[x])
  }

  lemma LeastStep(memory: Memory, from: set<Visit>, refs: set<Visit>, mid: set<Visit>, more: set<Visit>,
      all: set<Visit>, now: set<Visit>)
    requires Least(memory, from, refs, mid) && Least(memory, mid, more, now) && refs <= all && more <= all
    ensures Least(memory, from, all, now)
  {
  }

  lemma MoreImages(vs: seq<Value>, i: nat, f: Copies, g: Copies)
    requires i < |vs| && RefsOfAll(vs[..i]) <= f.Keys && Extends(f, g) && Refs(vs[i]) <= g.Keys
    ensures RefsOfAll(vs[..i + 1]) <= g.Keys
    ensures ImageOfAll(vs[..i + 1], g) == ImageOfAll(vs[..i], f) + [Image(vs[i], g)]
  {
    ImagesStable(vs[..i], f, g);
    var more := vs[..i + 1];
    forall j | 0 <= j < |more| ensures Refs(more[j]) <= g.Keys {
      if j < i { assert more[j] == vs[..i][j]; }
    }
    forall j | 0 <= j < i ensures ImageOfAll(more, g)[j] == ImageOfAll(vs[..i], g)[j] {
      assert more[j] == vs[..i][j];
    }
  }

  lemma RefsGrow(vs: seq<Value>, i: nat)
    requires i < |vs|
    ensures Refs(vs[i]) <= RefsOfAll(vs) && RefsOfAll(vs[..i]) <= RefsOfAll(vs)
    ensures RefsOfAll(vs[..i + 1]) == RefsOfAll(vs[..i]) + Refs(vs[i])
  {
    var more := vs[..i + 1];
    forall x | x in RefsOfAll(vs[..i]) + Refs(vs[i]) ensures x in RefsOfAll(more) {
      if x in Refs(vs[i]) {
        assert x in Refs(more[i]);
      } else {
        var j :| 0 <= j < i && x in Refs(vs[..i][j]);
        assert x in Refs(more[j]);
      }
    }
    forall x | x in RefsOfAll(more) ensures x in RefsOfAll(vs[..i]) + Refs(vs[i]) {
      var j :| 0 <= j < |more| && x in Refs(more[j]);
      if j < i { assert x in Refs(vs[..i][j]); }
    }
    forall x | x in RefsOfAll(vs[..i]) ensures x in RefsOfAll(vs) {
      var j :| 0 <= j < i && x in Refs(vs[..i][j]);
      assert x in Refs(vs[j]);
    }
  }

  /** The copies of open nodes are being filled by others. */
  ghost predicate Untouched(f: Copies, out: Memory, out': Memory, open: set<Visit>) {
    forall z :: z in open && z in f ==> f[z] in out && f[z] in out' && out'[f[z]] == out[f[z]]
  }

  /** The cloner's state. */
  datatype Stage = Stage(next: nat, copies: Copies, out: Memory)

  ghost predicate Good(memory: Memory, limit: nat, s: Stage, open: set<Visit>) {
    Sound(memory, limit) && Copying(memory, limit, s.next, s.copies, s.out, open)
  }

  /** From `s` to `t` the copies grew, and those in `open` were left alone. */
  ghost predicate Later(s: Stage, t: Stage, open: set<Visit>) {
    Extends(s.copies, t.copies) && Untouched(s.copies, s.out, t.out, open)
  }

  /** `value` is the image of `v`, every node it reaches having been copied, and no other. */
  ghost predicate Cloned(memory: Memory, s: Stage, t: Stage, v: Value, value: Value) {
    && Refs(v) <= t.copies.Keys && value == Image(v, t.copies) && Exported(v)
    && Least(memory, s.copies.Keys, Refs(v), t.copies.Keys)
  }

  /** The same for the first `i` of `vs`. */
  ghost predicate ClonedSome(memory: Memory, s: Stage, t: Stage, vs: seq<Value>, i: nat, clones: seq<Value>)
    requires i <= |vs|
  {
    && RefsOfAll(vs[..i]) <= t.copies.Keys && clones == ImageOfAll(vs[..i], t.copies)
    && (forall j :: 0 <= j < i ==> Exported(vs[j]))
    && Least(memory, s.copies.Keys, RefsOfAll(vs[..i]), t.copies.Keys)
  }

  lemma ClonedNext(memory: Memory, s: Stage, t: Stage, u: Stage, vs: seq<Value>, i: nat, clones: seq<Value>,
      value: Value)
    requires i < |vs| && ClonedSome(memory, s, t, vs, i, clones) && Cloned(memory, t, u, vs[i], value)
    requires Extends(t.copies, u.copies)
    ensures ClonedSome(memory, s, u, vs, i + 1, clones + [value])
  {
    RefsGrow(vs, i);
    MoreImages(vs, i, t.copies, u.copies);
    LeastStep(memory, s.copies.Keys, RefsOfAll(vs[..i]), t.copies.Keys, Refs(vs[i]), RefsOfAll(vs[..i + 1]),
      u.copies.Keys);
  }

  lemma LaterTrans(s: Stage, t: Stage, u: Stage, open: set<Visit>)
    requires Later(s, t, open) && Later(t, u, open)
    ensures Later(s, u, open)
  {
  }

  /** In the middle of the loop over the parts of a value. */
  ghost predicate Going(memory: Memory, limit: nat, open: set<Visit>, s: Stage, t: Stage, vs: seq<Value>, i: nat,
      clones: seq<Value>)
    requires i <= |vs|
  {
    Good(memory, limit, t, open) && Later(s, t, open) && ClonedSome(memory, s, t, vs, i, clones)
  }

  lemma GoingStart(memory: Memory, limit: nat, open: set<Visit>, s: Stage, vs: seq<Value>)
    requires Good(memory, limit, s, open)
    ensures Going(memory, limit, open, s, s, vs, 0, [])
  {
    assert RefsOfAll(vs[..0]) == {};
  }

  lemma GoingOn(memory: Memory, limit: nat, open: set<Visit>, s: Stage, t: Stage, u: Stage, vs: seq<Value>, i: nat,
      clones: seq<Value>, value: Value)
    requires i < |vs| && Going(memory, limit, open, s, t, vs, i, clones)
    requires Good(memory, limit, u, open) && Later(t, u, open) && Cloned(memory, t, u, vs[i], value)
    ensures Going(memory, limit, open, s, u, vs, i + 1, clones + [value])
  {
    ClonedNext(memory, s, t, u, vs, i, clones, value);
    LaterTrans(s, t, u, open);
  }

  /** How many nodes are not copied yet. */
  ghost function Left(memory: Memory, f: Copies): nat {
    |memory.Keys - f.Keys|
  }

  lemma LeftShrinks(memory: Memory, f: Copies, g: Copies)
    requires Extends(f, g)
    ensures Left(memory, g) <= Left(memory, f)
  {
    Fewer(memory.Keys - g.Keys, memory.Keys - f.Keys);
  }

  lemma LeftDrops(memory: Memory, f: Copies, x: Visit, y: Visit)
    requires x in memory && x !in f
    ensures Left(memory, f[x := y]) < Left(memory, f)
  {
    assert memory.Keys - f.Keys == memory.Keys - f[x := y].Keys + {x};
  }

  lemma {:induction false} Fewer(a: set<Visit>, b: set<Visit>)
    requires a <= b
    ensures |a| <= |b|
  {
    if a != {} {
      var x :| x in a;
      Fewer(a - {x}, b - {x});
    }
  }

  lemma PartKnown(v: Value, i: nat)
    requires v.Composite? && i < |v.parts|
    ensures Refs(v.parts[i]) <= Refs(v)
  {
  }

  lemma ClonedComposite(memory: Memory, s: Stage, t: Stage, v: Value, clones: seq<Value>)
    requires v.Composite? && v.exported && ClonedSome(memory, s, t, v.parts, |v.parts|, clones)
    ensures Cloned(memory, s, t, v, Composite(v.typ, v.exported, clones))
  {
    assert v.parts[..|v.parts|] == v.parts;
    assert RefsOfAll(v.parts) == Refs(v);
  }

  /** A part that cannot be cloned is why the whole cannot. */
  lemma PartHides(memory: Memory, v: Value, i: nat)
    requires v.Composite? && i < |v.parts| && (!Exported(v.parts[i]) || Hiding(memory, Refs(v.parts[i])))
    ensures !Exported(v) || Hiding(memory, Refs(v))
  {
    RefsGrow(v.parts, i);
    assert RefsOfAll(v.parts) == Refs(v);
  }

  class Cloner {
    const memory: Memory
    const limit: nat
    var next: nat
    var visited: Copies
    var out: Memory

    ghost function Now(): Stage
      reads this
    {
      Stage(next, visited, out)
    }

    constructor (memory: Memory, limit: nat)
      requires Sound(memory, limit)
      ensures this.memory == memory && this.limit == limit
      ensures visited == map[] && Good(memory, limit, Now(), {})
    {
      this.memory := memory;
      this.limit := limit;
      next, visited, out := limit, map[], map[];
    }

    /**
     One value: its image, having copied every node it reaches and no other; or an error exactly because
     something it reaches hides fields.
     */
    method CloneValue(v: Value, ghost open: set<Visit>) returns (r: Result<Value, CloneError>)
      requires Good(memory, limit, Now(), open) && Refs(v) <= memory.Keys
      modifies this
      ensures r.Ok? ==> Good(memory, limit, Now(), open) && Later(old(Now()), Now(), open) && Cloned(memory,
        old(Now()), Now(), v, r.value)
      ensures r.Err? ==> !Exported(v) || Hiding(memory, Refs(v))
      decreases Left(memory, visited), 0, v, 1
    {
      match v {
        case Scalar(_) => return Ok(v);
        case Nil(_) => return Ok(v);
        case Boxed(typ, inner) =>
          var cloned := CloneValue(inner, open);
          if cloned.Err? {
            return cloned;
          }
          return Ok(Boxed(typ, cloned.value));
        case Ref(to) =>
          if to in visited {
            return Ok(Ref(visited[to]));
          }
          var failed := CloneNode(to, open);
          if failed.Some? {
            return Err(failed.value);
          }
          return Ok(Ref(visited[to]));
        case Composite(typ, exported, parts) =>
          if !exported {
            return Err(UnexportedFields(typ));
          }
          r := CloneParts(v, open);
      }
    }

    /** The loop over the elements of an array or the fields of a struct. */
    method CloneParts(v: Value, ghost open: set<Visit>) returns (r: Result<Value, CloneError>)
      requires Good(memory, limit, Now(), open) && Refs(v) <= memory.Keys && v.Composite? && v.exported
      modifies this
      ensures r.Ok? ==> Good(memory, limit, Now(), open) && Later(old(Now()), Now(), open) && Cloned(memory,
        old(Now()), Now(), v, r.value)
      ensures r.Err? ==> !Exported(v) || Hiding(memory, Refs(v))
      decreases Left(memory, visited), 0, v, 0
    {
      hide Copying, Sound, Untouched, Least, Hiding, ClonedSome, Cloned;
      ghost var start := Now();
      var clones: seq<Value> := [];
      GoingStart(memory, limit, open, start, v.parts);
      for i := 0 to |v.parts|
        invariant Going(memory, limit, open, start, Now(), v.parts, i, clones)
      {
        ghost var before := Now();
        PartKnown(v, i);
        LeftShrinks(memory, start.copies, visited);
        var cloned := CloneValue(v.parts[i], open);
        if cloned.Err? {
          PartHides(memory, v, i);
          return Err(cloned.error);
        }
        GoingOn(memory, limit, open, start, before, Now(), v.parts, i, clones, cloned.value);
        clones := clones + [cloned.value];
      }
      ClonedComposite(memory, start, Now(), v, clones);
      r := Ok(Composite(v.typ, v.exported, clones));
    }

    /** Reserves the copy of a node not seen before, then fills it. */
    method CloneNode(x: Visit, ghost open: set<Visit>) returns (failed: Option<CloneError>)
      requires Good(memory, limit, Now(), open) && x in memory && x !in visited
      modifies this
      ensures failed.None? ==> Good(memory, limit, Now(), open) && Later(old(Now()), Now(), open) && x in visited
      ensures failed.None? ==> Least(memory, old(visited.Keys), {x}, visited.Keys)
      ensures failed.Some? ==> Hiding(memory, {x})
      decreases Left(memory, visited), 0, Ref(x), 0
    {
      ghost var start := Now();
      Reserve(x, open);
      ghost var reserved := Now();
      failed := Fill(x, open);
      if failed.None? {
        NodeDone(memory, start, reserved, Now(), open, x);
      }
    }

    /** The empty copy of a node, entered in the visited table before anything is cloned into it. */
    method Reserve(x: Visit, ghost open: set<Visit>)
      requires Good(memory, limit, Now(), open) && x in memory && x !in visited
      modifies this
      ensures Good(memory, limit, Now(), open + {x}) && Later(old(Now()), Now(), open)
      ensures visited.Keys == old(visited.Keys) + {x} && visited[x] in out && out[visited[x]] == []
      ensures x !in open && Left(memory, visited) < Left(memory, old(visited))
    {
      var y := Visit(x.kind, x.typ, next, x.len, if x.kind.SliceKind? then x.len else x.cap);
      Opened(memory, limit, Now(), open, x, y);
      LeftDrops(memory, visited, x, y);
      next, visited, out := next + 1, visited[x := y], out[y := []];
    }

    /** Sets one more element of a node. */
    method Put(x: Visit, i: nat, clones: seq<Value>, value: Value, ghost open: set<Visit>, ghost start: Stage,
        ghost before: Stage)
      requires Filling(memory, limit, open, start, before, x, i, clones) && i < |memory[x]|
      requires Good(memory, limit, Now(), open + {x}) && Later(before, Now(), open + {x})
        && Cloned(memory, before, Now(), memory[x][i], value)
      modifies this`out
      ensures Filling(memory, limit, open, start, Now(), x, i + 1, clones + [value])
    {
      ghost var now := Now();
      out := out[visited[x] := clones + [value]];
      FillingOn(memory, limit, open, start, before, now, out, x, i, clones, value);
    }

    /** The loop over the contents of a reserved node, which are written as they are cloned. */
    method Fill(x: Visit, ghost open: set<Visit>) returns (failed: Option<CloneError>)
      requires Good(memory, limit, Now(), open + {x}) && x in memory && x !in open
      requires x in visited && visited[x] in out && out[visited[x]] == []
      modifies this
      ensures failed.None? ==> Good(memory, limit, Now(), open) && Later(old(Now()), Now(), open)
      ensures failed.None? ==> Least(memory, old(visited.Keys), RefsOfAll(memory[x]), visited.Keys)
      ensures failed.Some? ==> Hiding(memory, {x})
      decreases Left(memory, visited), 1, Ref(x), 0
    {
      ghost var start := Now();
      var contents := memory[x];
      var clones: seq<Value> := [];
      FillingStart(memory, limit, open, start, x);
      for i := 0 to |contents|
        invariant Filling(memory, limit, open, start, Now(), x, i, clones)
      {
        ghost var before := Now();
        FillingGives(memory, limit, open, start, before, x, i, clones);
        var cloned := CloneValue(contents[i], open + {x});
        if cloned.Err? {
          ContentsHide(memory, x, i);
          return Some(cloned.error);
        }
        Put(x, i, clones, cloned.value, open, start, before);
        clones := clones + [cloned.value];
      }
      Closing(memory, limit, start, Now(), open, x, clones);
      return None;
    }
  }

  /** In the middle of the loop over the contents of a node. */
  ghost predicate Filling(memory: Memory, limit: nat, open: set<Visit>, s: Stage, t: Stage, x: Visit, i: nat,
      clones: seq<Value>) {
    && x in memory && i <= |memory[x]| && x !in open && open <= s.copies.Keys && x in s.copies && x in t.copies
      && s.copies[x] in t.out && t.copies[x] == s.copies[x]
    && Good(memory, limit, t, open + {x}) && Later(s, t, open)
    && ClonedSome(memory, s, t, memory[x], i, clones) && t.out[s.copies[x]] == clones
  }

  lemma FillingStart(memory: Memory, limit: nat, open: set<Visit>, s: Stage, x: Visit)
    requires Good(memory, limit, s, open + {x}) && x in memory && x !in open
    requires x in s.copies && s.copies[x] in s.out && s.out[s.copies[x]] == []
    ensures Filling(memory, limit, open, s, s, x, 0, [])
  {
    assert RefsOfAll(memory[x][..0]) == {};
    assert x in open + {x};
  }

  lemma FillingGives(memory: Memory, limit: nat, open: set<Visit>, s: Stage, t: Stage, x: Visit, i: nat,
      clones: seq<Value>)
    requires Filling(memory, limit, open, s, t, x, i, clones)
    ensures Left(memory, t.copies) <= Left(memory, s.copies)
    ensures i < |memory[x]| ==> Refs(memory[x][i]) <= memory.Keys
  {
    LeftShrinks(memory, s.copies, t.copies);
    if i < |memory[x]| { ContentsKnown(memory, x, i); }
  }

  lemma FillingOn(memory: Memory, limit: nat, open: set<Visit>, s: Stage, t: Stage, u: Stage, out: Memory, x: Visit,
      i: nat, clones: seq<Value>, value: Value)
    requires Filling(memory, limit, open, s, t, x, i, clones) && i < |memory[x]|
    requires Good(memory, limit, u, open + {x}) && Later(t, u, open + {x}) && Cloned(memory, t, u, memory[x][i], value)
    requires out == u.out[s.copies[x] := clones + [value]]
    ensures Filling(memory, limit, open, s, Stage(u.next, u.copies, out), x, i + 1, clones + [value])
  {
    ClonedNext(memory, s, t, u, memory[x], i, clones, value);
    Written(memory, limit, s, t, u, open, x, clones + [value]);
  }

  lemma NodeDone(memory: Memory, s: Stage, t: Stage, u: Stage, open: set<Visit>, x: Visit)
    requires x in memory && t.copies.Keys == s.copies.Keys + {x}
    requires Later(s, t, open) && Later(t, u, open) && Least(memory, t.copies.Keys, RefsOfAll(memory[x]), u.copies.Keys)
    ensures Later(s, u, open) && Least(memory, s.copies.Keys, {x}, u.copies.Keys)
  {
  }

  lemma Opened(memory: Memory, limit: nat, s: Stage, open: set<Visit>, x: Visit, y: Visit)
    requires Good(memory, limit, s, open) && x in memory && x !in s.copies && Alike(x, y) && y.address == s.next
    ensures var t := Stage(s.next + 1, s.copies[x := y], s.out[y := []]);
      Good(memory, limit, t, open + {x}) && Later(s, t, open)
  {
    OpenNode(memory, limit, s.next, s.copies, s.out, open, x, y);
  }

  lemma ContentsKnown(memory: Memory, x: Visit, i: nat)
    requires Closed(memory, memory.Keys) && x in memory && i < |memory[x]|
    ensures Refs(memory[x][i]) <= memory.Keys
  {
    RefsGrow(memory[x], i);
  }

  lemma Written(memory: Memory, limit: nat, start: Stage, before: Stage, s: Stage, open: set<Visit>, x: Visit,
      contents: seq<Value>)
    requires Good(memory, limit, s, open + {x}) && x in start.copies && x !in open && open <= start.copies.Keys
    requires Later(start, before, open) && Later(before, s, open + {x})
    ensures var t := s.(out := s.out[s.copies[x] := contents]);
      Good(memory, limit, t, open + {x}) && Later(start, t, open)
  {
    WriteNode(memory, limit, s.next, s.copies, s.out, open + {x}, x, contents);
    assert forall z :: z in open ==> s.copies[z] != s.copies[x];
  }

  lemma Closing(memory: Memory, limit: nat, start: Stage, s: Stage, open: set<Visit>, x: Visit, clones: seq<Value>)
    requires x in memory && Filling(memory, limit, open, start, s, x, |memory[x]|, clones)
    ensures Good(memory, limit, s, open) && Later(start, s, open)
      && Least(memory, start.copies.Keys, RefsOfAll(memory[x]), s.copies.Keys)
  {
    assert memory[x][..|memory[x]|] == memory[x];
    CloseNode(memory, limit, s.next, s.copies, s.out, open + {x}, x);
    assert open + {x} - {x} == open;
  }

  lemma ContentsHide(memory: Memory, x: Visit, i: nat)
    requires x in memory && i < |memory[x]|
    ensures !Exported(memory[x][i]) || Hiding(memory, Refs(memory[x][i])) ==> Hiding(memory, {x})
  {
    RefsGrow(memory[x], i);
  }

  /**
   Cloning a value of a finite, possibly cyclic graph: it succeeds exactly when
   nothing reachable hides fields; then the nodes copied are exactly the
   reachable ones, and the clone is their isomorphic image on new nodes.
   */
  method CloneCatalogValue(memory: Memory, limit: nat, v: Value)
      returns (r: Result<Value, CloneError>, f: Copies, out: Memory)
    requires Sound(memory, limit) && Refs(v) <= memory.Keys
    ensures r.Err? ==> !Exported(v) || Hiding(memory, Refs(v))
    ensures r.Ok? ==> Exported(v) && !Hiding(memory, Refs(v))
    ensures r.Ok? ==> Closed(memory, f.Keys) && Refs(v) <= f.Keys && Least(memory, {}, Refs(v), f.Keys)
    ensures r.Ok? ==> Injective(f) && r.value == Image(v, f) && out.Keys == f.Values
    ensures r.Ok? ==> forall x :: x in f ==>
      Alike(x, f[x]) && f[x] in out && RefsOfAll(memory[x]) <= f.Keys && out[f[x]] == ImageOfAll(memory[x], f)
    ensures r.Ok? ==> Closed(out, out.Keys) && Refs(r.value) <= out.Keys && out.Keys !! memory.Keys
  {
    hide Injective, Sound;
    var cloner := new Cloner(memory, limit);
    r := cloner.CloneValue(v, {});
    f, out := cloner.visited, cloner.out;
    if r.Ok? {
      CloneIsSeparate(memory, limit, cloner.next, f, out, v);
      forall x | x in f ensures Filled(memory, f, out, x) {}
      assert Closed(memory, f.Keys);
    }
  }
}
