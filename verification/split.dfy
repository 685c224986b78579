/** `mesh_split_edge`: split the edge `(u, v)` of a halfedge mesh by
    inserting a new vertex `w`. The mesh keeps, for every vertex `a`, a map
    from each neighbour `b` to the face on the left of the halfedge
    `a -> b` (`None` on the boundary), and for every face the cyclic list
    of its vertices. */
module MeshSplit {
  import opened Outcomes
  import opened Space

  type Halfedges = map<int, map<int, Option<int>>>
  type Faces = map<int, seq<int>>

  /** The first position of `x` in `s` (Python's `list.index`). */
  function FirstIndex(s: seq<int>, x: int): (i: nat)
    requires x in s
    ensures i < |s| && s[i] == x && x !in s[..i]
  {
    if s[0] == x then 0
    else
      assert x in s[1..];
      var j := FirstIndex(s[1..], x);
      assert s[..j + 1] == [s[0]] + s[1..][..j];
      j + 1
  }

  /** `list.insert(list.index(x), w)`: `w` goes in immediately before the
      first `x`. */
  function InsertBefore(s: seq<int>, x: int, w: int): (r: seq<int>)
    requires x in s
  {
    var i := FirstIndex(s, x);
    s[..i] + [w] + s[i..]
  }

  /** The list grows by one: `w` sits immediately before the first `x`,
      and taking `w` out again gives back the list with its order kept. */
  lemma InsertBeforeSpec(s: seq<int>, x: int, w: int)
    requires x in s
    ensures var i := FirstIndex(s, x);
      && |InsertBefore(s, x, w)| == |s| + 1
      && InsertBefore(s, x, w)[i] == w && InsertBefore(s, x, w)[i + 1] == x
      && x !in InsertBefore(s, x, w)[..i]
      && InsertBefore(s, x, w)[..i] + InsertBefore(s, x, w)[i + 1..] == s
      && multiset(InsertBefore(s, x, w)) == multiset(s) + multiset{w}
  {
    InsertBeforeShape(s, x, w);
    InsertBeforeCount(s, x, w);
  }

  lemma InsertBeforeShape(s: seq<int>, x: int, w: int)
    requires x in s
    ensures var i := FirstIndex(s, x);
      && |InsertBefore(s, x, w)| == |s| + 1
      && InsertBefore(s, x, w)[i] == w && InsertBefore(s, x, w)[i + 1] == x
      && x !in InsertBefore(s, x, w)[..i]
      && InsertBefore(s, x, w)[..i] + InsertBefore(s, x, w)[i + 1..] == s
  {
    var i := FirstIndex(s, x);
    var r := InsertBefore(s, x, w);
    assert r[..i] == s[..i];
    assert r[i + 1..] == s[i..];
    assert s == s[..i] + s[i..];
  }

  lemma InsertBeforeCount(s: seq<int>, x: int, w: int)
    requires x in s
    ensures multiset(InsertBefore(s, x, w)) == multiset(s) + multiset{w}
  {
    var i := FirstIndex(s, x);
    var r := InsertBefore(s, x, w);
    assert s == s[..i] + s[i..];
    calc {
      multiset(r);
      multiset(s[..i] + [w]) + multiset(s[i..]);
      multiset(s[..i]) + multiset{w} + multiset(s[i..]);
      { assert multiset(s) == multiset(s[..i]) + multiset(s[i..]); }
      multiset(s) + multiset{w};
    }
  }

  /** Inserting keeps every element that was there. */
  lemma InsertKeeps(s: seq<int>, x: int, w: int, y: int)
    requires x in s && y in s
    ensures y in InsertBefore(s, x, w) && w in InsertBefore(s, x, w)
  {
    InsertBeforeSpec(s, x, w);
    assert y in multiset(s);
  }

  /** One direction of the split, as the source writes it for `u -> v`:
      `a -> w` and `w -> b` take the face `fab`, and `a -> b` goes. */
  function Redirect(h: Halfedges, a: int, b: int, w: int, fab: Option<int>): Halfedges
    requires a in h && w in h
  {
    var h1 := h[a := h[a][w := fab]];
    var h2 := h1[w := h1[w][b := fab]];
    h2[a := h2[a] - {b}]
  }

  /** The halfedges after the split: first the direction `u -> v` with its
      face, then `v -> u` with its face. */
  function SplitHalfedges(h: Halfedges, u: int, v: int, w: int): Halfedges
    requires u in h && v in h[u] && v in h && u in h[v] && w in h
  {
    Redirect(Redirect(h, u, v, w, h[u][v]), v, u, w, h[v][u])
  }

  /** For three distinct vertices, the split replaces `u -> v` by `u -> w`
      and `w -> v` carrying its face, replaces `v -> u` by `v -> w` and
      `w -> u` carrying its face, and changes nothing else. */
  lemma SplitHalfedgesSpec(h: Halfedges, u: int, v: int, w: int)
    requires u in h && v in h[u] && v in h && u in h[v] && w in h
    requires u != v && u != w && v != w
    ensures var h' := SplitHalfedges(h, u, v, w);
      && h'.Keys == h.Keys
      && h'[u] == (h[u] - {v})[w := h[u][v]]
      && h'[v] == (h[v] - {u})[w := h[v][u]]
      && h'[w] == h[w][v := h[u][v]][u := h[v][u]]
      && (forall a :: a in h && a != u && a != v && a != w ==> h'[a] == h[a])
  {
    var h1 := Redirect(h, u, v, w, h[u][v]);
    assert h1.Keys == h.Keys;
    assert h1[u] == (h[u] - {v})[w := h[u][v]];
    assert h1[v] == h[v] && h1[w] == h[w][v := h[u][v]];
  }

  /** `face[key].insert(face[key].index(x), w)`, skipped for the boundary. */
  function InsertInto(f: Faces, key: Option<int>, x: int, w: int): Faces
    requires key.Some? ==> key.value in f && x in f[key.value]
  {
    if key.Some? then f[key.value := InsertBefore(f[key.value], x, w)] else f
  }

  /** Inserting into a face keeps every face and every vertex in it, and
      the face inserted into holds `w`. */
  lemma InsertIntoKeeps(f: Faces, key: Option<int>, x: int, w: int)
    requires key.Some? ==> key.value in f && x in f[key.value]
    ensures InsertInto(f, key, x, w).Keys == f.Keys
    ensures forall k, y :: k in f && y in f[k] ==> y in InsertInto(f, key, x, w)[k]
    ensures key.Some? ==> w in InsertInto(f, key, x, w)[key.value]
  {
    if key.Some? {
      forall y | y in f[key.value]
        ensures y in InsertInto(f, key, x, w)[key.value]
      {
        InsertKeeps(f[key.value], x, w, y);
      }
      InsertKeeps(f[key.value], x, w, x);
    }
  }

  /** The faces after the split: `w` goes in before the first `v` of the
      face of `u -> v`, then before the first `u` of the face of `v -> u`. */
  function SplitFaces(f: Faces, fuv: Option<int>, fvu: Option<int>, u: int, v: int, w: int): Faces
    requires fuv.Some? ==> fuv.value in f && v in f[fuv.value]
    requires fvu.Some? ==> fvu.value in f && u in f[fvu.value]
  {
    InsertIntoKeeps(f, fuv, v, w);
    InsertInto(InsertInto(f, fuv, v, w), fvu, u, w)
  }

  /** With the two faces distinct, each gains `w` once and every other face
      is left as it was. */
  lemma SplitFacesSpec(f: Faces, fuv: Option<int>, fvu: Option<int>, u: int, v: int, w: int)
    requires fuv.Some? ==> fuv.value in f && v in f[fuv.value]
    requires fvu.Some? ==> fvu.value in f && u in f[fvu.value]
    requires fuv.Some? && fvu.Some? ==> fuv.value != fvu.value
    ensures var f' := SplitFaces(f, fuv, fvu, u, v, w);
      && f'.Keys == f.Keys
      && (fuv.Some? ==> f'[fuv.value] == InsertBefore(f[fuv.value], v, w))
      && (fvu.Some? ==> f'[fvu.value] == InsertBefore(f[fvu.value], u, w))
      && (forall k :: k in f && Some(k) != fuv && Some(k) != fvu ==> f'[k] == f[k])
  {
    InsertIntoKeeps(f, fuv, v, w);
  }

  /** After the split every face keeps its vertices, and the faces of the
      two halfedges also hold `w`. */
  lemma FacesGrow(f: Faces, fuv: Option<int>, fvu: Option<int>, u: int, v: int, w: int)
    requires fuv.Some? ==> fuv.value in f && v in f[fuv.value]
    requires fvu.Some? ==> fvu.value in f && u in f[fvu.value]
    ensures var f' := SplitFaces(f, fuv, fvu, u, v, w);
      && f'.Keys == f.Keys
      && (forall k, y :: k in f && y in f[k] ==> y in f'[k])
      && (fuv.Some? ==> w in f'[fuv.value])
      && (fvu.Some? ==> w in f'[fvu.value])
  {
    var f1 := InsertInto(f, fuv, v, w);
    InsertIntoKeeps(f, fuv, v, w);
    InsertIntoKeeps(f1, fvu, u, w);
  }

  /** The consistency the split relies on: vertex keys are at most
      `maxVertex`; every vertex has a halfedge map whose neighbours are
      other vertices; and the face of every halfedge `a -> b` exists and
      holds `b`. */
  predicate WellFormed(vertex: map<int, Point>, h: Halfedges, f: Faces, maxVertex: int)
  {
    && (forall k :: k in vertex ==> k <= maxVertex)
    && h.Keys == vertex.Keys
    && (forall a :: a in h ==> h[a].Keys <= vertex.Keys && a !in h[a])
    && (forall a, b :: a in h && b in h[a] && h[a][b].Some? ==> h[a][b].value in f && b in f[h[a][b].value])
  }

  /** Adding a fresh vertex and splitting an edge keeps the mesh well formed. */
  lemma SplitKeepsWellFormed(vertex: map<int, Point>, h: Halfedges, f: Faces, maxVertex: int, u: int, v: int, w: int, p: Point)
    requires WellFormed(vertex, h, f, maxVertex)
    requires u in h && v in h[u] && v in h && u in h[v]
    requires w == maxVertex + 1
    ensures WellFormed(vertex[w := p], SplitHalfedges(h[w := map[]], u, v, w), SplitFaces(f, h[u][v], h[v][u], u, v, w), w)
  {
    assert w !in vertex && u != v && u != w && v != w;
    var h': Halfedges := SplitHalfedges(h[w := map[]], u, v, w);
    var vertex' := vertex[w := p];
    SplitNeighbours(vertex, h, u, v, w, p);
    SplitFacesHold(h, f, u, v, w);
    assert h'.Keys == vertex'.Keys;
  }

  /** The key half of `SplitKeepsWellFormed`: the split mesh has a halfedge
      map for every vertex, including `w`, and no vertex neighbours itself. */
  lemma SplitNeighbours(vertex: map<int, Point>, h: Halfedges, u: int, v: int, w: int, p: Point)
    requires h.Keys == vertex.Keys && forall a :: a in h ==> h[a].Keys <= vertex.Keys && a !in h[a]
    requires u in h && v in h[u] && v in h && u in h[v] && w !in vertex
    ensures var h' := SplitHalfedges(h[w := map[]], u, v, w);
      var vertex' := vertex[w := p];
      && h'.Keys == vertex'.Keys
      && forall a :: a in h' ==> h'[a].Keys <= vertex'.Keys && a !in h'[a]
  {
    var h0 := h[w := map[]];
    SplitHalfedgesSpec(h0, u, v, w);
    var h': Halfedges := SplitHalfedges(h0, u, v, w);
    var vertex' := vertex[w := p];
    forall a | a in h'
      ensures h'[a].Keys <= vertex'.Keys && a !in h'[a]
    {
      if a != u && a != v && a != w {
        assert h'[a] == h[a];
      }
    }
  }

  /** The faces half of `SplitKeepsWellFormed`: every halfedge of the split
      mesh has its face, and that face holds the halfedge's end. */
  lemma SplitFacesHold(h: Halfedges, f: Faces, u: int, v: int, w: int)
    requires forall a, b :: a in h && b in h[a] && h[a][b].Some? ==> h[a][b].value in f && b in f[h[a][b].value]
    requires u in h && v in h[u] && v in h && u in h[v] && w !in h
    requires u != v && u != w && v != w && forall a :: a in h ==> w !in h[a]
    ensures var h' := SplitHalfedges(h[w := map[]], u, v, w);
      var f' := SplitFaces(f, h[u][v], h[v][u], u, v, w);
      forall a, b :: a in h' && b in h'[a] && h'[a][b].Some? ==> h'[a][b].value in f' && b in f'[h'[a][b].value]
  {
    var fuv, fvu := h[u][v], h[v][u];
    var h0 := h[w := map[]];
    SplitHalfedgesSpec(h0, u, v, w);
    FacesGrow(f, fuv, fvu, u, v, w);
    assert fuv.Some? ==> v in f[fuv.value];
    assert fvu.Some? ==> u in f[fvu.value];
    FacesHold(h, SplitHalfedges(h0, u, v, w), f, SplitFaces(f, fuv, fvu, u, v, w), u, v, w);
  }

  lemma FacesHold(h: Halfedges, h': Halfedges, f: Faces, f': Faces, u: int, v: int, w: int)
    requires forall a, b :: a in h && b in h[a] && h[a][b].Some? ==> h[a][b].value in f && b in f[h[a][b].value]
    requires u in h && v in h[u] && v in h && u in h[v] && w !in h
    requires u != v && u != w && v != w && forall a :: a in h ==> w !in h[a]
    requires h'.Keys == h.Keys + {w}
    requires h'[u] == (h[u] - {v})[w := h[u][v]] && h'[v] == (h[v] - {u})[w := h[v][u]]
    requires h'[w] == map[v := h[u][v], u := h[v][u]]
    requires forall a :: a in h && a != u && a != v ==> h'[a] == h[a]
    requires forall k, y :: k in f && y in f[k] ==> k in f' && y in f'[k]
    requires h[u][v].Some? ==> h[u][v].value in f' && w in f'[h[u][v].value]
    requires h[v][u].Some? ==> h[v][u].value in f' && w in f'[h[v][u].value]
    ensures forall a, b :: a in h' && b in h'[a] && h'[a][b].Some? ==> h'[a][b].value in f' && b in f'[h'[a][b].value]
  {
    forall a: int, b: int | a in h' && b in h'[a] && h'[a][b].Some?
      ensures h'[a][b].value in f' && b in f'[h'[a][b].value]
    {
      var k := h'[a][b].value;
      if a == w {
        if b == v {
          assert k == h[u][v].value && v in f[k];
        } else {
          assert b == u && k == h[v][u].value && u in f[k];
        }
        assert k in f && b in f[k];
      } else if b == w {
        assert (a == u && k == h[u][v].value) || (a == v && k == h[v][u].value);
      } else {
        assert a in h && b in h[a] && h'[a][b] == h[a][b];
        assert k in f && b in f[k];
      }
    }
  }

  /** A mesh: vertex coordinates, the halfedge maps and the faces, with the
      largest vertex key handed out so far. */
  class Mesh {
    var vertex: map<int, Point>
    var halfedge: Halfedges
    var face: Faces
    var maxVertex: int

    predicate Valid()
      reads this
    {
      WellFormed(vertex, halfedge, face, maxVertex)
    }

    /** `add_vertex` without a key: the next key after the largest one,
        with no neighbours yet. */
    method AddVertex(p: Point) returns (w: int)
      requires Valid()
      modifies this
      ensures w == old(maxVertex) + 1 && w !in old(vertex)
      ensures vertex == old(vertex)[w := p] && halfedge == old(halfedge)[w := map[]]
      ensures face == old(face) && maxVertex == w
      ensures Valid()
    {
      w := maxVertex + 1;
      maxVertex := w;
      vertex := vertex[w := p];
      halfedge := halfedge[w := map[]];
    }

    /** The three halfedge statements of one direction of the split. */
    method RedirectHalfedge(a: int, b: int, w: int, fab: Option<int>)
      requires a in halfedge && w in halfedge
      modifies this
      ensures halfedge == Redirect(old(halfedge), a, b, w, fab)
      ensures vertex == old(vertex) && face == old(face) && maxVertex == old(maxVertex)
    {
      halfedge := halfedge[a := halfedge[a][w := fab]];
      halfedge := halfedge[w := halfedge[w][b := fab]];
      halfedge := halfedge[a := halfedge[a] - {b}];
    }

    /** The face statement of one direction of the split. */
    method InsertIntoFace(key: Option<int>, x: int, w: int)
      requires key.Some? ==> key.value in face && x in face[key.value]
      modifies this
      ensures face == InsertInto(old(face), key, x, w)
      ensures vertex == old(vertex) && halfedge == old(halfedge) && maxVertex == old(maxVertex)
    {
      if key.Some? {
        var j := FirstIndex(face[key.value], x);
        face := face[key.value := face[key.value][..j] + [w] + face[key.value][j..]];
      }
    }

    /** The body of the split once both halfedges are known to exist: a
        fresh vertex at `p`, the halfedges redirected through it in both
        directions, and `w` inserted into the two faces. */
    method SplitAt(u: int, v: int, p: Point) returns (w: int)
      requires Valid()
      requires u in halfedge && v in halfedge[u] && v in halfedge && u in halfedge[v]
      modifies this
      ensures w == old(maxVertex) + 1 && w !in old(vertex) && maxVertex == w
      ensures vertex == old(vertex)[w := p]
      ensures halfedge == SplitHalfedges(old(halfedge)[w := map[]], u, v, w)
      ensures face == SplitFaces(old(face), old(halfedge)[u][v], old(halfedge)[v][u], u, v, w)
      ensures Valid()
    {
      var fuv, fvu := halfedge[u][v], halfedge[v][u];
      ghost var m1 := maxVertex + 1;
      SplitKeepsWellFormed(vertex, halfedge, face, maxVertex, u, v, m1, p);
      InsertIntoKeeps(face, fuv, v, m1);
      ghost var oldFace := face;
      ghost var v1 := vertex[m1 := p];
      ghost var h1 := SplitHalfedges(halfedge[m1 := map[]], u, v, m1);
      ghost var f1 := SplitFaces(face, fuv, fvu, u, v, m1);
      w := AddVertex(p);
      ghost var added := halfedge;
      assert w != u && w != v && added[u][v] == fuv && added[v][u] == fvu;
      RedirectHalfedge(u, v, w, fuv);
      InsertIntoFace(fuv, v, w);
      RedirectHalfedge(v, u, w, fvu);
      InsertIntoFace(fvu, u, w);
      assert halfedge == SplitHalfedges(added, u, v, w);
      assert face == SplitFaces(oldFace, fuv, fvu, u, v, w);
      assert vertex == v1 && halfedge == h1 && face == f1 && maxVertex == m1;
    }

    /** `mesh_split_edge(mesh, u, v, t, allow_boundary)`. A parameter outside
        [0, 1] is refused; 0 and 1 return the end vertices; a missing
        halfedge is a `KeyError`; a boundary edge is left alone unless
        allowed. Otherwise the new vertex is placed at `edgePoint(u, v, t)`
        (the mesh's `edge_point`) and the halfedges and faces are split. */
    method SplitEdge(u: int, v: int, t: real, allowBoundary: bool, edgePoint: (int, int, real) -> Point)
      returns (r: Result<Option<int>>)
      requires Valid()
      modifies this
      ensures (t < 0.0 || t > 1.0) ==> r == Failure(BadValue)
      ensures 0.0 <= t <= 1.0 && t == 0.0 ==> r == Success(Some(u))
      ensures 0.0 <= t <= 1.0 && t == 1.0 ==> r == Success(Some(v))
      ensures 0.0 < t < 1.0 && !(u in old(halfedge) && v in old(halfedge)[u] && v in old(halfedge) && u in old(halfedge)[v])
        ==> r == Failure(MissingKey)
      ensures 0.0 < t < 1.0 && u in old(halfedge) && v in old(halfedge)[u] && v in old(halfedge) && u in old(halfedge)[v]
        ==> var fuv, fvu := old(halfedge)[u][v], old(halfedge)[v][u];
            if !allowBoundary && (fuv.None? || fvu.None?) then
              r == Success(None)
            else
              var w := old(maxVertex) + 1;
              && r == Success(Some(w)) && w !in old(vertex)
              && vertex == old(vertex)[w := edgePoint(u, v, t)] && maxVertex == w
              && halfedge == SplitHalfedges(old(halfedge)[w := map[]], u, v, w)
              && face == SplitFaces(old(face), fuv, fvu, u, v, w)
      ensures !(0.0 < t < 1.0 && u in old(halfedge) && v in old(halfedge)[u] && v in old(halfedge) && u in old(halfedge)[v]
                && (allowBoundary || (old(halfedge)[u][v].Some? && old(halfedge)[v][u].Some?))) ==>
        vertex == old(vertex) && halfedge == old(halfedge) && face == old(face) && maxVertex == old(maxVertex)
      ensures Valid()
    {
      if t < 0.0 {
        return Failure(BadValue);
      }
      if t > 1.0 {
        return Failure(BadValue);
      }
      if t == 0.0 {
        return Success(Some(u));
      }
      if t == 1.0 {
        return Success(Some(v));
      }
      if !(u in halfedge && v in halfedge[u]) {
        return Failure(MissingKey);
      }
      var fuv := halfedge[u][v];
      if !(v in halfedge && u in halfedge[v]) {
        return Failure(MissingKey);
      }
      var fvu := halfedge[v][u];
      if !allowBoundary && (fuv.None? || fvu.None?) {
        return Success(None);
      }
      var w := SplitAt(u, v, edgePoint(u, v, t));
      return Success(Some(w));
    }
  }
}
