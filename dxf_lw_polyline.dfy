/**
 * The DXF LWPOLYLINE entity: reading it from a stream of group-code pairs,
 * turning its vertices into coordinates and a geometry, and moving it.
 *
 * The pair-by-pair readers are methods over a `PairReader`; each is proved
 * against a function that scans the remaining pairs, and the properties of
 * the format are lemmas about those functions.
 */
module DxfLwPolyline {
  import opened Wrappers
  import opened DxfPairs

  datatype Vertex = Vertex(x: real, y: real, bulge: real)

  /** A growable vertex list that the readers append to in place. */
  class VertexList {
    var items: seq<Vertex>

    constructor ()
      ensures items == []
    {
      items := [];
    }

    method Add(v: Vertex)
      modifies this
      ensures items == old(items) + [v]
    {
      items := items + [v];
    }
  }

  // ---------------------------------------------------------------------
  // Vertex reading

  /** The vertex reader's locals: the pending x, y and bulge and whether x and y were seen. */
  datatype Pending = Pending(x: real, y: real, b: real, xFound: bool, yFound: bool)

  const NoPending := Pending(0.0, 0.0, 0.0, false, false)

  /** The vertex a pending state stores when the next 10 or 0 arrives: one if both x and y were seen. */
  function Emitted(p: Pending): seq<Vertex>
  {
    if p.xFound && p.yFound then [Vertex(p.x, p.y, p.b)] else []
  }

  /** The state after a possible emission: everything is reset once a vertex was stored. */
  function AfterFlush(p: Pending): Pending
  {
    if p.xFound && p.yFound then NoPending else p
  }

  /** The effect of one pair other than TYPE on the pending state. */
  function Absorb(p: Pending, c: Pair): Pending
  {
    if c.code == X_1 then AfterFlush(p).(x := c.value.asDouble, xFound := true)
    else if c.code == Y_1 then p.(y := c.value.asDouble, yFound := true)
    else if c.code == DOUBLE_3 then p.(b := c.value.asDouble)
    else p
  }

  /** What a vertex scan stores, and how many pairs it consumes (a final TYPE pair is pushed back). */
  datatype VertexScan = VertexScan(vertices: seq<Vertex>, consumed: nat)

  /**
   * The vertices `readLwVertices` stores from the pairs `rest`, starting in
   * state `p`. It stops at the first TYPE pair, which it leaves unread, or at
   * the end of the input.
   */
  function ScanVertices(rest: seq<Pair>, p: Pending): (r: VertexScan)
    ensures r.consumed <= |rest|
    ensures r.consumed < |rest| ==> rest[r.consumed].code == TYPE
    decreases |rest|
  {
    if rest == [] then VertexScan([], 0)
    else if rest[0].code == TYPE then VertexScan(Emitted(p), 0)
    else
      var tail := ScanVertices(rest[1..], Absorb(p, rest[0]));
      VertexScan((if rest[0].code == X_1 then Emitted(p) else []) + tail.vertices, tail.consumed + 1)
  }

  /** The vertex scan stops at the first TYPE: it never reads into the next entity. */
  lemma {:induction false} ScanVerticesStopsAtFirstType(rest: seq<Pair>, p: Pending)
    ensures forall i :: 0 <= i < ScanVertices(rest, p).consumed ==> rest[i].code != TYPE
    decreases |rest|
  {
    if rest != [] && rest[0].code != TYPE {
      var tail := rest[1..];
      ScanVerticesStopsAtFirstType(tail, Absorb(p, rest[0]));
      assert forall i :: 1 <= i < |rest| ==> rest[i] == tail[i - 1];
    }
  }

  /**
   * The vertex reader's loop invariant: the list held `initial` before the
   * scan `whole` from `start`; now, at `pos` with state `p`, it holds
   * `items`, and the rest of the scan completes both the list and the count.
   */
  ghost predicate ScanSplits(whole: VertexScan, initial: seq<Vertex>, s: seq<Pair>, start: nat, pos: nat,
                             items: seq<Vertex>, p: Pending)
    requires start <= pos <= |s|
  {
    var rest := ScanVertices(s[pos..], p);
    initial + whole.vertices == items + rest.vertices && whole.consumed == pos - start + rest.consumed
  }

  /** Before the first pair the list holds what it held. */
  lemma ScanStarts(s: seq<Pair>, start: nat, initial: seq<Vertex>)
    requires start <= |s|
    ensures ScanSplits(ScanVertices(s[start..], NoPending), initial, s, start, start, initial, NoPending)
  {
  }

  /** Reading a pair other than TYPE keeps the invariant, with the list `items'` and state `next` it leads to. */
  lemma ScanAdvances(whole: VertexScan, initial: seq<Vertex>, s: seq<Pair>, start: nat, pos: nat,
                     items: seq<Vertex>, p: Pending, items': seq<Vertex>, next: Pending)
    requires start <= pos < |s| && s[pos].code != TYPE
    requires ScanSplits(whole, initial, s, start, pos, items, p)
    requires s[pos].code == X_1 ==> items' == items + Emitted(p)
    requires s[pos].code != X_1 ==> items' == items
    requires next == Absorb(p, s[pos])
    ensures ScanSplits(whole, initial, s, start, pos + 1, items', next)
  {
    assert s[pos..][0] == s[pos];
    assert s[pos..][1..] == s[pos + 1..];
    var rest := ScanVertices(s[pos + 1..], next);
    if s[pos].code == X_1 {
      assert items + (Emitted(p) + rest.vertices) == items' + rest.vertices;
    } else {
      assert [] + rest.vertices == rest.vertices;
    }
  }

  /** At a TYPE pair the scan ends, storing a complete pending vertex. */
  lemma ScanStopsAtType(whole: VertexScan, initial: seq<Vertex>, s: seq<Pair>, start: nat, pos: nat,
                        items: seq<Vertex>, p: Pending, items': seq<Vertex>)
    requires start <= pos < |s| && s[pos].code == TYPE
    requires ScanSplits(whole, initial, s, start, pos, items, p)
    requires items' == items + Emitted(p)
    ensures items' == initial + whole.vertices && whole.consumed == pos - start
  {
    assert s[pos..][0] == s[pos];
  }

  /** At the end of the input the scan ends, dropping the pending state. */
  lemma ScanStopsAtEnd(whole: VertexScan, initial: seq<Vertex>, s: seq<Pair>, start: nat,
                       items: seq<Vertex>, p: Pending)
    requires start <= |s|
    requires ScanSplits(whole, initial, s, start, |s|, items, p)
    ensures items == initial + whole.vertices && whole.consumed == |s| - start
  {
    assert s[|s|..] == [];
    assert items + [] == items;
  }

  /**
   * One pass of the `readLwVertices` loop: reads one pair and updates the
   * pending vertex. `doLoop` turns false at TYPE, which is pushed back, and
   * at the end of the input.
   */
  method ReadVertexPair(br: PairReader, theVertices: VertexList, x: real, y: real, b: real, xFound: bool, yFound: bool)
    returns (doLoop: bool, x': real, y': real, b': real, xFound': bool, yFound': bool)
    requires br.Valid()
    modifies br, theVertices
    ensures br.Valid() && old(br.pos) <= br.pos
    ensures var p := Pending(x, y, b, xFound, yFound);
      if old(br.pos) == |br.pairs| then
        !doLoop && br.pos == old(br.pos) && theVertices.items == old(theVertices.items)
      else if br.pairs[old(br.pos)].code == TYPE then
        !doLoop && br.pos == old(br.pos) && theVertices.items == old(theVertices.items) + Emitted(p)
      else
        var c := br.pairs[old(br.pos)];
        doLoop && br.pos == old(br.pos) + 1 && Pending(x', y', b', xFound', yFound') == Absorb(p, c) &&
        (c.code == X_1 ==> theVertices.items == old(theVertices.items) + Emitted(p)) &&
        (c.code != X_1 ==> theVertices.items == old(theVertices.items))
  {
    x', y', b', xFound', yFound' := x, y, b, xFound, yFound;
    var cvp := br.Read();
    if cvp.None? {
      return false, x', y', b', xFound', yFound';
    }
    doLoop := true;
    var gc := cvp.value.code;
    if gc == TYPE || gc == X_1 {
      // A complete pending vertex is stored before the next one starts.
      if xFound && yFound {
        theVertices.Add(Vertex(x, y, b));
        xFound' := false;
        yFound' := false;
        x' := 0.0;
        y' := 0.0;
        b' := 0.0;
      }
      if gc == TYPE {
        br.Reset();
        doLoop := false;
        return;
      }
      x' := cvp.value.value.asDouble;
      xFound' := true;
    } else if gc == Y_1 {
      y' := cvp.value.value.asDouble;
      yFound' := true;
    } else if gc == DOUBLE_3 {
      b' := cvp.value.value.asDouble;
    }
  }

  /**
   * `readLwVertices`: reads pairs until TYPE (pushed back) or the end of the
   * input, appending every completed vertex to `theVertices`, in stream order.
   */
  method ReadLwVertices(br: PairReader, theVertices: VertexList)
    requires br.Valid()
    modifies br, theVertices
    ensures br.Valid()
    ensures var s := ScanVertices(br.pairs[old(br.pos)..], NoPending);
      theVertices.items == old(theVertices.items) + s.vertices && br.pos == old(br.pos) + s.consumed
  {
    var x, y, b := 0.0, 0.0, 0.0;
    var xFound, yFound := false, false;
    ghost var start := br.pos;
    ghost var initial := theVertices.items;
    ghost var whole := ScanVertices(br.pairs[start..], NoPending);
    ScanStarts(br.pairs, start, initial);
    var doLoop := true;
    while doLoop
      invariant br.Valid() && start <= br.pos
      invariant doLoop ==>
        ScanSplits(whole, initial, br.pairs, start, br.pos, theVertices.items, Pending(x, y, b, xFound, yFound))
      invariant !doLoop ==> theVertices.items == initial + whole.vertices && whole.consumed == br.pos - start
      decreases |br.pairs| - br.pos, doLoop
    {
      ghost var here := br.pos;
      ghost var p := Pending(x, y, b, xFound, yFound);
      ghost var before := theVertices.items;
      doLoop, x, y, b, xFound, yFound := ReadVertexPair(br, theVertices, x, y, b, xFound, yFound);
      if here == |br.pairs| {
        // End of the input: a pending vertex is dropped.
        ScanStopsAtEnd(whole, initial, br.pairs, start, before, p);
      } else if br.pairs[here].code == TYPE {
        ScanStopsAtType(whole, initial, br.pairs, start, here, before, p, theVertices.items);
      } else {
        ScanAdvances(whole, initial, br.pairs, start, here, before, p, theVertices.items,
                     Pending(x, y, b, xFound, yFound));
      }
    }
  }

  // ---------------------------------------------------------------------
  // Entity reading

  datatype Layer = Layer(name: string)

  datatype DxfLineType = DxfLineType(name: string)

  /** The lookups of the drawing the entity belongs to, which are outside this model. */
  datatype Univers = Univers(findLayer: string -> Option<Layer>, findLType: string -> Option<DxfLineType>)

  /** The header locals of `read`. */
  datatype Header = Header(
    name: string,
    flag: int,
    color: int,
    visibility: int,
    layer: Option<Layer>,
    lineType: Option<DxfLineType>)

  const InitialHeader := Header("", 0, -1, 0, None, None)

  /** The effect on the header of a pair that is neither TYPE nor the start of a vertex. */
  function HeaderStep(h: Header, c: Pair, u: Univers): Header
  {
    if c.code == NAME then h.(name := c.value.text)
    else if c.code == LAYER_NAME then h.(layer := u.findLayer(c.value.text))
    else if c.code == LINETYPE_NAME then h.(lineType := u.findLType(c.value.text))
    else if c.code == COLOR then h.(color := c.value.asShort)
    else if c.code == INT_1 then h.(flag := c.value.asShort)
    else if c.code == VISIBILITY then h.(visibility := c.value.asShort)
    else h
  }

  datatype EntityScan = EntityScan(header: Header, vertices: seq<Vertex>, consumed: nat)

  /**
   * What `read` collects from the pairs `rest`: the header, the vertices
   * read on each code 10, and the pairs consumed. It stops at TYPE (pushed
   * back) or at the end of the input.
   */
  function ScanEntity(rest: seq<Pair>, h: Header, lv: seq<Vertex>, u: Univers): (r: EntityScan)
    ensures r.consumed <= |rest|
    ensures r.consumed < |rest| ==> rest[r.consumed].code == TYPE
    decreases |rest|
  {
    if rest == [] || rest[0].code == TYPE then EntityScan(h, lv, 0)
    else if rest[0].code == X_1 then
      var s := ScanVertices(rest, NoPending);
      var t := ScanEntity(rest[s.consumed..], h, lv + s.vertices, u);
      EntityScan(t.header, t.vertices, s.consumed + t.consumed)
    else
      var t := ScanEntity(rest[1..], HeaderStep(h, rest[0], u), lv, u);
      EntityScan(t.header, t.vertices, t.consumed + 1)
  }

  /** The entity scan stops at the first TYPE, also when the vertex reader runs into it. */
  lemma {:induction false} ScanEntityStopsAtFirstType(rest: seq<Pair>, h: Header, lv: seq<Vertex>, u: Univers)
    ensures forall i :: 0 <= i < ScanEntity(rest, h, lv, u).consumed ==> rest[i].code != TYPE
    decreases |rest|
  {
    if rest != [] && rest[0].code != TYPE {
      var k := if rest[0].code == X_1 then ScanVertices(rest, NoPending).consumed else 1;
      if rest[0].code == X_1 {
        ScanVerticesStopsAtFirstType(rest, NoPending);
      }
      var tail := rest[k..];
      var next := if rest[0].code == X_1 then h else HeaderStep(h, rest[0], u);
      var lv' := if rest[0].code == X_1 then lv + ScanVertices(rest, NoPending).vertices else lv;
      if k < |rest| {
        ScanEntityStopsAtFirstType(tail, next, lv', u);
        assert forall i :: k <= i < |rest| ==> rest[i] == tail[i - k];
      }
    }
  }

  /** The entity reader's loop invariant, in the same shape as the vertex reader's. */
  ghost predicate EntitySplits(whole: EntityScan, s: seq<Pair>, start: nat, pos: nat, h: Header, lv: seq<Vertex>, u: Univers)
    requires start <= pos <= |s|
  {
    var rest := ScanEntity(s[pos..], h, lv, u);
    whole == EntityScan(rest.header, rest.vertices, pos - start + rest.consumed)
  }

  /** Before the first pair the header is the initial one and no vertex is read. */
  lemma EntityStarts(s: seq<Pair>, start: nat, u: Univers)
    requires start <= |s|
    ensures EntitySplits(ScanEntity(s[start..], InitialHeader, [], u), s, start, start, InitialHeader, [], u)
  {
  }

  /** A header pair updates the header and keeps the invariant. */
  lemma EntityAdvances(whole: EntityScan, s: seq<Pair>, start: nat, pos: nat, h: Header, lv: seq<Vertex>, u: Univers,
                       next: Header)
    requires start <= pos < |s| && s[pos].code != TYPE && s[pos].code != X_1
    requires EntitySplits(whole, s, start, pos, h, lv, u)
    requires next == HeaderStep(h, s[pos], u)
    ensures EntitySplits(whole, s, start, pos + 1, next, lv, u)
  {
    assert s[pos..][0] == s[pos];
    assert s[pos..][1..] == s[pos + 1..];
  }

  /** A code 10 hands the stream to the vertex reader, which consumes at least that pair. */
  lemma EntityReadsVertices(whole: EntityScan, s: seq<Pair>, start: nat, pos: nat, h: Header, lv: seq<Vertex>,
                            u: Univers, lv': seq<Vertex>, pos': nat)
    requires start <= pos < |s| && s[pos].code == X_1
    requires EntitySplits(whole, s, start, pos, h, lv, u)
    requires lv' == lv + ScanVertices(s[pos..], NoPending).vertices
    requires pos' == pos + ScanVertices(s[pos..], NoPending).consumed
    ensures pos < pos' <= |s|
    ensures EntitySplits(whole, s, start, pos', h, lv', u)
  {
    assert s[pos..][0] == s[pos];
    assert s[pos..][ScanVertices(s[pos..], NoPending).consumed..] == s[pos'..];
  }

  /** At TYPE or at the end of the input the header and vertices are final. */
  lemma EntityStops(whole: EntityScan, s: seq<Pair>, start: nat, pos: nat, h: Header, lv: seq<Vertex>, u: Univers)
    requires start <= pos <= |s| && (pos == |s| || s[pos].code == TYPE)
    requires EntitySplits(whole, s, start, pos, h, lv, u)
    ensures whole == EntityScan(h, lv, pos - start)
  {
    if pos < |s| {
      assert s[pos..][0] == s[pos];
    }
  }

  /**
   * One pass of the `read` loop: reads one pair; a header pair updates its
   * local, a code 10 is pushed back and the vertex reader reads the
   * vertices from there. `doLoop` turns false at TYPE, which is pushed
   * back, and at the end of the input.
   */
  method ReadEntityPair(br: PairReader, univers: Univers, lv: VertexList,
                        name: string, flag: int, c: int, visibility: int, l: Option<Layer>,
                        lineType: Option<DxfLineType>)
    returns (doLoop: bool, name': string, flag': int, c': int, visibility': int, l': Option<Layer>,
             lineType': Option<DxfLineType>)
    requires br.Valid()
    modifies br, lv
    ensures br.Valid() && old(br.pos) <= br.pos
    ensures var h := Header(name, flag, c, visibility, l, lineType);
      var h' := Header(name', flag', c', visibility', l', lineType');
      if old(br.pos) == |br.pairs| || br.pairs[old(br.pos)].code == TYPE then
        !doLoop && br.pos == old(br.pos) && lv.items == old(lv.items) && h' == h
      else if br.pairs[old(br.pos)].code == X_1 then
        var vs := ScanVertices(br.pairs[old(br.pos)..], NoPending);
        doLoop && br.pos == old(br.pos) + vs.consumed && lv.items == old(lv.items) + vs.vertices && h' == h
      else
        doLoop && br.pos == old(br.pos) + 1 && lv.items == old(lv.items) &&
        h' == HeaderStep(h, br.pairs[old(br.pos)], univers)
  {
    doLoop := true;
    name', flag', c', visibility', l', lineType' := name, flag, c, visibility, l, lineType;
    var cvp := br.Read();
    if cvp.None? {
      return false, name', flag', c', visibility', l', lineType';
    }
    var gc := cvp.value.code;
    var text := cvp.value.value.text;
    if gc == TYPE {
      br.Reset();
      doLoop := false;
    } else if gc == X_1 {
      br.Reset();
      ReadLwVertices(br, lv);
    } else if gc == NAME {
      name' := text;
    } else if gc == LAYER_NAME {
      l' := univers.findLayer(text);
    } else if gc == LINETYPE_NAME {
      lineType' := univers.findLType(text);
    } else if gc == COLOR {
      c' := cvp.value.value.asShort;
    } else if gc == INT_1 {
      flag' := cvp.value.value.asShort;
    } else if gc == VISIBILITY {
      visibility' := cvp.value.value.asShort;
    }
  }

  /**
   * The loop of `read`: scans header pairs, reads the vertices on code 10,
   * and stops at TYPE (pushed back) or at the end of the input, leaving the
   * header locals and the vertex list as `ScanEntity` describes.
   */
  method ReadEntityLoop(br: PairReader, univers: Univers)
    returns (name: string, flag: int, c: int, visibility: int, l: Option<Layer>, lineType: Option<DxfLineType>,
             vertices: seq<Vertex>)
    requires br.Valid()
    modifies br
    ensures br.Valid() && old(br.pos) <= br.pos
    ensures ScanEntity(br.pairs[old(br.pos)..], InitialHeader, [], univers) ==
            EntityScan(Header(name, flag, c, visibility, l, lineType), vertices, br.pos - old(br.pos))
  {
    name := "";
    visibility, flag, c := 0, 0, -1;
    lineType := None;
    var lv := new VertexList();
    l := None;
    ghost var start := br.pos;
    ghost var whole := ScanEntity(br.pairs[start..], InitialHeader, [], univers);
    EntityStarts(br.pairs, start, univers);
    var doLoop := true;
    while doLoop
      invariant br.Valid() && start <= br.pos && fresh(lv)
      invariant doLoop ==>
        EntitySplits(whole, br.pairs, start, br.pos, Header(name, flag, c, visibility, l, lineType), lv.items, univers)
      invariant !doLoop ==> whole == EntityScan(Header(name, flag, c, visibility, l, lineType), lv.items, br.pos - start)
      decreases |br.pairs| - br.pos, doLoop
    {
      ghost var here := br.pos;
      ghost var h := Header(name, flag, c, visibility, l, lineType);
      ghost var before := lv.items;
      doLoop, name, flag, c, visibility, l, lineType := ReadEntityPair(br, univers, lv, name, flag, c, visibility, l, lineType);
      if here == |br.pairs| || br.pairs[here].code == TYPE {
        EntityStops(whole, br.pairs, start, here, h, before, univers);
      } else if br.pairs[here].code == X_1 {
        EntityReadsVertices(whole, br.pairs, start, here, h, before, univers, lv.items, br.pos);
      } else {
        EntityAdvances(whole, br.pairs, start, here, h, before, univers, Header(name, flag, c, visibility, l, lineType));
      }
    }
    vertices := lv.items;
  }

  /**
   * `read`: reads the entity's pairs and builds the entity, a polygon when
   * bit 0 of the flag is set and a line otherwise.
   */
  method Read(br: PairReader, univers: Univers, defaultThickness: real) returns (e: LwPolyline)
    requires br.Valid()
    modifies br
    ensures br.Valid() && fresh(e)
    ensures var s := ScanEntity(br.pairs[old(br.pos)..], InitialHeader, [], univers);
      br.pos == old(br.pos) + s.consumed &&
      e.id == s.header.name && e.flag == s.header.flag && e.color == s.header.color &&
      e.layer == s.header.layer && e.lineType == s.header.lineType && e.vertices == s.vertices &&
      e.visibility == 0 && e.thickness == defaultThickness &&
      e.geomType == TypeForFlag(s.header.flag) && e.univers == Some(univers) && e.geometry == None
  {
    var name, flag, c, visibility, l, lineType, lv := ReadEntityLoop(br, univers);
    e := new LwPolyline(name, flag, c, l, lv, visibility, lineType, defaultThickness);
    if flag % 2 == 1 {
      e.geomType := Polygon;
    } else {
      e.geomType := Line;
    }
    e.univers := Some(univers);
  }

  datatype GeometryType = Unset | Line | Polygon

  /** Bit 0 of the flag (`flag & 1`); Dafny's `%` gives the two's-complement low bit. */
  function TypeForFlag(flag: int): (t: GeometryType)
    ensures t == Polygon <==> flag % 2 == 1
    ensures t != Unset
  {
    if flag % 2 == 1 then Polygon else Line
  }

  // ---------------------------------------------------------------------
  // Coordinates and geometry

  datatype Coordinate = Coordinate(x: real, y: real)

  datatype Geometry = LineStringGeometry(points: seq<Coordinate>) | PolygonGeometry(shell: seq<Coordinate>)

  function ToCoordinate(v: Vertex): Coordinate
  {
    Coordinate(v.x, v.y)
  }

  /** `Coordinate.equals2D`. */
  predicate Equals2D(a: Coordinate, b: Coordinate)
  {
    a.x == b.x && a.y == b.y
  }

  function Coordinates(vs: seq<Vertex>): seq<Coordinate>
  {
    seq(|vs|, i requires 0 <= i < |vs| => ToCoordinate(vs[i]))
  }

  /** The type after `toCoordinateArray`: two vertices make a line. */
  function PlacedType(n: nat, t: GeometryType): GeometryType
  {
    if n == 2 then Line else t
  }

  /**
   * The coordinates `toCoordinateArray` produces for type `t`: a polygon of
   * three or more coordinates is closed by repeating the first one when the
   * last differs from it; otherwise the coordinates are left as they are.
   */
  function CloseRing(cs: seq<Coordinate>, t: GeometryType): (r: seq<Coordinate>)
    ensures |cs| <= |r| <= |cs| + 1 && r[..|cs|] == cs
    ensures t == Polygon && |cs| >= 3 ==> Equals2D(r[0], r[|r| - 1])
    ensures |r| == |cs| + 1 <==> t == Polygon && |cs| >= 3 && !Equals2D(cs[0], cs[|cs| - 1])
    ensures |r| == |cs| + 1 ==> r[|cs|] == cs[0]
  {
    if t == Polygon && |cs| >= 3 && !Equals2D(cs[0], cs[|cs| - 1]) then cs + [cs[0]] else cs
  }

  /** The geometry `updateGeometry` leaves for the coordinates `ca` of type `t`. */
  function GeometryFor(ca: seq<Coordinate>, t: GeometryType, current: Option<Geometry>): Option<Geometry>
  {
    if |ca| >= 2 then
      if t == Polygon && |ca| >= 3 then Some(PolygonGeometry(ca)) else Some(LineStringGeometry(ca))
    else
      current
  }

  /** The geometry of vertices `vs` of type `t` once `updateGeometry` ran, `current` being the old one. */
  function UpdatedGeometry(vs: seq<Vertex>, t: GeometryType, current: Option<Geometry>): Option<Geometry>
  {
    var placed := PlacedType(|vs|, t);
    GeometryFor(CloseRing(Coordinates(vs), placed), placed, current)
  }

  function Translated(vs: seq<Vertex>, dx: real, dy: real): seq<Vertex>
  {
    seq(|vs|, i requires 0 <= i < |vs| => vs[i].(x := vs[i].x + dx, y := vs[i].y + dy))
  }

  function TranslatedCoordinates(cs: seq<Coordinate>, dx: real, dy: real): seq<Coordinate>
  {
    seq(|cs|, i requires 0 <= i < |cs| => Coordinate(cs[i].x + dx, cs[i].y + dy))
  }

  // ---------------------------------------------------------------------
  // The entity

  class LwPolyline {
    var id: string
    var flag: int
    var vertices: seq<Vertex>
    var color: int
    var layer: Option<Layer>
    var visibility: int
    var lineType: Option<DxfLineType>
    var thickness: real
    var geomType: GeometryType
    var univers: Option<Univers>
    var geometry: Option<Geometry>

    /**
     * The field constructor. The vertices are copied; the visibility handed
     * to the entity is always 0, whatever `visibility` says.
     */
    constructor (name: string, flag: int, c: int, l: Option<Layer>, v: seq<Vertex>, visibility: int,
                 lineType: Option<DxfLineType>, thickness: real)
      ensures id == name && this.flag == flag && color == c && layer == l && vertices == v
      ensures this.visibility == 0 && this.lineType == lineType && this.thickness == thickness
      ensures geomType == Unset && univers == None && geometry == None
    {
      id := name;
      this.flag := flag;
      color := c;
      layer := l;
      vertices := v;
      this.visibility := 0;
      this.lineType := lineType;
      this.thickness := thickness;
      geomType := Unset;
      univers := None;
      geometry := None;
    }

    /** The copy constructor: everything but the visibility and the built geometry is copied. */
    constructor Copy(orig: LwPolyline)
      ensures id == orig.id && flag == orig.flag && color == orig.color && layer == orig.layer
      ensures vertices == orig.vertices && lineType == orig.lineType && thickness == orig.thickness
      ensures geomType == orig.geomType && univers == orig.univers
      ensures visibility == 0 && geometry == None
    {
      id := orig.id;
      flag := orig.flag;
      color := orig.color;
      layer := orig.layer;
      vertices := orig.vertices;
      visibility := 0;
      lineType := orig.lineType;
      thickness := orig.thickness;
      geomType := orig.geomType;
      univers := orig.univers;
      geometry := None;
    }

    /** `clone`: a new entity built by the copy constructor; this one is left alone. */
    method Clone() returns (c: LwPolyline)
      ensures fresh(c)
      ensures c.id == id && c.flag == flag && c.color == color && c.layer == layer
      ensures c.vertices == vertices && c.lineType == lineType && c.thickness == thickness
      ensures c.geomType == geomType && c.univers == univers
      ensures c.visibility == 0 && c.geometry == None
    {
      c := new LwPolyline.Copy(this);
    }

    /**
     * `toCoordinateArray`, up to the final placement: the coordinates of the
     * vertices, a polygon ring closed, and two vertices demoted to a line.
     */
    method ToCoordinateArray() returns (ca: seq<Coordinate>)
      modifies this`geomType
      ensures geomType == PlacedType(|vertices|, old(geomType))
      ensures ca == CloseRing(Coordinates(vertices), geomType)
    {
      var lc: seq<Coordinate> := [];
      var i := 0;
      while i < |vertices|
        invariant 0 <= i <= |vertices|
        invariant |lc| == i
        invariant forall k :: 0 <= k < i ==> lc[k] == ToCoordinate(vertices[k])
      {
        lc := lc + [ToCoordinate(vertices[i])];
        i := i + 1;
      }
      assert lc == Coordinates(vertices);
      if |lc| == 2 {
        geomType := Line;
      }
      if geomType == Polygon {
        if |lc| >= 3 {
          var firstc := lc[0];
          var lastc := lc[|lc| - 1];
          if !Equals2D(firstc, lastc) {
            lc := lc + [firstc];
          }
        }
      }
      ca := lc;
    }

    /** `updateGeometry`: a polygon for a polygon of three or more coordinates, a line string otherwise. */
    method UpdateGeometry()
      modifies this`geomType, this`geometry
      ensures geomType == PlacedType(|vertices|, old(geomType))
      ensures geometry == UpdatedGeometry(vertices, old(geomType), old(geometry))
    {
      var ca := ToCoordinateArray();
      if |ca| >= 2 {
        if geomType == Polygon && |ca| >= 3 {
          geometry := Some(PolygonGeometry(ca));
        } else {
          geometry := Some(LineStringGeometry(ca));
        }
      }
    }

    /** `getGeometry`: builds the geometry on first use. */
    method GetGeometry() returns (g: Option<Geometry>)
      modifies this`geomType, this`geometry
      ensures old(geometry).Some? ==> g == old(geometry) && geomType == old(geomType)
      ensures old(geometry).None? ==>
                g == UpdatedGeometry(vertices, old(geomType), None) && geomType == PlacedType(|vertices|, old(geomType))
      ensures g == geometry
    {
      if geometry == None {
        UpdateGeometry();
      }
      g := geometry;
    }

    /** `translate`: moves every vertex by (dx, dy) and returns this entity. */
    method Translate(dx: real, dy: real) returns (r: LwPolyline)
      modifies this`vertices
      ensures r == this
      ensures vertices == Translated(old(vertices), dx, dy)
    {
      var i := 0;
      while i < |vertices|
        invariant 0 <= i <= |vertices| == |old(vertices)|
        invariant forall k :: 0 <= k < i ==> vertices[k] == Translated(old(vertices), dx, dy)[k]
        invariant forall k :: i <= k < |vertices| ==> vertices[k] == old(vertices)[k]
      {
        var vertex := vertices[i];
        vertices := vertices[i := vertex.(x := vertex.x + dx, y := vertex.y + dy)];
        i := i + 1;
      }
      r := this;
    }
  }

  // ---------------------------------------------------------------------
  // Properties of the vertex format

  /** The value of the last pair with group code `code` in `s`, if there is one. */
  function Last(s: seq<Pair>, code: int): Option<Value>
    decreases |s|
  {
    if s == [] then None
    else if s[|s| - 1].code == code then Some(s[|s| - 1].value)
    else Last(s[..|s| - 1], code)
  }

  /** `Last` finds the pair with that code that no later pair with that code follows. */
  lemma {:induction false} LastIsLatest(s: seq<Pair>, code: int)
    ensures Last(s, code).None? <==> forall i :: 0 <= i < |s| ==> s[i].code != code
    ensures Last(s, code).Some? ==>
              exists i :: 0 <= i < |s| && s[i].code == code && s[i].value == Last(s, code).value &&
                          forall j :: i < j < |s| ==> s[j].code != code
    decreases |s|
  {
    if s != [] && s[|s| - 1].code != code {
      var front := s[..|s| - 1];
      LastIsLatest(front, code);
      assert forall i :: 0 <= i < |front| ==> front[i] == s[i];
    }
  }

  /** Looking back from a pair put in front of `s`: a later pair with the same code wins. */
  lemma {:induction false} LastPrepend(c: Pair, s: seq<Pair>, code: int)
    ensures Last([c] + s, code) ==
            if Last(s, code).Some? then Last(s, code) else if c.code == code then Some(c.value) else None
    decreases |s|
  {
    if s == [] {
      assert [c] + s == [c];
      assert [c][..0] == [];
    } else {
      assert ([c] + s)[..|[c] + s| - 1] == [c] + s[..|s| - 1];
      LastPrepend(c, s[..|s| - 1], code);
    }
  }

  /**
   * The state after the pairs `body`, none of which is TYPE or starts a new
   * vertex: the last y and the last bulge win, and y counts as found once
   * any code 20 was seen.
   */
  function AbsorbAll(p: Pending, body: seq<Pair>): Pending
  {
    var y := Last(body, Y_1);
    var b := Last(body, DOUBLE_3);
    Pending(p.x, if y.Some? then y.value.asDouble else p.y, if b.Some? then b.value.asDouble else p.b,
            p.xFound, p.yFound || y.Some?)
  }

  /** Pairs inside a vertex store nothing and leave the state `AbsorbAll` describes. */
  lemma {:induction false} ScanBody(body: seq<Pair>, tail: seq<Pair>, p: Pending)
    requires forall i :: 0 <= i < |body| ==> body[i].code != TYPE && body[i].code != X_1
    ensures ScanVertices(body + tail, p).vertices == ScanVertices(tail, AbsorbAll(p, body)).vertices
    ensures ScanVertices(body + tail, p).consumed == |body| + ScanVertices(tail, AbsorbAll(p, body)).consumed
    decreases |body|
  {
    if body == [] {
      assert body + tail == tail;
      assert AbsorbAll(p, body) == p;
    } else {
      var c := body[0];
      assert body + tail == [c] + (body[1..] + tail);
      assert ([c] + (body[1..] + tail))[1..] == body[1..] + tail;
      ScanBody(body[1..], tail, Absorb(p, c));
      assert body == [c] + body[1..];
      LastPrepend(c, body[1..], Y_1);
      LastPrepend(c, body[1..], DOUBLE_3);
      assert AbsorbAll(Absorb(p, c), body[1..]) == AbsorbAll(p, body);
    }
  }

  /** The bulge of a vertex whose pairs after the 10 are `body`: the last 42, or 0. */
  function BulgeOf(body: seq<Pair>): real
  {
    var b := Last(body, DOUBLE_3);
    if b.Some? then b.value.asDouble else 0.0
  }

  /**
   * One vertex group read on its own: a vertex is stored exactly when a 20
   * follows the 10, with the last 20 and the last 42 (bulge 0 without one).
   */
  lemma VertexFromGroup(xp: Pair, body: seq<Pair>, tail: seq<Pair>)
    requires xp.code == X_1
    requires forall i :: 0 <= i < |body| ==> body[i].code != TYPE && body[i].code != X_1
    requires tail != [] && tail[0].code == TYPE
    ensures var y := Last(body, Y_1);
            ScanVertices([xp] + body + tail, NoPending) ==
            VertexScan(if y.Some? then [Vertex(xp.value.asDouble, y.value.asDouble, BulgeOf(body))] else [],
                       1 + |body|)
  {
    var q := NoPending.(x := xp.value.asDouble, xFound := true);
    var all := [xp] + body + tail;
    assert all[0] == xp;
    assert all[1..] == body + tail;
    ScanBody(body, tail, q);
  }

  /** The pairs a writer emits for one vertex: 10, 20, and 42 when the bulge is not zero. */
  function VertexGroup(v: Vertex): seq<Pair>
  {
    [Pair(X_1, Value("", v.x, 0)), Pair(Y_1, Value("", v.y, 0))]
      + (if v.bulge != 0.0 then [Pair(DOUBLE_3, Value("", v.bulge, 0))] else [])
  }

  function VertexGroups(vs: seq<Vertex>): seq<Pair>
  {
    if vs == [] then [] else VertexGroup(vs[0]) + VertexGroups(vs[1..])
  }

  /** The state after the group of `v`: that vertex, complete and not yet stored. */
  function Staged(v: Vertex): Pending
  {
    Pending(v.x, v.y, v.bulge, true, true)
  }

  /** One pair other than TYPE, read in front of `rest`. */
  lemma ScanStep(c: Pair, rest: seq<Pair>, p: Pending)
    requires c.code != TYPE
    ensures var t := ScanVertices(rest, Absorb(p, c));
            ScanVertices([c] + rest, p) ==
            VertexScan((if c.code == X_1 then Emitted(p) else []) + t.vertices, t.consumed + 1)
  {
    assert ([c] + rest)[0] == c;
    assert ([c] + rest)[1..] == rest;
  }

  /** The group of one vertex, read from a state that holds nothing or a complete vertex. */
  lemma ScanGroup(v: Vertex, rest: seq<Pair>, p: Pending)
    requires AfterFlush(p) == NoPending
    ensures var t := ScanVertices(rest, Staged(v));
            ScanVertices(VertexGroup(v) + rest, p) ==
            VertexScan(Emitted(p) + t.vertices, |VertexGroup(v)| + t.consumed)
  {
    var xp := Pair(X_1, Value("", v.x, 0));
    var yp := Pair(Y_1, Value("", v.y, 0));
    if v.bulge != 0.0 {
      var bp := Pair(DOUBLE_3, Value("", v.bulge, 0));
      assert VertexGroup(v) + rest == [xp] + ([yp] + ([bp] + rest));
      var t := ScanVertices(rest, Staged(v));
      var noBulge := Staged(v).(b := 0.0);
      assert Absorb(noBulge, bp) == Staged(v);
      ScanStep(bp, rest, noBulge);
      assert [] + t.vertices == t.vertices;
      assert ScanVertices([bp] + rest, noBulge) == VertexScan(t.vertices, t.consumed + 1);
      ScanCoordinates(v, [bp] + rest, p);
    } else {
      assert VertexGroup(v) + rest == [xp] + ([yp] + rest);
      ScanCoordinates(v, rest, p);
    }
  }

  /** The 10 and 20 of a vertex: its coordinates become pending, with no bulge yet. */
  lemma ScanCoordinates(v: Vertex, rest: seq<Pair>, p: Pending)
    requires AfterFlush(p) == NoPending
    ensures var xp := Pair(X_1, Value("", v.x, 0));
            var yp := Pair(Y_1, Value("", v.y, 0));
            var t := ScanVertices(rest, Staged(v).(b := 0.0));
            ScanVertices([xp] + ([yp] + rest), p) == VertexScan(Emitted(p) + t.vertices, 2 + t.consumed)
  {
    var xp := Pair(X_1, Value("", v.x, 0));
    var yp := Pair(Y_1, Value("", v.y, 0));
    var afterX := NoPending.(x := v.x, xFound := true);
    var t := ScanVertices(rest, Staged(v).(b := 0.0));
    assert Absorb(afterX, yp) == Staged(v).(b := 0.0);
    ScanStep(yp, rest, afterX);
    var t1 := ScanVertices([yp] + rest, afterX);
    assert [] + t.vertices == t.vertices;
    assert t1 == VertexScan(t.vertices, t.consumed + 1);
    assert Absorb(p, xp) == afterX;
    ScanStep(xp, [yp] + rest, p);
  }

  function DropLast(vs: seq<Vertex>): seq<Vertex>
  {
    if vs == [] then [] else vs[..|vs| - 1]
  }

  /** Written vertex groups followed by TYPE are read back: every vertex, in order. */
  lemma {:induction false} ScanGroupsThenType(vs: seq<Vertex>, tail: seq<Pair>, p: Pending)
    requires AfterFlush(p) == NoPending
    requires tail != [] && tail[0].code == TYPE
    ensures ScanVertices(VertexGroups(vs) + tail, p) == VertexScan(Emitted(p) + vs, |VertexGroups(vs)|)
    decreases |vs|
  {
    if vs == [] {
      assert VertexGroups(vs) + tail == tail;
      assert tail[0] == ([] + tail)[0];
      assert Emitted(p) + vs == Emitted(p);
    } else {
      var v := vs[0];
      var more := vs[1..];
      var after := VertexGroups(more) + tail;
      assert VertexGroups(vs) + tail == VertexGroup(v) + after;
      ScanGroup(v, after, p);
      ScanGroupsThenType(more, tail, Staged(v));
      assert Emitted(Staged(v)) + more == vs;
    }
  }

  /** Written vertex groups at the end of the input are read back except the last vertex. */
  lemma {:induction false} ScanGroupsToEnd(vs: seq<Vertex>, p: Pending)
    requires AfterFlush(p) == NoPending
    ensures ScanVertices(VertexGroups(vs), p) == VertexScan(DropLast(Emitted(p) + vs), |VertexGroups(vs)|)
    decreases |vs|
  {
    if vs == [] {
      assert Emitted(p) + vs == Emitted(p);
    } else {
      var v := vs[0];
      var more := vs[1..];
      var after := VertexGroups(more);
      assert VertexGroups(vs) == VertexGroup(v) + after;
      ScanGroup(v, after, p);
      ScanGroupsToEnd(more, Staged(v));
      assert Emitted(Staged(v)) + more == vs;
      DropLastAppend(Emitted(p), vs);
    }
  }

  lemma DropLastAppend(a: seq<Vertex>, b: seq<Vertex>)
    requires b != []
    ensures DropLast(a + b) == a + DropLast(b)
  {
    assert (a + b)[..|a + b| - 1] == a + b[..|b| - 1];
  }

  /** Vertices written and followed by the next entity's TYPE pair are read back exactly. */
  lemma ReadBackVertices(vs: seq<Vertex>, tail: seq<Pair>)
    requires tail != [] && tail[0].code == TYPE
    ensures ScanVertices(VertexGroups(vs) + tail, NoPending) == VertexScan(vs, |VertexGroups(vs)|)
  {
    ScanGroupsThenType(vs, tail, NoPending);
    assert Emitted(NoPending) + vs == vs;
  }

  /** At the end of the input the pending last vertex is never stored. */
  lemma EndOfInputDropsLastVertex(vs: seq<Vertex>)
    requires vs != []
    ensures ScanVertices(VertexGroups(vs), NoPending).vertices == vs[..|vs| - 1]
  {
    ScanGroupsToEnd(vs, NoPending);
    assert Emitted(NoPending) + vs == vs;
  }

  // ---------------------------------------------------------------------
  // Properties of the entity reader

  /** The number of header pairs at the front of `rest`: those before the first TYPE or code 10. */
  function HeaderEnd(rest: seq<Pair>): (n: nat)
    ensures n <= |rest|
    ensures n < |rest| ==> rest[n].code == TYPE || rest[n].code == X_1
    decreases |rest|
  {
    if rest == [] || rest[0].code == TYPE || rest[0].code == X_1 then 0 else 1 + HeaderEnd(rest[1..])
  }

  /**
   * The header after the header pairs `s`, starting from `h`: each field
   * takes the value of the last pair with its group code, a layer or line
   * type name being looked up in the drawing; fields without a pair keep
   * their value.
   */
  function LatestHeader(h: Header, s: seq<Pair>, u: Univers): Header
  {
    var name := Last(s, NAME);
    var flag := Last(s, INT_1);
    var color := Last(s, COLOR);
    var visibility := Last(s, VISIBILITY);
    var layer := Last(s, LAYER_NAME);
    var lineType := Last(s, LINETYPE_NAME);
    Header(
      if name.Some? then name.value.text else h.name,
      if flag.Some? then flag.value.asShort else h.flag,
      if color.Some? then color.value.asShort else h.color,
      if visibility.Some? then visibility.value.asShort else h.visibility,
      if layer.Some? then u.findLayer(layer.value.text) else h.layer,
      if lineType.Some? then u.findLType(lineType.value.text) else h.lineType)
  }

  /** One header pair in front of `s` is overridden by any later pair with its code. */
  lemma LatestHeaderStep(h: Header, c: Pair, s: seq<Pair>, u: Univers)
    ensures LatestHeader(HeaderStep(h, c, u), s, u) == LatestHeader(h, [c] + s, u)
  {
    LastPrepend(c, s, NAME);
    LastPrepend(c, s, INT_1);
    LastPrepend(c, s, COLOR);
    LastPrepend(c, s, VISIBILITY);
    LastPrepend(c, s, LAYER_NAME);
    LastPrepend(c, s, LINETYPE_NAME);
    var stepped := HeaderStep(h, c, u);
    if c.code == NAME {
      assert stepped == h.(name := c.value.text);
    } else if c.code == LAYER_NAME {
      assert stepped == h.(layer := u.findLayer(c.value.text));
    } else if c.code == LINETYPE_NAME {
      assert stepped == h.(lineType := u.findLType(c.value.text));
    } else if c.code == COLOR {
      assert stepped == h.(color := c.value.asShort);
    } else if c.code == INT_1 {
      assert stepped == h.(flag := c.value.asShort);
    } else if c.code == VISIBILITY {
      assert stepped == h.(visibility := c.value.asShort);
    } else {
      assert stepped == h;
    }
  }

  /**
   * The header pairs before the first TYPE or code 10 only update the
   * header, each field taking the latest value of its group code.
   */
  lemma {:induction false} HeaderPrefix(rest: seq<Pair>, h: Header, lv: seq<Vertex>, u: Univers)
    ensures var n := HeaderEnd(rest);
            var t := ScanEntity(rest[n..], LatestHeader(h, rest[..n], u), lv, u);
            ScanEntity(rest, h, lv, u) == EntityScan(t.header, t.vertices, n + t.consumed)
    decreases |rest|
  {
    var n := HeaderEnd(rest);
    if n == 0 {
      assert rest[..0] == [] && rest[0..] == rest;
    } else {
      var c := rest[0];
      var tail := rest[1..];
      var next := HeaderStep(h, c, u);
      HeaderPrefix(tail, next, lv, u);
      assert rest[..n] == [c] + tail[..n - 1];
      assert tail[n - 1..] == rest[n..];
      LatestHeaderStep(h, c, tail[..n - 1], u);
    }
  }

  /**
   * What `read` collects, stated without the scan: with only header pairs
   * before TYPE or the end of the input, the latest value of each, and no
   * vertices.
   */
  lemma HeaderOnly(rest: seq<Pair>, h: Header, lv: seq<Vertex>, u: Univers)
    requires HeaderEnd(rest) == |rest| || rest[HeaderEnd(rest)].code == TYPE
    ensures var n := HeaderEnd(rest);
            ScanEntity(rest, h, lv, u) == EntityScan(LatestHeader(h, rest[..n], u), lv, n)
  {
    HeaderPrefix(rest, h, lv, u);
  }

  /**
   * The header `read` keeps is made of the pairs before the first code 10
   * alone: the vertex reader takes every later pair up to TYPE, so a header
   * code after the first vertex never reaches the header.
   */
  lemma HeaderBeforeFirstVertex(rest: seq<Pair>, h: Header, lv: seq<Vertex>, u: Univers)
    ensures ScanEntity(rest, h, lv, u).header == LatestHeader(h, rest[..HeaderEnd(rest)], u)
  {
    var n := HeaderEnd(rest);
    HeaderPrefix(rest, h, lv, u);
    if n < |rest| && rest[n].code == X_1 {
      VerticesEndEntity(rest[n..], LatestHeader(h, rest[..n], u), lv, u);
    }
  }

  /** From a code 10 onwards the header is left as it was. */
  lemma VerticesEndEntity(r: seq<Pair>, h: Header, lv: seq<Vertex>, u: Univers)
    requires r != [] && r[0].code == X_1
    ensures ScanEntity(r, h, lv, u).header == h
  {
    var s := ScanVertices(r, NoPending);
    var after := r[s.consumed..];
    if after != [] {
      assert after[0] == r[s.consumed];
    }
    assert ScanEntity(after, h, lv + s.vertices, u).header == h;
  }

  /** A code 70 after the first vertex is ignored: 10, 20, 70 = 1, 0 gives flag 0, a line. */
  lemma FlagAfterVertexIgnored(u: Univers)
    ensures var pairs := [Pair(X_1, Value("", 1.0, 0)), Pair(Y_1, Value("", 2.0, 0)),
                          Pair(INT_1, Value("1", 0.0, 1)), Pair(TYPE, Value("SEQEND", 0.0, 0))];
            var h := ScanEntity(pairs, InitialHeader, [], u).header;
            h.flag == 0 && TypeForFlag(h.flag) == Line
  {
    var pairs := [Pair(X_1, Value("", 1.0, 0)), Pair(Y_1, Value("", 2.0, 0)),
                  Pair(INT_1, Value("1", 0.0, 1)), Pair(TYPE, Value("SEQEND", 0.0, 0))];
    VerticesEndEntity(pairs, InitialHeader, [], u);
  }

  /**
   * When a code 10 ends the header pairs, the vertex reader takes over
   * there, with the header as those pairs left it, and `read` goes on after
   * the vertices.
   */
  lemma HeaderThenVertices(rest: seq<Pair>, h: Header, lv: seq<Vertex>, u: Univers)
    requires HeaderEnd(rest) < |rest| && rest[HeaderEnd(rest)].code == X_1
    ensures var n := HeaderEnd(rest);
            var vs := ScanVertices(rest[n..], NoPending);
            var after := ScanEntity(rest[n + vs.consumed..], LatestHeader(h, rest[..n], u), lv + vs.vertices, u);
            ScanEntity(rest, h, lv, u) == EntityScan(after.header, after.vertices, n + vs.consumed + after.consumed)
  {
    var n := HeaderEnd(rest);
    var hh := LatestHeader(h, rest[..n], u);
    HeaderPrefix(rest, h, lv, u);
    VertexAt(rest, n, hh, lv, u);
    var vs := ScanVertices(rest[n..], NoPending);
    EntityChain(ScanEntity(rest, h, lv, u), ScanEntity(rest[n..], hh, lv, u),
                ScanEntity(rest[n + vs.consumed..], hh, lv + vs.vertices, u), n, vs.consumed);
  }

  lemma EntityChain(whole: EntityScan, mid: EntityScan, last: EntityScan, n: nat, k: nat)
    requires whole == EntityScan(mid.header, mid.vertices, n + mid.consumed)
    requires mid == EntityScan(last.header, last.vertices, k + last.consumed)
    ensures whole == EntityScan(last.header, last.vertices, n + k + last.consumed)
  {
  }

  /** `EntityAtVertex` at position `n` of `rest`. */
  lemma VertexAt(rest: seq<Pair>, n: nat, h: Header, lv: seq<Vertex>, u: Univers)
    requires n < |rest| && rest[n].code == X_1
    ensures var vs := ScanVertices(rest[n..], NoPending);
            var after := ScanEntity(rest[n + vs.consumed..], h, lv + vs.vertices, u);
            ScanEntity(rest[n..], h, lv, u) == EntityScan(after.header, after.vertices, vs.consumed + after.consumed)
  {
    var r := rest[n..];
    assert r[0] == rest[n];
    EntityAtVertex(r, h, lv, u);
    var vs := ScanVertices(r, NoPending);
    SliceOfSlice(rest, n, vs.consumed);
  }

  lemma SliceOfSlice(s: seq<Pair>, i: nat, j: nat)
    requires i + j <= |s|
    ensures s[i..][j..] == s[i + j..]
  {
  }

  /** At a code 10 `read` hands over to the vertex reader and goes on after it. */
  lemma EntityAtVertex(r: seq<Pair>, h: Header, lv: seq<Vertex>, u: Univers)
    requires r != [] && r[0].code == X_1
    ensures var vs := ScanVertices(r, NoPending);
            var after := ScanEntity(r[vs.consumed..], h, lv + vs.vertices, u);
            ScanEntity(r, h, lv, u) == EntityScan(after.header, after.vertices, vs.consumed + after.consumed)
  {
  }

  /**
   * An entity written as header pairs, then vertex groups, then the next
   * TYPE pair, is read back: its latest header values and all its vertices.
   */
  lemma ReadBackEntity(header: seq<Pair>, vs: seq<Vertex>, tail: seq<Pair>, u: Univers)
    requires forall i :: 0 <= i < |header| ==> header[i].code != TYPE && header[i].code != X_1
    requires vs != [] && tail != [] && tail[0].code == TYPE
    ensures ScanEntity(header + VertexGroups(vs) + tail, InitialHeader, [], u) ==
            EntityScan(LatestHeader(InitialHeader, header, u), vs, |header| + |VertexGroups(vs)|)
  {
    var rest := header + VertexGroups(vs) + tail;
    var n := |header|;
    var written := VertexGroups(vs);
    assert rest[..n] == header;
    assert rest[n..] == written + tail;
    assert rest[n] == written[0];
    HeaderEndAt(rest, header);
    HeaderPrefix(rest, InitialHeader, [], u);
    ReadBackEntityVertices(vs, tail, LatestHeader(InitialHeader, header, u), u);
  }

  /** Vertex groups followed by TYPE: `read` takes all of them and nothing else. */
  lemma ReadBackEntityVertices(vs: seq<Vertex>, tail: seq<Pair>, h: Header, u: Univers)
    requires vs != [] && tail != [] && tail[0].code == TYPE
    ensures ScanEntity(VertexGroups(vs) + tail, h, [], u) == EntityScan(h, vs, |VertexGroups(vs)|)
  {
    var r := VertexGroups(vs) + tail;
    assert r[0] == VertexGroups(vs)[0];
    ReadBackVertices(vs, tail);
    EntityAtVertex(r, h, [], u);
    assert r[|VertexGroups(vs)|..] == tail;
    assert [] + vs == vs;
  }

  /** The header ends where the first code 10 or TYPE follows the header pairs. */
  lemma {:induction false} HeaderEndAt(rest: seq<Pair>, header: seq<Pair>)
    requires |header| < |rest| && rest[..|header|] == header
    requires forall i :: 0 <= i < |header| ==> header[i].code != TYPE && header[i].code != X_1
    requires rest[|header|].code == TYPE || rest[|header|].code == X_1
    ensures HeaderEnd(rest) == |header|
    decreases |header|
  {
    if header != [] {
      assert rest[0] == header[0];
      assert rest[1..][..|header| - 1] == header[1..];
      HeaderEndAt(rest[1..], header[1..]);
    }
  }

  /**
   * The flag is a Java short, and `(flag & 1) == 1` on its two's-complement
   * bits selects the same type as `TypeForFlag`.
   */
  lemma FlagBitSelectsPolygon(flag: int)
    requires -0x8000 <= flag < 0x8000
    ensures (((flag % 0x1_0000) as bv16) & 1 == 1) <==> TypeForFlag(flag) == Polygon
  {
    LowBit(flag % 0x1_0000);
  }

  lemma LowBit(n: int)
    requires 0 <= n < 0x1_0000
    ensures ((n as bv16) & 1 == 1) <==> n % 2 == 1
  {
  }

  // ---------------------------------------------------------------------
  // Properties of the geometry

  /**
   * The geometry `updateGeometry` builds: none changes below two vertices,
   * two vertices always make a line string, and three or more make a closed
   * polygon exactly when the type is polygon.
   */
  lemma UpdatedGeometryCases(vs: seq<Vertex>, t: GeometryType, current: Option<Geometry>)
    ensures |vs| < 2 ==> UpdatedGeometry(vs, t, current) == current
    ensures |vs| == 2 ==> UpdatedGeometry(vs, t, current) == Some(LineStringGeometry(Coordinates(vs)))
    ensures |vs| >= 3 && t != Polygon ==> UpdatedGeometry(vs, t, current) == Some(LineStringGeometry(Coordinates(vs)))
    ensures |vs| >= 3 && t == Polygon ==>
              var g := UpdatedGeometry(vs, t, current);
              g.Some? && g.value.PolygonGeometry? && |vs| <= |g.value.shell| <= |vs| + 1 &&
              g.value.shell[..|vs|] == Coordinates(vs) &&
              Equals2D(g.value.shell[0], g.value.shell[|g.value.shell| - 1])
  {
  }

  /** Moving by one offset and then another is moving by their sum. */
  lemma TranslatedComposes(vs: seq<Vertex>, dx1: real, dy1: real, dx2: real, dy2: real)
    ensures Translated(Translated(vs, dx1, dy1), dx2, dy2) == Translated(vs, dx1 + dx2, dy1 + dy2)
  {
    var a := Translated(Translated(vs, dx1, dy1), dx2, dy2);
    var b := Translated(vs, dx1 + dx2, dy1 + dy2);
    assert forall i :: 0 <= i < |vs| ==> a[i] == b[i];
  }

  /** A move keeps the number of vertices and their bulges, and a zero move changes nothing. */
  lemma TranslatedKeepsShape(vs: seq<Vertex>, dx: real, dy: real)
    ensures |Translated(vs, dx, dy)| == |vs|
    ensures forall i :: 0 <= i < |vs| ==> Translated(vs, dx, dy)[i].bulge == vs[i].bulge
    ensures Translated(vs, 0.0, 0.0) == vs
  {
    assert forall i :: 0 <= i < |vs| ==> Translated(vs, 0.0, 0.0)[i] == vs[i];
  }

  function TranslatedGeometry(g: Geometry, dx: real, dy: real): Geometry
  {
    match g
    case LineStringGeometry(ps) => LineStringGeometry(TranslatedCoordinates(ps, dx, dy))
    case PolygonGeometry(shell) => PolygonGeometry(TranslatedCoordinates(shell, dx, dy))
  }

  /** Closing a ring commutes with a move: equal end points stay equal. */
  lemma CloseRingTranslated(vs: seq<Vertex>, t: GeometryType, dx: real, dy: real)
    ensures CloseRing(Coordinates(Translated(vs, dx, dy)), t) == TranslatedCoordinates(CloseRing(Coordinates(vs), t), dx, dy)
  {
    var cs := Coordinates(vs);
    var moved := Coordinates(Translated(vs, dx, dy));
    assert moved == TranslatedCoordinates(cs, dx, dy);
    if t == Polygon && |cs| >= 3 {
      assert Equals2D(moved[0], moved[|cs| - 1]) <==> Equals2D(cs[0], cs[|cs| - 1]);
      if !Equals2D(cs[0], cs[|cs| - 1]) {
        assert moved + [moved[0]] == TranslatedCoordinates(cs + [cs[0]], dx, dy);
      }
    }
  }

  /**
   * Building the geometry of a moved entity gives the moved geometry: the
   * translated vertices and then `updateGeometry` agree with `updateGeometry`
   * and then a move of what it built. The geometry here is built from the
   * unplaced coordinates, so this holds for an entity whose placement is the
   * identity; a rotating placement does not commute with a move.
   */
  lemma UpdatedGeometryTranslated(vs: seq<Vertex>, t: GeometryType, current: Option<Geometry>, dx: real, dy: real)
    requires |vs| >= 2
    ensures var g := UpdatedGeometry(vs, t, current);
            g.Some? && UpdatedGeometry(Translated(vs, dx, dy), t, current) == Some(TranslatedGeometry(g.value, dx, dy))
  {
    CloseRingTranslated(vs, PlacedType(|vs|, t), dx, dy);
  }
}
