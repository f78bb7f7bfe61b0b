/**
 * The sprite batch's vertex staging: a fixed array of triangle vertices and
 * one of quad vertices, each with a counter. Adding a primitive of the other
 * kind, a texture or shader change, or a full array flushes the pending
 * portion to the GPU; the draw calls made are recorded in order. The quad
 * index buffer is filled once with the pattern of two triangles per quad.
 */
module SpriteBatches {
  import opened Wrappers
  import opened Int32
  import opened IntVectors2
  import opened IntRects

  const MAX_TRIANGLES_IN_PORTION: nat := 600
  const VERTICES_PER_TRIANGLE: nat := 3
  const MAX_QUADS_IN_PORTION: nat := 500
  const INDICES_PER_QUAD: nat := 6
  const VERTICES_PER_QUAD: nat := 4

  const TRIANGLE_CAPACITY: nat := MAX_TRIANGLES_IN_PORTION * VERTICES_PER_TRIANGLE
  const QUAD_CAPACITY: nat := MAX_QUADS_IN_PORTION * VERTICES_PER_QUAD
  const INDEX_COUNT: nat := MAX_QUADS_IN_PORTION * INDICES_PER_QUAD

  /** Opaque white, as 0xAABBGGRR. */
  const WHITE: bv32 := 0xFFFF_FFFF

  datatype BlendMode = BLEND_REPLACE | BLEND_ADD | BLEND_MULTIPLY | BLEND_ALPHA | BLEND_ADDALPHA
                     | BLEND_PREMULALPHA | BLEND_INVDESTALPHA | BLEND_SUBTRACT | BLEND_SUBTRACTALPHA
  datatype CompareMode = CMP_ALWAYS | CMP_EQUAL | CMP_NOTEQUAL | CMP_LESS | CMP_LESSEQUAL | CMP_GREATER | CMP_GREATEREQUAL

  datatype Position = Position(x: real, y: real, z: real)

  /** A triangle vertex: position and colour. */
  datatype TVertex = TVertex(position: Position, color: bv32)

  /** A quad vertex: position, colour and texture coordinates. */
  datatype QVertex = QVertex(position: Position, color: bv32, u: real, v: real)

  /** A texture or shader; `None` is null. */
  type Handle = Option<nat>

  /** The triangle to add next. */
  datatype TriangleData = TriangleData(v0: TVertex, v1: TVertex, v2: TVertex)

  /** The quad to add next, with the texture and shaders it is drawn with. */
  datatype QuadData = QuadData(texture: Handle, vs: Handle, ps: Handle, v0: QVertex, v1: QVertex, v2: QVertex, v3: QVertex)

  /** A draw call: the vertices handed to the GPU, and for quads the index count drawn. */
  datatype DrawCall =
    | TriangleDraw(vs: Handle, ps: Handle, tVertices: seq<TVertex>)
    | QuadDraw(texture: Handle, vs: Handle, ps: Handle, qVertices: seq<QVertex>, indexCount: nat)

  /** What the batch holds: the pending vertices, the current quad texture and shaders, and the draws so far. */
  datatype BatchState = BatchState(tPending: seq<TVertex>, qPending: seq<QVertex>,
                                   texture: Handle, vs: Handle, ps: Handle, draws: seq<DrawCall>)

  /** The counters are whole primitives below capacity, and never both positive. */
  predicate ValidState(st: BatchState)
  {
    |st.tPending| % VERTICES_PER_TRIANGLE == 0 && |st.tPending| < TRIANGLE_CAPACITY
    && |st.qPending| % VERTICES_PER_QUAD == 0 && |st.qPending| < QUAD_CAPACITY
    && !(|st.tPending| > 0 && |st.qPending| > 0)
  }

  /**
   * Render the pending portion: the triangles if there are any, else the
   * quads (six indices per quad) with the current texture and shaders;
   * with nothing pending nothing happens.
   */
  function FlushSpec(st: BatchState, tvs: Handle, tps: Handle): (r: BatchState)
    ensures |st.tPending| > 0 ==> r.tPending == [] && r.qPending == st.qPending
    ensures |st.tPending| == 0 && |st.qPending| > 0 ==> r.qPending == [] && r.tPending == []
    ensures |st.tPending| == 0 && |st.qPending| == 0 ==> r == st
    ensures (r.texture, r.vs, r.ps) == (st.texture, st.vs, st.ps)
    ensures st.draws <= r.draws && |r.draws| <= |st.draws| + 1
  {
    if |st.tPending| > 0 then
      st.(tPending := [], draws := st.draws + [TriangleDraw(tvs, tps, st.tPending)])
    else if |st.qPending| > 0 then
      var numQuads := |st.qPending| / VERTICES_PER_QUAD;
      st.(qPending := [], draws := st.draws + [QuadDraw(st.texture, st.vs, st.ps, st.qPending, numQuads * INDICES_PER_QUAD)])
    else st
  }

  function TriangleVertices(tri: TriangleData): seq<TVertex>
  {
    [tri.v0, tri.v1, tri.v2]
  }

  function QuadVertices(quad: QuadData): seq<QVertex>
  {
    [quad.v0, quad.v1, quad.v2, quad.v3]
  }

  /** Add a triangle: pending quads are drawn first, and a full triangle array is drawn after. */
  function AddTriangleSpec(st: BatchState, tri: TriangleData, tvs: Handle, tps: Handle): BatchState
  {
    var s1 := if |st.qPending| > 0 then FlushSpec(st, tvs, tps) else st;
    var s2 := s1.(tPending := s1.tPending + TriangleVertices(tri));
    if |s2.tPending| == TRIANGLE_CAPACITY then FlushSpec(s2, tvs, tps) else s2
  }

  /** Before a quad with another texture or shaders: draw the pending quads and switch to the quad's. */
  function SwitchQuadTarget(st: BatchState, quad: QuadData, tvs: Handle, tps: Handle): BatchState
  {
    if quad.texture != st.texture || quad.vs != st.vs || quad.ps != st.ps
    then FlushSpec(st, tvs, tps).(vs := quad.vs, ps := quad.ps, texture := quad.texture)
    else st
  }

  /**
   * Add a quad: pending triangles are drawn first; a texture or shader change
   * draws the pending quads and switches to the new ones; a full quad array
   * is drawn after.
   */
  function AddQuadSpec(st: BatchState, quad: QuadData, tvs: Handle, tps: Handle): BatchState
  {
    var s1 := if |st.tPending| > 0 then FlushSpec(st, tvs, tps) else st;
    var s2 := SwitchQuadTarget(s1, quad, tvs, tps);
    var s3 := s2.(qPending := s2.qPending + QuadVertices(quad));
    if |s3.qPending| == QUAD_CAPACITY then FlushSpec(s3, tvs, tps) else s3
  }

  /** Adding a triangle keeps the counters valid and leaves no quads pending. */
  lemma AddTriangleKeepsValid(st: BatchState, tri: TriangleData, tvs: Handle, tps: Handle)
    requires ValidState(st)
    ensures ValidState(AddTriangleSpec(st, tri, tvs, tps))
    ensures AddTriangleSpec(st, tri, tvs, tps).qPending == []
  {
  }

  /** Adding a quad keeps the counters valid, leaves no triangles pending and selects the quad's texture and shaders. */
  lemma AddQuadKeepsValid(st: BatchState, quad: QuadData, tvs: Handle, tps: Handle)
    requires ValidState(st)
    ensures var r := AddQuadSpec(st, quad, tvs, tps);
            ValidState(r) && r.tPending == [] && (r.texture, r.vs, r.ps) == (quad.texture, quad.vs, quad.ps)
  {
  }

  /** Every triangle vertex handed over so far, drawn or pending, in order. */
  function TrianglesSubmitted(draws: seq<DrawCall>, tPending: seq<TVertex>): seq<TVertex>
  {
    if draws == [] then tPending
    else
      var last := draws[|draws| - 1];
      TrianglesSubmitted(draws[..|draws| - 1], (if last.TriangleDraw? then last.tVertices else []) + tPending)
  }

  /** Every quad vertex handed over so far, drawn or pending, in order. */
  function QuadsSubmitted(draws: seq<DrawCall>, qPending: seq<QVertex>): seq<QVertex>
  {
    if draws == [] then qPending
    else
      var last := draws[|draws| - 1];
      QuadsSubmitted(draws[..|draws| - 1], (if last.QuadDraw? then last.qVertices else []) + qPending)
  }

  lemma {:induction false} TrianglesSubmittedAppend(draws: seq<DrawCall>, a: seq<TVertex>, b: seq<TVertex>)
    ensures TrianglesSubmitted(draws, a + b) == TrianglesSubmitted(draws, a) + b
    decreases |draws|
  {
    if draws != [] {
      var last := draws[|draws| - 1];
      var lastVertices := if last.TriangleDraw? then last.tVertices else [];
      assert lastVertices + (a + b) == (lastVertices + a) + b;
      TrianglesSubmittedAppend(draws[..|draws| - 1], lastVertices + a, b);
    }
  }

  lemma {:induction false} QuadsSubmittedAppend(draws: seq<DrawCall>, a: seq<QVertex>, b: seq<QVertex>)
    ensures QuadsSubmitted(draws, a + b) == QuadsSubmitted(draws, a) + b
    decreases |draws|
  {
    if draws != [] {
      var last := draws[|draws| - 1];
      var lastVertices := if last.QuadDraw? then last.qVertices else [];
      assert lastVertices + (a + b) == (lastVertices + a) + b;
      QuadsSubmittedAppend(draws[..|draws| - 1], lastVertices + a, b);
    }
  }

  /** Flushing loses no vertex: what was pending is now in the last draw. */
  lemma FlushKeepsSubmitted(st: BatchState, tvs: Handle, tps: Handle)
    ensures TrianglesSubmitted(FlushSpec(st, tvs, tps).draws, FlushSpec(st, tvs, tps).tPending)
            == TrianglesSubmitted(st.draws, st.tPending)
    ensures QuadsSubmitted(FlushSpec(st, tvs, tps).draws, FlushSpec(st, tvs, tps).qPending)
            == QuadsSubmitted(st.draws, st.qPending)
  {
    var r := FlushSpec(st, tvs, tps);
    if |st.tPending| > 0 {
      assert r.draws[..|r.draws| - 1] == st.draws;
      assert st.tPending + [] == st.tPending;
      assert TrianglesSubmitted(r.draws, []) == TrianglesSubmitted(st.draws, st.tPending + []);
      assert [] + st.qPending == st.qPending;
      assert QuadsSubmitted(r.draws, r.qPending) == QuadsSubmitted(st.draws, [] + st.qPending);
    } else if |st.qPending| > 0 {
      assert r.draws[..|r.draws| - 1] == st.draws;
      assert st.qPending + [] == st.qPending;
      assert QuadsSubmitted(r.draws, []) == QuadsSubmitted(st.draws, st.qPending + []);
      assert [] + st.tPending == st.tPending;
      assert TrianglesSubmitted(r.draws, r.tPending) == TrianglesSubmitted(st.draws, [] + st.tPending);
    }
  }

  /** Switching the quad texture or shaders loses no vertex either. */
  lemma SwitchKeepsSubmitted(st: BatchState, quad: QuadData, tvs: Handle, tps: Handle)
    ensures TrianglesSubmitted(SwitchQuadTarget(st, quad, tvs, tps).draws, SwitchQuadTarget(st, quad, tvs, tps).tPending)
            == TrianglesSubmitted(st.draws, st.tPending)
    ensures QuadsSubmitted(SwitchQuadTarget(st, quad, tvs, tps).draws, SwitchQuadTarget(st, quad, tvs, tps).qPending)
            == QuadsSubmitted(st.draws, st.qPending)
  {
    FlushKeepsSubmitted(st, tvs, tps);
  }

  /** Adding a triangle hands over exactly its three vertices, after all earlier ones. */
  lemma AddTriangleSubmits(st: BatchState, tri: TriangleData, tvs: Handle, tps: Handle)
    ensures var r := AddTriangleSpec(st, tri, tvs, tps);
            TrianglesSubmitted(r.draws, r.tPending) == TrianglesSubmitted(st.draws, st.tPending) + TriangleVertices(tri)
            && QuadsSubmitted(r.draws, r.qPending) == QuadsSubmitted(st.draws, st.qPending)
  {
    var s1 := if |st.qPending| > 0 then FlushSpec(st, tvs, tps) else st;
    FlushKeepsSubmitted(st, tvs, tps);
    var s2 := s1.(tPending := s1.tPending + TriangleVertices(tri));
    TrianglesSubmittedAppend(s1.draws, s1.tPending, TriangleVertices(tri));
    FlushKeepsSubmitted(s2, tvs, tps);
  }

  /** Adding a quad hands over exactly its four vertices, after all earlier ones. */
  lemma AddQuadSubmits(st: BatchState, quad: QuadData, tvs: Handle, tps: Handle)
    ensures var r := AddQuadSpec(st, quad, tvs, tps);
            QuadsSubmitted(r.draws, r.qPending) == QuadsSubmitted(st.draws, st.qPending) + QuadVertices(quad)
            && TrianglesSubmitted(r.draws, r.tPending) == TrianglesSubmitted(st.draws, st.tPending)
  {
    var s1 := if |st.tPending| > 0 then FlushSpec(st, tvs, tps) else st;
    FlushKeepsSubmitted(st, tvs, tps);
    var s2 := SwitchQuadTarget(s1, quad, tvs, tps);
    SwitchKeepsSubmitted(s1, quad, tvs, tps);
    QuadsSubmittedAppend(s2.draws, s2.qPending, QuadVertices(quad));
    var s3 := s2.(qPending := s2.qPending + QuadVertices(quad));
    FlushKeepsSubmitted(s3, tvs, tps);
  }

  /** The vertex of corner `c` (0 to 5) of a quad's two triangles: 0, 1, 2 and 2, 3, 0. */
  function QuadCorner(c: nat): (v: nat)
    requires c < INDICES_PER_QUAD
    ensures v < VERTICES_PER_QUAD
  {
    [0, 1, 2, 2, 3, 0][c]
  }

  /** The `k`-th entry of the quad index buffer. */
  function QuadIndex(k: nat): nat
  {
    VERTICES_PER_QUAD * (k / INDICES_PER_QUAD) + QuadCorner(k % INDICES_PER_QUAD)
  }

  /**
   * Quad `i` draws the triangles (4i, 4i+1, 4i+2) and (4i+2, 4i+3, 4i),
   * which use its own four vertices and nothing else; every index of the
   * buffer fits in 16 bits.
   */
  lemma QuadIndexPattern(i: nat, c: nat)
    requires i < MAX_QUADS_IN_PORTION && c < INDICES_PER_QUAD
    ensures QuadIndex(INDICES_PER_QUAD * i + c) == VERTICES_PER_QUAD * i + QuadCorner(c)
    ensures VERTICES_PER_QUAD * i <= QuadIndex(INDICES_PER_QUAD * i + c) < VERTICES_PER_QUAD * (i + 1)
    ensures QuadIndex(INDICES_PER_QUAD * i + c) < QUAD_CAPACITY <= 0x1_0000
  {
    var k := INDICES_PER_QUAD * i + c;
    assert k / INDICES_PER_QUAD == i && k % INDICES_PER_QUAD == c;
  }

  /** The number of indices a quad draw uses: six per whole quad. */
  lemma QuadDrawIndexCount(st: BatchState, tvs: Handle, tps: Handle)
    requires ValidState(st) && |st.tPending| == 0 && |st.qPending| > 0
    ensures var r := FlushSpec(st, tvs, tps);
            r.draws[|r.draws| - 1].indexCount == |st.qPending| / VERTICES_PER_QUAD * INDICES_PER_QUAD
            && r.draws[|r.draws| - 1].indexCount <= INDEX_COUNT
  {
  }

  /** The virtual screen is in use only when both of its dimensions are positive. */
  predicate IsVirtualScreenUsed(virtualScreenSize: IntVector2)
  {
    virtualScreenSize.x > 0 && virtualScreenSize.y > 0
  }

  /** The viewport without a virtual screen: the whole window. */
  function GetViewportRect(virtualScreenSize: IntVector2, graphicsWidth: nat, graphicsHeight: nat): (r: IntRect)
    requires !IsVirtualScreenUsed(virtualScreenSize)
    ensures r.left == 0 && r.top == 0 && r.Width() == graphicsWidth && r.Height() == graphicsHeight
  {
    IntRect(0, 0, graphicsWidth, graphicsHeight)
  }

  /** Write the six indices of quad `i`. */
  method WriteQuadIndices(buffer: array<nat>, i: nat)
    requires buffer.Length == INDEX_COUNT && i < MAX_QUADS_IN_PORTION
    modifies buffer
    ensures forall k :: 0 <= k < buffer.Length && !(INDICES_PER_QUAD * i <= k < INDICES_PER_QUAD * (i + 1)) ==> buffer[k] == old(buffer[k])
    ensures forall k :: INDICES_PER_QUAD * i <= k < INDICES_PER_QUAD * (i + 1) ==> buffer[k] == QuadIndex(k)
  {
    var base := i * INDICES_PER_QUAD;
    buffer[base + 0] := i * VERTICES_PER_QUAD + 0;
    buffer[base + 1] := i * VERTICES_PER_QUAD + 1;
    buffer[base + 2] := i * VERTICES_PER_QUAD + 2;
    buffer[base + 3] := i * VERTICES_PER_QUAD + 2;
    buffer[base + 4] := i * VERTICES_PER_QUAD + 3;
    buffer[base + 5] := i * VERTICES_PER_QUAD + 0;
    forall k | base <= k < base + INDICES_PER_QUAD
      ensures buffer[k] == QuadIndex(k)
    {
      QuadIndexPattern(i, k - base);
    }
  }

  /** Fill the quad index buffer: for quad `i`, the corners 4i, 4i+1, 4i+2, 4i+2, 4i+3, 4i. */
  method FillQuadIndices(buffer: array<nat>)
    requires buffer.Length == INDEX_COUNT
    modifies buffer
    ensures forall k :: 0 <= k < INDEX_COUNT ==> buffer[k] == QuadIndex(k)
  {
    var i := 0;
    while i < MAX_QUADS_IN_PORTION
      invariant 0 <= i <= MAX_QUADS_IN_PORTION
      invariant forall k :: 0 <= k < INDICES_PER_QUAD * i ==> buffer[k] == QuadIndex(k)
    {
      WriteQuadIndices(buffer, i);
      i := i + 1;
    }
  }

  class SpriteBatchBase {
    var tVertices: array<TVertex>
    var tNumVertices: nat
    /** The triangle shaders, chosen at construction. */
    const tVertexShader: Handle
    const tPixelShader: Handle
    var triangle: TriangleData

    var qVertices: array<QVertex>
    var qNumVertices: nat
    var qCurrentTexture: Handle
    var qCurrentVs: Handle
    var qCurrentPs: Handle
    var quad: QuadData
    /** The quad index buffer, as 16-bit indices. */
    const qIndexBuffer: array<nat>

    var blendMode: BlendMode
    var compareMode: CompareMode
    var virtualScreenSize: IntVector2
    /** The draw calls made so far, oldest first. */
    var draws: seq<DrawCall>

    ghost predicate Valid()
      reads this
    {
      tVertices.Length == TRIANGLE_CAPACITY && qVertices.Length == QUAD_CAPACITY
      && qIndexBuffer.Length == INDEX_COUNT
      && tNumVertices <= tVertices.Length && qNumVertices <= qVertices.Length
    }

    function State(): BatchState
      reads this, tVertices, qVertices
      requires Valid()
    {
      BatchState(tVertices[..tNumVertices], qVertices[..qNumVertices], qCurrentTexture, qCurrentVs, qCurrentPs, draws)
    }

    /**
     * Empty arrays of full capacity, null texture and shaders, alpha
     * blending without depth test, no virtual screen, white shapes and the
     * quad index buffer filled.
     */
    constructor (vs: Handle, ps: Handle)
      ensures Valid() && ValidState(State())
      ensures State() == BatchState([], [], None, None, None, [])
      ensures tVertexShader == vs && tPixelShader == ps
      ensures blendMode == BLEND_ALPHA && compareMode == CMP_ALWAYS && !IsVirtualScreenUsed(virtualScreenSize)
      ensures triangle.v0.color == WHITE && triangle.v1.color == WHITE && triangle.v2.color == WHITE
      ensures forall k :: 0 <= k < INDEX_COUNT ==> qIndexBuffer[k] == QuadIndex(k)
    {
      var buffer := new nat[INDEX_COUNT];
      FillQuadIndices(buffer);
      var origin := TVertex(Position(0.0, 0.0, 0.0), 0);
      var qOrigin := QVertex(Position(0.0, 0.0, 0.0), 0, 0.0, 0.0);
      tVertices := new TVertex[TRIANGLE_CAPACITY](_ => origin);
      qVertices := new QVertex[QUAD_CAPACITY](_ => qOrigin);
      tNumVertices, qNumVertices := 0, 0;
      qCurrentTexture, qCurrentVs, qCurrentPs := None, None, None;
      qIndexBuffer := buffer;
      tVertexShader, tPixelShader := vs, ps;
      quad := QuadData(None, None, None, qOrigin, qOrigin, qOrigin, qOrigin);
      blendMode, compareMode := BLEND_ALPHA, CMP_ALWAYS;
      virtualScreenSize := IntVector2(0, 0);
      draws := [];
      triangle := TriangleData(TVertex(origin.position, WHITE), TVertex(origin.position, WHITE), TVertex(origin.position, WHITE));
    }

    /** Colour the three vertices of the next triangle. */
    method SetShapeColor(color: bv32)
      modifies this`triangle
      ensures triangle.v0 == old(triangle.v0).(color := color)
      ensures triangle.v1 == old(triangle.v1).(color := color)
      ensures triangle.v2 == old(triangle.v2).(color := color)
    {
      triangle := TriangleData(triangle.v0.(color := color), triangle.v1.(color := color), triangle.v2.(color := color));
    }

    /** Render the pending portion; the GPU work is recorded as one draw call. */
    method Flush()
      requires Valid()
      modifies this`tNumVertices, this`qNumVertices, this`draws
      ensures Valid()
      ensures State() == FlushSpec(old(State()), tVertexShader, tPixelShader)
    {
      if tNumVertices > 0 {
        draws := draws + [TriangleDraw(tVertexShader, tPixelShader, tVertices[..tNumVertices])];
        tNumVertices := 0;
      } else if qNumVertices > 0 {
        var numQuads := qNumVertices / VERTICES_PER_QUAD;
        draws := draws + [QuadDraw(qCurrentTexture, qCurrentVs, qCurrentPs, qVertices[..qNumVertices], numQuads * INDICES_PER_QUAD)];
        qNumVertices := 0;
      }
    }

    /** Add the triangle set up in `triangle`. */
    method AddTriangle()
      requires Valid() && ValidState(State())
      modifies this`tNumVertices, this`qNumVertices, this`draws, tVertices
      ensures Valid() && ValidState(State())
      ensures State() == AddTriangleSpec(old(State()), triangle, tVertexShader, tPixelShader)
    {
      AddTriangleKeepsValid(State(), triangle, tVertexShader, tPixelShader);
      if qNumVertices > 0 {
        Flush();
      }
      AppendTriangle();
      if tNumVertices == TRIANGLE_CAPACITY {
        Flush();
      }
    }

    /** Copy the three vertices of `triangle` behind the pending ones. */
    method AppendTriangle()
      requires Valid() && tNumVertices + VERTICES_PER_TRIANGLE <= TRIANGLE_CAPACITY
      modifies this`tNumVertices, tVertices
      ensures Valid()
      ensures State() == old(State()).(tPending := old(State()).tPending + TriangleVertices(triangle))
    {
      ghost var before := tVertices[..tNumVertices];
      tVertices[tNumVertices] := triangle.v0;
      tVertices[tNumVertices + 1] := triangle.v1;
      tVertices[tNumVertices + 2] := triangle.v2;
      tNumVertices := tNumVertices + VERTICES_PER_TRIANGLE;
      assert tVertices[..tNumVertices] == before + TriangleVertices(triangle);
    }

    /** Add the quad set up in `quad`. */
    method AddQuad()
      requires Valid() && ValidState(State())
      modifies this`tNumVertices, this`qNumVertices, this`draws, this`qCurrentTexture, this`qCurrentVs, this`qCurrentPs, qVertices
      ensures Valid() && ValidState(State())
      ensures State() == AddQuadSpec(old(State()), quad, tVertexShader, tPixelShader)
    {
      AddQuadKeepsValid(State(), quad, tVertexShader, tPixelShader);
      ghost var s0 := State();
      if tNumVertices > 0 {
        Flush();
      }
      ghost var s1 := State();
      assert s1 == if |s0.tPending| > 0 then FlushSpec(s0, tVertexShader, tPixelShader) else s0;
      if quad.texture != qCurrentTexture || quad.vs != qCurrentVs || quad.ps != qCurrentPs {
        Flush();
        qCurrentVs := quad.vs;
        qCurrentPs := quad.ps;
        qCurrentTexture := quad.texture;
      }
      assert State() == SwitchQuadTarget(s1, quad, tVertexShader, tPixelShader);
      AppendQuad();
      if qNumVertices == QUAD_CAPACITY {
        Flush();
      }
    }

    /** Copy the four vertices of `quad` behind the pending ones. */
    method AppendQuad()
      requires Valid() && qNumVertices + VERTICES_PER_QUAD <= QUAD_CAPACITY
      modifies this`qNumVertices, qVertices
      ensures Valid()
      ensures State() == old(State()).(qPending := old(State()).qPending + QuadVertices(quad))
    {
      ghost var before := qVertices[..qNumVertices];
      qVertices[qNumVertices] := quad.v0;
      qVertices[qNumVertices + 1] := quad.v1;
      qVertices[qNumVertices + 2] := quad.v2;
      qVertices[qNumVertices + 3] := quad.v3;
      qNumVertices := qNumVertices + VERTICES_PER_QUAD;
      assert qVertices[..qNumVertices] == before + QuadVertices(quad);
    }
  }
}
