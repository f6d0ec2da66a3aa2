/** The framebuffer that draws to an HTML canvas (src/renderers/webgl2/CanvasFramebuffer.ts).

    Before each draw it resizes the canvas's drawing buffer to its displayed size divided by
    `devicePixelRatio`, then delegates to the base `Framebuffer`. Framebuffer.ts is not part of
    this model: each delegation is recorded as an event together with the canvas size at the time. */
module CanvasFramebuffers {
  import opened WebGL
  import opened RenderingContexts
  import opened Nodes

  /** `Math.round`: the integer nearest to `x`, halves rounded up. */
  function Round(x: real): (n: int)
    ensures n as real - 0.5 <= x < n as real + 0.5
  {
    (x + 0.5).Floor
  }

  /** The drawing-buffer length for a displayed length `offset` at pixel ratio `ratio`. */
  function SyncedLength(offset: nat, ratio: real): (n: nat)
    requires ratio > 0.0
    ensures n as real - 0.5 <= offset as real / ratio < n as real + 0.5
  {
    Round(offset as real / ratio)
  }

  /** `Round` lands on the one integer within half a unit below or above. */
  lemma RoundUnique(x: real, n: int)
    requires n as real - 0.5 <= x < n as real + 0.5
    ensures Round(x) == n
  {
  }

  /** At ratio 1 the drawing buffer matches the displayed size. */
  lemma SyncedLengthUnitRatio(offset: nat)
    ensures SyncedLength(offset, 1.0) == offset
  {
    RoundUnique(offset as real / 1.0, offset);
  }

  /** A displayed length that is an exact multiple of the ratio gives that multiple. */
  lemma SyncedLengthExact(offset: nat, ratio: real, n: nat)
    requires ratio > 0.0 && offset as real == n as real * ratio
    ensures SyncedLength(offset, ratio) == n
  {
    assert offset as real / ratio == n as real;
    RoundUnique(offset as real / ratio, n);
  }

  /** A wider display never gives a narrower drawing buffer. */
  lemma {:induction false} SyncedLengthMonotone(a: nat, b: nat, ratio: real)
    requires ratio > 0.0 && a <= b
    ensures SyncedLength(a, ratio) <= SyncedLength(b, ratio)
  {
    assert a as real / ratio <= b as real / ratio by {
      assert b as real / ratio - a as real / ratio == (b - a) as real / ratio;
    }
  }

  /** The `uniforms` object (typed `any`) a draw passes through untouched, by identity. */
  type Uniforms = nat

  /** A call forwarded to the base Framebuffer, with the canvas size it ran at. */
  datatype Delegation =
    | RenderDrawDelegated(drawProgram: Program, drawUniforms: Uniforms, vao: nat, drawWidth: int, drawHeight: int)
    | RenderPassDelegated(passProgram: Program, passUniforms: Uniforms, passWidth: int, passHeight: int)
    | RenderDelegated(node: Node, camera: nat, clear: bool, renderWidth: int, renderHeight: int)

  class CanvasFramebuffer {
    const context: RenderingContext
    const canvas: Canvas
    var devicePixelRatio: real

    /** The calls made on the base class so far. */
    ghost var delegated: seq<Delegation>

    constructor(context: RenderingContext, canvas: Canvas)
      ensures this.context == context && this.canvas == canvas
      ensures devicePixelRatio == 1.0 && delegated == []
    {
      this.context := context;
      this.canvas := canvas;
      devicePixelRatio := 1.0;
      delegated := [];
    }

    /** The canvas size the next sync sets. */
    ghost predicate Synced()
      reads this, canvas
      requires devicePixelRatio > 0.0
    {
      && canvas.width == SyncedLength(canvas.offsetWidth, devicePixelRatio)
      && canvas.height == SyncedLength(canvas.offsetHeight, devicePixelRatio)
    }

    method SyncCanvas()
      requires devicePixelRatio > 0.0
      modifies canvas`width, canvas`height
      ensures Synced()
    {
      canvas.width := Round(canvas.offsetWidth as real / devicePixelRatio);
      canvas.height := Round(canvas.offsetHeight as real / devicePixelRatio);
    }

    method RenderDraw(program: Program, uniforms: Uniforms, vao: nat)
      requires devicePixelRatio > 0.0
      modifies this`delegated, canvas`width, canvas`height
      ensures Synced()
      ensures delegated == old(delegated) + [RenderDrawDelegated(program, uniforms, vao, canvas.width, canvas.height)]
    {
      SyncCanvas();
      delegated := delegated + [RenderDrawDelegated(program, uniforms, vao, canvas.width, canvas.height)];
    }

    method RenderPass(program: Program, uniforms: Uniforms)
      requires devicePixelRatio > 0.0
      modifies this`delegated, canvas`width, canvas`height
      ensures Synced()
      ensures delegated == old(delegated) + [RenderPassDelegated(program, uniforms, canvas.width, canvas.height)]
    {
      SyncCanvas();
      delegated := delegated + [RenderPassDelegated(program, uniforms, canvas.width, canvas.height)];
    }

    method Render(node: Node, camera: nat, clear: bool := false)
      requires devicePixelRatio > 0.0
      modifies this`delegated, canvas`width, canvas`height
      ensures Synced()
      ensures delegated == old(delegated) + [RenderDelegated(node, camera, clear, canvas.width, canvas.height)]
    {
      SyncCanvas();
      delegated := delegated + [RenderDelegated(node, camera, clear, canvas.width, canvas.height)];
    }
  }

  /** A second sync with unchanged offsets and ratio changes nothing. */
  method SyncTwiceIsSyncOnce(f: CanvasFramebuffer) returns (width: int, height: int)
    requires f.devicePixelRatio > 0.0
    modifies f.canvas`width, f.canvas`height
    ensures width == f.canvas.width && height == f.canvas.height
    ensures f.Synced()
  {
    f.SyncCanvas();
    width, height := f.canvas.width, f.canvas.height;
    f.SyncCanvas();
  }

  /** With the default ratio of 1, a draw runs at the canvas's displayed size. */
  method DefaultRatioDrawsAtDisplayedSize(context: RenderingContext, canvas: Canvas, program: Program,
                                          uniforms: Uniforms)
    returns (f: CanvasFramebuffer)
    modifies canvas`width, canvas`height
    ensures canvas.width == canvas.offsetWidth && canvas.height == canvas.offsetHeight
    ensures f.delegated == [RenderPassDelegated(program, uniforms, canvas.offsetWidth, canvas.offsetHeight)]
  {
    f := new CanvasFramebuffer(context, canvas);
    f.RenderPass(program, uniforms);
    SyncedLengthUnitRatio(canvas.offsetWidth);
    SyncedLengthUnitRatio(canvas.offsetHeight);
  }
}
