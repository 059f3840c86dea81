/**
 * An abstract record of the OpenGL commands one eye-dome-lighting frame issues.
 *
 * A frame is a sequence of events. Saving and restoring fixed-function state
 * (the attribute stack and the projection and modelview matrix stacks) are
 * events of their own; everything drawn in between is a pass: a render pass
 * (bind a render target and a shader program, set uniforms, bind input
 * textures, draw one screen-aligned quad, unbind the inputs, release the
 * program and the target) or a smoothing pass handed to a sub-filter.
 */
module GlTrace {
  import opened Wrappers

  datatype MatrixStack = Projection | ModelView

  /** The render targets a filter owns: cascade level k, or the final mix target. */
  datatype Target = LevelBuffer(level: nat) | MixBuffer

  datatype ProgramKind = ShadeProgram | MixProgram

  /**
   * A uniform's value. A lighting modulation computed through a square root
   * is kept symbolic as the radicand, since floating-point roots are not modelled.
   */
  datatype UniformValue =
    | IntValue(i: int)
    | FloatValue(r: real)
    | SqrtValue(radicand: real)
    | VectorValue(v: seq<real>)
    | NeighbourTable

  datatype Setting = Setting(name: string, value: UniformValue)

  /** No uniform is set twice, so each setting is the value that takes effect. */
  predicate DistinctNames(uniforms: seq<Setting>) {
    forall i, j :: 0 <= i < j < |uniforms| ==> uniforms[i].name != uniforms[j].name
  }

  /** Texture `texture` bound on texture unit `unit` for the duration of a pass. */
  datatype Binding = Binding(unit: nat, texture: nat)

  /** A quad drawn from the origin, textured on unit 0. */
  datatype Quad = Quad(texture: nat, width: int, height: int)

  datatype RenderPass = RenderPass(
    target: Target,
    program: ProgramKind,
    uniforms: seq<Setting>,
    inputs: seq<Binding>,
    quad: Quad)

  /** One sub-filter invocation: its parameters, then its depth and colour inputs. */
  datatype SmoothPass = SmoothPass(level: nat, halfSize: int, sigma: real, sigmaZ: real, depth: nat, input: nat)

  datatype Pass = Rendered(render: RenderPass) | Smoothed(smooth: SmoothPass)

  datatype Event =
    | PushAttrib
    | PopAttrib
    | PushMatrix(stack: MatrixStack)
    | PopMatrix(stack: MatrixStack)
    | LoadIdentity(onto: MatrixStack)
    | LoadOrtho(width: int, height: int)
    | Run(pass: Pass)

  /** How many entries each saved-state stack holds above the caller's own. */
  datatype Depths = Depths(attrib: nat, projection: nat, modelView: nat)

  const Empty := Depths(0, 0, 0)

  /** The effect of one event on the stacks; `None` is a pop from an empty stack. */
  function Step(d: Depths, e: Event): Option<Depths> {
    match e
    case PushAttrib => Some(d.(attrib := d.attrib + 1))
    case PopAttrib => if d.attrib == 0 then None else Some(d.(attrib := d.attrib - 1))
    case PushMatrix(Projection) => Some(d.(projection := d.projection + 1))
    case PushMatrix(ModelView) => Some(d.(modelView := d.modelView + 1))
    case PopMatrix(Projection) =>
      if d.projection == 0 then None else Some(d.(projection := d.projection - 1))
    case PopMatrix(ModelView) =>
      if d.modelView == 0 then None else Some(d.(modelView := d.modelView - 1))
    case _ => Some(d)
  }

  /** Replays a trace from stack depths `d`; `None` once any pop underflows. */
  function Replay(t: seq<Event>, d: Depths): Option<Depths> {
    if t == [] then Some(d)
    else
      match Step(d, t[0])
      case None => None
      case Some(d') => Replay(t[1..], d')
  }

  /** Continues a replay outcome with one more event. */
  function Then(r: Option<Depths>, e: Event): Option<Depths> {
    match r
    case None => None
    case Some(d) => Step(d, e)
  }

  /** Every push is matched by a later pop on the same stack, and no pop comes first. */
  predicate Balanced(t: seq<Event>) {
    Replay(t, Empty) == Some(Empty)
  }

  /** The passes of a trace, in the order they ran. */
  function Passes(t: seq<Event>): seq<Pass> {
    if t == [] then []
    else (if t[0].Run? then [t[0].pass] else []) + Passes(t[1..])
  }

  lemma {:induction false} ReplaySnoc(t: seq<Event>, e: Event, d: Depths)
    ensures Replay(t + [e], d) == Then(Replay(t, d), e)
  {
    if t == [] {
      assert [] + [e] == [e];
      assert [e][1..] == [];
    } else {
      assert (t + [e])[0] == t[0];
      assert (t + [e])[1..] == t[1..] + [e];
      match Step(d, t[0])
      case None =>
      case Some(d') => ReplaySnoc(t[1..], e, d');
    }
  }

  lemma {:induction false} PassesSnoc(t: seq<Event>, e: Event)
    ensures Passes(t + [e]) == Passes(t) + (if e.Run? then [e.pass] else [])
  {
    if t == [] {
      assert [] + [e] == [e];
      assert [e][1..] == [];
    } else {
      assert (t + [e])[0] == t[0];
      assert (t + [e])[1..] == t[1..] + [e];
      PassesSnoc(t[1..], e);
    }
  }

  /**
   * At the end of `t` every stack holds an entry saved above the caller's, and
   * the orthographic projection for a w x h screen has been loaded.
   */
  predicate InsideFrame(t: seq<Event>, w: int, h: int) {
    LoadOrtho(w, h) in t
    && match Replay(t, Empty)
       case None => false
       case Some(d) => d.attrib >= 1 && d.projection >= 1 && d.modelView >= 1
  }

  /** Every pass of `t` runs inside a frame: after the caller's state is saved and the projection set. */
  predicate PassesFramed(t: seq<Event>, w: int, h: int) {
    t == []
    || (PassesFramed(t[..|t| - 1], w, h)
        && (t[|t| - 1].Run? ==> InsideFrame(t[..|t| - 1], w, h)))
  }

  /** A trace stays framed when it grows by a command that is not a pass, or by a pass issued inside a frame. */
  lemma FramedSnoc(t: seq<Event>, e: Event, w: int, h: int)
    requires PassesFramed(t, w, h)
    requires e.Run? ==> InsideFrame(t, w, h)
    ensures PassesFramed(t + [e], w, h)
  {
    assert (t + [e])[..|t|] == t;
  }

  /** A trace that runs no pass is trivially framed. */
  lemma {:induction false} PassFreeFramed(t: seq<Event>, w: int, h: int)
    requires forall i :: 0 <= i < |t| ==> !t[i].Run?
    ensures PassesFramed(t, w, h)
    decreases |t|
  {
    if t != [] {
      PassFreeFramed(t[..|t| - 1], w, h);
    }
  }

  /** Popping one saved entry off each stack, projection first, returns a trace that saved one of each to balance. */
  lemma RestoreBalances(t: seq<Event>)
    requires Replay(t, Empty) == Some(Depths(1, 1, 1))
    ensures Balanced(t + [PopMatrix(Projection)] + [PopMatrix(ModelView)] + [PopAttrib])
    ensures Passes(t + [PopMatrix(Projection)] + [PopMatrix(ModelView)] + [PopAttrib]) == Passes(t)
  {
    var t1 := t + [PopMatrix(Projection)];
    var t2 := t1 + [PopMatrix(ModelView)];
    ReplaySnoc(t, PopMatrix(Projection), Empty);
    ReplaySnoc(t1, PopMatrix(ModelView), Empty);
    ReplaySnoc(t2, PopAttrib, Empty);
    PassesSnoc(t, PopMatrix(Projection));
    PassesSnoc(t1, PopMatrix(ModelView));
    PassesSnoc(t2, PopAttrib);
  }

  /** Popping the saved state runs no pass, so it keeps every earlier pass framed. */
  lemma RestoreKeepsFramed(t: seq<Event>, w: int, h: int)
    ensures PassesFramed(t, w, h) ==>
      PassesFramed(t + [PopMatrix(Projection)] + [PopMatrix(ModelView)] + [PopAttrib], w, h)
  {
    if PassesFramed(t, w, h) {
      FramedSnoc(t, PopMatrix(Projection), w, h);
      FramedSnoc(t + [PopMatrix(Projection)], PopMatrix(ModelView), w, h);
      FramedSnoc(t + [PopMatrix(Projection)] + [PopMatrix(ModelView)], PopAttrib, w, h);
    }
  }

  /** Issues one more command after the trace `t`. */
  method Issue(t: seq<Event>, e: Event) returns (t': seq<Event>)
    ensures t' == t + [e]
    ensures Replay(t', Empty) == Then(Replay(t, Empty), e)
    ensures Passes(t') == Passes(t) + (if e.Run? then [e.pass] else [])
  {
    t' := t + [e];
    ReplaySnoc(t, e, Empty);
    PassesSnoc(t, e);
  }

  /** Runs one more pass after the trace `t`: the stacks are untouched and a framed trace stays framed. */
  method IssuePass(t: seq<Event>, p: Pass, w: int, h: int) returns (t': seq<Event>)
    ensures t' == t + [Run(p)]
    ensures Replay(t', Empty) == Replay(t, Empty)
    ensures Passes(t') == Passes(t) + [p]
    ensures InsideFrame(t, w, h) && PassesFramed(t, w, h) ==> InsideFrame(t', w, h) && PassesFramed(t', w, h)
  {
    t' := Issue(t, Run(p));
    match Replay(t, Empty)
    case None =>
    case Some(d) => assert Step(d, Run(p)) == Some(d);
    if InsideFrame(t, w, h) && PassesFramed(t, w, h) {
      FramedSnoc(t, Run(p), w, h);
    }
  }
}
