/**
 * The UIBlur component: a state machine over the component's fields and
 * the engine, whose public entry points (EnableBlur, DisableBlur) and
 * engine callbacks (the screen-capture coroutine, OnRenderImage) each
 * return the state after the call and the trace of engine calls made.
 */
module UIBlur {
  import opened Wrappers
  import opened Ledger
  import opened BlurRender

  /** Blur a screenshot once, or the camera's image every frame. */
  datatype BlurType = Static | Dynamic

  /** The exception EnableBlur throws when Dynamic is asked for off a camera. */
  datatype BlurError = MissingCamera

  /**
   * The component's fields and the engine state they refer to.  Coroutines
   * started and not yet run are counted in `pendingCaptures`; `nextId` is
   * the handle the pool gives out next.
   */
  datatype Blur = Blur(
    blurType: BlurType,
    scheduleUpdate: bool,
    pendingCaptures: nat,
    source: Option<Tex>,
    destination: Option<Tex>,
    nextId: nat,
    engine: Engine)

  /** The state after a call, with the engine calls it made. */
  datatype Step = Step(after: Blur, ops: seq<Op>)

  /** A public call either returns or throws; both leave a state behind. */
  datatype Outcome = Returned(after: Blur) | Threw(error: BlurError, after: Blur)

  /** A freshly loaded component: Static by default, nothing scheduled, no textures. */
  function Init(layerEnabled: bool): Blur {
    Blur(Static, false, 0, None, None, 0, Engine({}, layerEnabled, None))
  }

  /** A reference whose temporary, if any, was handed out before `n`. */
  predicate IssuedBefore(t: Option<Tex>, n: nat) {
    t.Some? && t.value.Temp? ==> t.value.id < n
  }

  /**
   * The pool has handed out exactly the handles below `nextId`, the
   * destination is always a temporary, and no field refers to a handle not
   * yet handed out.
   */
  predicate Valid(s: Blur) {
    && (forall id | id in s.engine.live :: id < s.nextId)
    && (s.destination.Some? ==> s.destination.value.Temp?)
    && IssuedBefore(s.source, s.nextId)
    && IssuedBefore(s.destination, s.nextId)
    && IssuedBefore(s.engine.mainTex, s.nextId)
  }

  /** The working resolution: the source's size shifted right by `downsample`. */
  function WorkingSize(cfg: Config, w: int, h: int): (r: (int, int))
    ensures Pow2(cfg.downsample % 32) * r.0 <= w < Pow2(cfg.downsample % 32) * (r.0 + 1)
    ensures Pow2(cfg.downsample % 32) * r.1 <= h < Pow2(cfg.downsample % 32) * (r.1 + 1)
  {
    (ShiftRight(w, cfg.downsample), ShiftRight(h, cfg.downsample))
  }

  /** The trace RenderImage makes for a source of size w x h, starting at handle n. */
  function RenderTrace(src: Tex, n: nat, cfg: Config, w: int, h: int): seq<Op> {
    var size := WorkingSize(cfg, w, h);
    RenderOps(src, n, size.0, size.1, Iterations(cfg), PassOffset(cfg.blurPref))
  }

  /**
   * RenderImage: blur the current source (of size w x h) into a new
   * destination, which becomes the bound, shown texture.  Both callers set
   * the source just before.  When the source is held and no handle at or
   * above `nextId` has been handed out, the pass keeps exactly the
   * destination and every call it makes respects the pool.
   */
  function RenderImage(s: Blur, cfg: Config, w: int, h: int): (r: Step)
    requires s.source.Some?
    ensures r.after.destination == Some(Temp(s.nextId))
    ensures r.after.nextId == s.nextId + 2 + 2 * Iterations(cfg)
    ensures r.after.engine == Run(s.engine, r.ops)
    ensures r.after.(destination := s.destination, nextId := s.nextId, engine := s.engine) == s
    ensures (forall id | id in s.engine.live :: id < s.nextId) && Held(s.engine.live, s.source.value) ==>
      && r.after.engine.live == s.engine.live + {s.nextId}
      && Disciplined(s.engine.live, r.ops)
  {
    var n := s.nextId;
    var src := s.source.value;
    var ops := RenderTrace(src, n, cfg, w, h);
    var r := Step(s.(destination := Some(Temp(n)), nextId := n + 2 + 2 * Iterations(cfg),
                     engine := Run(s.engine, ops)), ops);
    if (forall id | id in s.engine.live :: id < n) && Held(s.engine.live, src) then
      var size := WorkingSize(cfg, w, h);
      RenderApply(s.engine.live, src, n, size.0, size.1, Iterations(cfg), PassOffset(cfg.blurPref));
      RenderDisciplined(s.engine.live, src, n, size.0, size.1, Iterations(cfg), PassOffset(cfg.blurPref));
      r
    else
      r
  }

  /**
   * EnableBlur(bt): the type is stored first; Static starts a capture
   * coroutine, Dynamic needs the component to sit on a camera and throws
   * otherwise, before scheduling per-frame blurring.
   */
  function EnableBlur(s: Blur, bt: BlurType, hasCamera: bool): (r: Outcome)
    ensures r.after.blurType == bt
    ensures r.Threw? <==> bt == Dynamic && !hasCamera
    ensures r.after.scheduleUpdate <==> s.scheduleUpdate || (bt == Dynamic && hasCamera)
    ensures r.after.pendingCaptures == if bt == Static then s.pendingCaptures + 1 else s.pendingCaptures
    ensures r.after.(blurType := s.blurType, scheduleUpdate := s.scheduleUpdate,
                     pendingCaptures := s.pendingCaptures) == s
  {
    var s1 := s.(blurType := bt);
    match bt
    case Static => Returned(s1.(pendingCaptures := s.pendingCaptures + 1))
    case Dynamic =>
      if !hasCamera then Threw(MissingCamera, s1)
      else Returned(s1.(scheduleUpdate := true))
  }

  /** The first two calls of the capture coroutine: copy the screenshot into a new temporary. */
  function GrabOps(id: nat, sw: int, sh: int): seq<Op> {
    [Alloc(id, sw, sh), Blit(Screenshot, Temp(id), None)]
  }

  /** The state once the coroutine has copied the screen (sw x sh) into a new temporary, its source. */
  function Grabbed(s: Blur, sw: int, sh: int): Blur
    requires s.pendingCaptures > 0
  {
    s.(pendingCaptures := s.pendingCaptures - 1, source := Some(Temp(s.nextId)),
       nextId := s.nextId + 1, engine := Run(s.engine, GrabOps(s.nextId, sw, sh)))
  }

  /**
   * One pending capture coroutine runs at the end of a frame: the screen
   * (sw x sh) is copied into a new temporary, which becomes the source, and
   * RenderImage blurs it.
   */
  function ScreenCaptureCoroutine(s: Blur, cfg: Config, sw: int, sh: int): (r: Step)
    requires s.pendingCaptures > 0
    ensures r.after.pendingCaptures == s.pendingCaptures - 1
    ensures r.after.source == Some(Temp(s.nextId))
    ensures r.after.destination == Some(Temp(s.nextId + 1))
    ensures r.after.engine == Run(s.engine, r.ops)
    ensures r.after.blurType == s.blurType && r.after.scheduleUpdate == s.scheduleUpdate
  {
    var grab := GrabOps(s.nextId, sw, sh);
    var r := RenderImage(Grabbed(s, sw, sh), cfg, sw, sh);
    RunAppend(s.engine, grab, r.ops);
    Step(r.after, grab + r.ops)
  }

  /** What DisableBlur releases: the source too in Static mode, then the destination. */
  function DisableOps(s: Blur): seq<Op> {
    (if s.blurType == Static then [Release(s.source)] else [])
    + [Release(s.destination), SetLayer(false)]
  }

  /**
   * DisableBlur: in Static mode cancel every pending capture and release
   * the source; otherwise stop the per-frame blur and forget the source
   * without releasing it.  Then release the destination and hide the layer.
   * The destination reference is kept, and so is the source in Static mode.
   */
  function DisableBlur(s: Blur): (r: Step)
    ensures r.ops == DisableOps(s)
    ensures r.after.engine == Run(s.engine, r.ops)
    ensures r.after.destination == s.destination && r.after.blurType == s.blurType
    ensures s.blurType == Static ==>
      r.after.pendingCaptures == 0 && r.after.source == s.source && r.after.scheduleUpdate == s.scheduleUpdate
    ensures s.blurType == Dynamic ==>
      !r.after.scheduleUpdate && r.after.source == None && r.after.pendingCaptures == s.pendingCaptures
  {
    var ops := DisableOps(s);
    var s1 := if s.blurType == Static then s.(pendingCaptures := 0)
              else s.(scheduleUpdate := false, source := None);
    Step(s1.(engine := Run(s.engine, ops)), ops)
  }

  /**
   * OnRenderImage(src, dest) for one camera frame of size w x h: when a
   * per-frame blur is scheduled the frame becomes the source and is
   * blurred; either way the frame is passed on unchanged.
   */
  function OnRenderImage(s: Blur, cfg: Config, src: nat, dest: nat, w: int, h: int): (r: Step)
    ensures |r.ops| > 0 && r.ops[|r.ops| - 1] == Blit(Frame(src), Frame(dest), None)
    ensures r.after.engine == Run(s.engine, r.ops)
    ensures !s.scheduleUpdate ==> r.ops == [Blit(Frame(src), Frame(dest), None)]
    ensures s.scheduleUpdate ==> r.after.source == Some(Frame(src)) && r.after.destination == Some(Temp(s.nextId))
    ensures r.after.blurType == s.blurType && r.after.scheduleUpdate == s.scheduleUpdate
    ensures r.after.pendingCaptures == s.pendingCaptures
  {
    var copy := [Blit(Frame(src), Frame(dest), None)];
    if s.scheduleUpdate then
      var r := RenderImage(s.(source := Some(Frame(src))), cfg, w, h);
      RunAppend(s.engine, r.ops, copy);
      Step(r.after.(engine := Run(r.after.engine, copy)), r.ops + copy)
    else
      Step(s.(engine := Run(s.engine, copy)), copy)
  }
}
