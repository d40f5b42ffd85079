/**
 * What the component's calls do to the engine, alone and in sequence:
 * the facts about one blur pass, the invariant every call keeps, and the
 * behaviours of whole enable/disable sessions.
 */
module Lifecycle {
  import opened Wrappers
  import opened Ledger
  import opened BlurRender
  import opened UIBlur

  /** The working resolution has no lower clamp: a source narrower than 2^downsample gives width 0. */
  lemma RenderImageResolution(s: Blur, cfg: Config, w: int, h: int)
    requires s.source.Some?
    ensures AllocSizes(RenderImage(s, cfg, w, h).ops) == {WorkingSize(cfg, w, h)}
    ensures 0 <= w ==> 0 <= WorkingSize(cfg, w, h).0 <= w
    ensures 0 <= w < Pow2(cfg.downsample % 32) ==> WorkingSize(cfg, w, h).0 == 0
    ensures 0 <= h < Pow2(cfg.downsample % 32) ==> WorkingSize(cfg, w, h).1 == 0
  {
    var size := WorkingSize(cfg, w, h);
    RenderCounts(s.source.value, s.nextId, size.0, size.1, Iterations(cfg), PassOffset(cfg.blurPref));
  }

  /**
   * Pass 0 prefilters, then each iteration uses passes 1 and 2 (Standard
   * Gauss) or 3 and 4 (Sgx Gauss), vertical before horizontal.
   */
  lemma RenderImagePasses(s: Blur, cfg: Config, w: int, h: int)
    requires s.source.Some?
    ensures |ShaderPasses(RenderImage(s, cfg, w, h).ops)| == 1 + 2 * Iterations(cfg)
    ensures ShaderPasses(RenderImage(s, cfg, w, h).ops)[0] == 0
    ensures forall j | 1 <= j < 1 + 2 * Iterations(cfg) ::
      ShaderPasses(RenderImage(s, cfg, w, h).ops)[j] ==
        (if j % 2 == 1 then 1 else 2) + (if cfg.blurPref == StandardGauss then 0 else 2)
  {
    var size := WorkingSize(cfg, w, h);
    RenderPasses(s.source.value, s.nextId, size.0, size.1, Iterations(cfg), PassOffset(cfg.blurPref));
  }

  /**
   * The layer is hidden before anything is drawn and shown at the end, with
   * the new destination bound to the material; the destination is written
   * by one plain copy, of the last scratch.
   */
  lemma RenderImageShows(s: Blur, cfg: Config, w: int, h: int)
    requires s.source.Some?
    ensures var r := RenderImage(s, cfg, w, h);
      && LayerSwitches(r.ops) == [false, true]
      && r.after.engine.layerEnabled
      && r.after.engine.mainTex == r.after.destination
      && PlainCopies(r.ops) == [(Temp(s.nextId + 1 + 2 * Iterations(cfg)), Temp(s.nextId))]
  {
    var size := WorkingSize(cfg, w, h);
    RenderViews(s.source.value, s.nextId, size.0, size.1, Iterations(cfg), PassOffset(cfg.blurPref));
  }

  /**
   * The blits of one pass form a single chain: the first reads the source,
   * each later one reads the texture the one before it wrote, every blit but
   * the last uses a shader, and the last, a plain copy, writes the new
   * destination.  So no shader blit follows the copy into the destination.
   */
  lemma RenderImageChain(s: Blur, cfg: Config, w: int, h: int)
    requires s.source.Some?
    ensures var r := RenderImage(s, cfg, w, h);
      var b := Blits(r.ops);
      && |b| == 2 + 2 * Iterations(cfg)
      && b[0].0 == s.source.value
      && (forall j | 0 <= j < |b| - 1 :: b[j].1 == b[j + 1].0 && b[j].2.Some?)
      && b[|b| - 1] == (Temp(s.nextId + 1 + 2 * Iterations(cfg)), Temp(s.nextId), None)
      && r.after.destination == Some(b[|b| - 1].1)
  {
    var size := WorkingSize(cfg, w, h);
    var n, k, offs := s.nextId, Iterations(cfg), PassOffset(cfg.blurPref);
    RenderBlits(s.source.value, n, size.0, size.1, k, offs);
    var b := Blits(RenderImage(s, cfg, w, h).ops);
    forall j | 0 <= j < |b| - 1
      ensures b[j].1 == b[j + 1].0 && b[j].2.Some?
    {
      if j == 0 {
        assert b[0].1 == Temp(n + 1);
      } else {
        assert b[j].1 == Temp(n + j + 1);
      }
    }
  }

  /**
   * The pass keeps exactly one new temporary, the destination, after
   * allocating 2 + 2k and releasing 1 + 2k; every call is permitted; and
   * at no point are more than three temporaries (the destination and two
   * scratch textures) held beyond those held before.
   */
  lemma RenderImageLedger(s: Blur, cfg: Config, w: int, h: int)
    requires Valid(s) && s.source.Some? && Held(s.engine.live, s.source.value)
    ensures var r := RenderImage(s, cfg, w, h);
      && s.nextId !in s.engine.live
      && r.after.engine.live == s.engine.live + {s.nextId}
      && Disciplined(s.engine.live, r.ops)
      && Allocs(r.ops) == 2 + 2 * Iterations(cfg)
      && Releases(r.ops) == 1 + 2 * Iterations(cfg)
      && (forall i | 0 <= i <= |r.ops| :: |Apply(s.engine.live, r.ops[..i])| <= |s.engine.live| + 3)
      && Valid(r.after)
  {
    var r := RenderImage(s, cfg, w, h);
    var size := WorkingSize(cfg, w, h);
    var src, n, k, offs := s.source.value, s.nextId, Iterations(cfg), PassOffset(cfg.blurPref);
    RenderApply(s.engine.live, src, n, size.0, size.1, k, offs);
    RenderDisciplined(s.engine.live, src, n, size.0, size.1, k, offs);
    RenderCounts(src, n, size.0, size.1, k, offs);
    RenderPeak(|s.engine.live|, src, n, size.0, size.1, k, offs);
    RenderViews(src, n, size.0, size.1, k, offs);
    PeakBounds(s.engine.live, r.ops);
  }

  /** The screenshot copy: a new temporary `id` of the screen's size, written once. */
  lemma GrabLedger(live: set<nat>, id: nat, sw: int, sh: int)
    ensures Apply(live, GrabOps(id, sw, sh)) == live + {id}
    ensures id !in live ==> Disciplined(live, GrabOps(id, sw, sh))
    ensures PlainCopies(GrabOps(id, sw, sh)) == [(Screenshot, Temp(id))]
    ensures ShaderPasses(GrabOps(id, sw, sh)) == [] && LayerSwitches(GrabOps(id, sw, sh)) == []
    ensures Bindings(GrabOps(id, sw, sh)) == []
    ensures AllocSizes(GrabOps(id, sw, sh)) == {(sw, sh)} && Allocs(GrabOps(id, sw, sh)) == 1
  {
    var ops := GrabOps(id, sw, sh);
    var o1, o2 := ops[1..], ops[2..];
    assert o2 == [];
    assert PlainCopies(o2) == [] && LayerSwitches(o2) == [] && ShaderPasses(o2) == [] && Bindings(o2) == [];
    assert o1[0] == Blit(Screenshot, Temp(id), None) && o1[1..] == o2;
    assert Apply(live + {id}, o1) == live + {id};
    assert Faults(live + {id}, o1) == 0;
    assert PlainCopies(o1) == [(Screenshot, Temp(id))] && LayerSwitches(o1) == [] && ShaderPasses(o1) == [];
    assert Bindings(o1) == [];
    assert AllocSizes(o1) == {} && Allocs(o1) == 0;
    assert ops[0] == Alloc(id, sw, sh) && ops[1..] == o1;
  }

  lemma CaptureSplits(s: Blur, cfg: Config, sw: int, sh: int)
    requires s.pendingCaptures > 0
    ensures ScreenCaptureCoroutine(s, cfg, sw, sh).ops
      == GrabOps(s.nextId, sw, sh) + RenderImage(Grabbed(s, sw, sh), cfg, sw, sh).ops
    ensures ScreenCaptureCoroutine(s, cfg, sw, sh).after == RenderImage(Grabbed(s, sw, sh), cfg, sw, sh).after
  {
  }

  /**
   * A capture coroutine keeps two new temporaries, the screenshot copy as
   * source and the blurred destination, with every call permitted.
   */
  lemma CaptureLedger(s: Blur, cfg: Config, sw: int, sh: int)
    requires Valid(s) && s.pendingCaptures > 0
    ensures var r := ScreenCaptureCoroutine(s, cfg, sw, sh);
      && r.after.engine.live == s.engine.live + {s.nextId, s.nextId + 1}
      && Disciplined(s.engine.live, r.ops)
      && Valid(r.after)
  {
    var id := s.nextId;
    var grab := GrabOps(id, sw, sh);
    var s1 := Grabbed(s, sw, sh);
    var r1 := RenderImage(s1, cfg, sw, sh);
    GrabLedger(s.engine.live, id, sw, sh);
    assert Valid(s1);
    RenderImageLedger(s1, cfg, sw, sh);
    CaptureSplits(s, cfg, sw, sh);
    FaultsAppend(s.engine.live, grab, r1.ops);
    assert s.engine.live + {id} + {id + 1} == s.engine.live + {id, id + 1};
  }

  /**
   * The screenshot is copied in at the screen's size and then blurred at
   * the working size, into the destination that ends up shown.
   */
  lemma CaptureViews(s: Blur, cfg: Config, sw: int, sh: int)
    requires s.pendingCaptures > 0
    ensures var r := ScreenCaptureCoroutine(s, cfg, sw, sh);
      && PlainCopies(r.ops) == [(Screenshot, Temp(s.nextId)),
                                (Temp(s.nextId + 2 + 2 * Iterations(cfg)), Temp(s.nextId + 1))]
      && AllocSizes(r.ops) == {(sw, sh), WorkingSize(cfg, sw, sh)}
      && r.after.engine.layerEnabled
      && r.after.engine.mainTex == Some(Temp(s.nextId + 1))
  {
    var id := s.nextId;
    var grab := GrabOps(id, sw, sh);
    var s1 := Grabbed(s, sw, sh);
    var r1 := RenderImage(s1, cfg, sw, sh);
    GrabLedger(s.engine.live, id, sw, sh);
    RenderImageShows(s1, cfg, sw, sh);
    RenderImageResolution(s1, cfg, sw, sh);
    CaptureSplits(s, cfg, sw, sh);
    PlainCopiesAppend(grab, r1.ops);
    AllocSizesAppend(grab, r1.ops);
  }

  /** The live set with the temporary `t` refers to, if any, taken out. */
  function Drop(live: set<nat>, t: Option<Tex>): set<nat> {
    if t.Some? && t.value.Temp? then live - {t.value.id} else live
  }

  /** Whether `t` refers to a temporary that is still held. */
  predicate HeldTemp(live: set<nat>, t: Option<Tex>) {
    t.Some? && t.value.Temp? && t.value.id in live
  }

  lemma ReleaseStep(live: set<nat>, t: Option<Tex>, rest: seq<Op>)
    ensures Apply(live, [Release(t)] + rest) == Apply(Drop(live, t), rest)
    ensures Faults(live, [Release(t)] + rest) == (if HeldTemp(live, t) then 0 else 1) + Faults(Drop(live, t), rest)
    ensures LayerSwitches([Release(t)] + rest) == LayerSwitches(rest)
    ensures Bindings([Release(t)] + rest) == Bindings(rest)
  {
  }

  lemma HideStep(live: set<nat>)
    ensures Apply(live, [SetLayer(false)]) == live
    ensures Faults(live, [SetLayer(false)]) == 0
    ensures LayerSwitches([SetLayer(false)]) == [false]
    ensures Bindings([SetLayer(false)]) == []
  {
  }

  /**
   * DisableBlur takes out the source (Static mode) and the destination and
   * hides the layer; a release that does not hit a held temporary counts as
   * a fault.
   */
  lemma DisableLedger(s: Blur)
    ensures var r := DisableBlur(s);
      var src := if s.blurType == Static then s.source else None;
      && r.after.engine.live == Drop(Drop(s.engine.live, src), s.destination)
      && Faults(s.engine.live, r.ops) ==
           (if s.blurType == Static && !HeldTemp(s.engine.live, s.source) then 1 else 0)
           + (if HeldTemp(Drop(s.engine.live, src), s.destination) then 0 else 1)
      && !r.after.engine.layerEnabled
      && r.after.engine.mainTex == s.engine.mainTex
  {
    var live := s.engine.live;
    var tail := [Release(s.destination), SetLayer(false)];
    HideStep(Drop(live, s.source));
    HideStep(live);
    ReleaseStep(Drop(live, s.source), s.destination, [SetLayer(false)]);
    ReleaseStep(live, s.destination, [SetLayer(false)]);
    if s.blurType == Static {
      ReleaseStep(live, s.source, tail);
      assert DisableOps(s) == [Release(s.source)] + tail;
    } else {
      assert DisableOps(s) == tail;
    }
  }

  /** DisableBlur keeps the invariant. */
  lemma DisableValid(s: Blur)
    requires Valid(s)
    ensures Valid(DisableBlur(s).after)
  {
    DisableLedger(s);
  }

  /** A freshly loaded component satisfies the invariant. */
  lemma InitValid(layerEnabled: bool)
    ensures Valid(Init(layerEnabled))
  {
  }

  /** EnableBlur keeps the invariant, whether it returns or throws. */
  lemma EnableValid(s: Blur, bt: BlurType, hasCamera: bool)
    requires Valid(s)
    ensures Valid(EnableBlur(s, bt, hasCamera).after)
  {
  }

  /** The frame copy itself touches no temporary. */
  lemma CopyLedger(live: set<nat>, src: nat, dest: nat)
    ensures Apply(live, [Blit(Frame(src), Frame(dest), None)]) == live
    ensures Disciplined(live, [Blit(Frame(src), Frame(dest), None)])
    ensures PlainCopies([Blit(Frame(src), Frame(dest), None)]) == [(Frame(src), Frame(dest))]
    ensures Bindings([Blit(Frame(src), Frame(dest), None)]) == []
  {
  }

  /**
   * Every camera frame is passed on with a plain copy as the last call.  A
   * scheduled frame keeps one new temporary, its destination; an
   * unscheduled one changes nothing held.  Every call is permitted.
   */
  lemma FrameLedger(s: Blur, cfg: Config, src: nat, dest: nat, w: int, h: int)
    requires Valid(s)
    ensures var r := OnRenderImage(s, cfg, src, dest, w, h);
      && r.after.engine.live == (if s.scheduleUpdate then s.engine.live + {s.nextId} else s.engine.live)
      && Disciplined(s.engine.live, r.ops)
      && LastOr(PlainCopies(r.ops), (Screenshot, Screenshot)) == (Frame(src), Frame(dest))
      && Valid(r.after)
  {
    var copy := [Blit(Frame(src), Frame(dest), None)];
    if s.scheduleUpdate {
      var s1 := s.(source := Some(Frame(src)));
      var r1 := RenderImage(s1, cfg, w, h);
      RenderImageLedger(s1, cfg, w, h);
      RenderImageShows(s1, cfg, w, h);
      CopyLedger(r1.after.engine.live, src, dest);
      assert OnRenderImage(s, cfg, src, dest, w, h).ops == r1.ops + copy;
      ApplyAppend(s.engine.live, r1.ops, copy);
      FaultsAppend(s.engine.live, r1.ops, copy);
      PlainCopiesAppend(r1.ops, copy);
      BindingsAppend(r1.ops, copy);
    } else {
      CopyLedger(s.engine.live, src, dest);
    }
  }

  /**
   * Dynamic mode leaks: a scheduled frame allocates a new destination and
   * overwrites the reference to the previous one without releasing it, so
   * the previous destination stays held with nothing referring to it.
   */
  lemma FrameLeaksDestination(s: Blur, cfg: Config, src: nat, dest: nat, w: int, h: int)
    requires Valid(s) && s.scheduleUpdate && HeldTemp(s.engine.live, s.destination)
    ensures var r := OnRenderImage(s, cfg, src, dest, w, h);
      && s.destination.value.id in r.after.engine.live
      && r.after.source != s.destination
      && r.after.destination != s.destination
      && r.after.engine.mainTex != s.destination
      && |r.after.engine.live| == |s.engine.live| + 1
  {
    var r := OnRenderImage(s, cfg, src, dest, w, h);
    FrameLedger(s, cfg, src, dest, w, h);
    var s1 := s.(source := Some(Frame(src)));
    RenderImageShows(s1, cfg, w, h);
    assert Bindings([Blit(Frame(src), Frame(dest), None)]) == [] by {
      CopyLedger(RenderImage(s1, cfg, w, h).after.engine.live, src, dest);
    }
    assert s.nextId !in s.engine.live;
  }

  /** `n` camera frames (src -> dest, of size w x h) in a row. */
  function Frames(s: Blur, cfg: Config, n: nat, src: nat, dest: nat, w: int, h: int): (r: Step)
    ensures r.after.blurType == s.blurType && r.after.scheduleUpdate == s.scheduleUpdate
    decreases n
  {
    if n == 0 then Step(s, [])
    else
      var f := OnRenderImage(s, cfg, src, dest, w, h);
      var g := Frames(f.after, cfg, n - 1, src, dest, w, h);
      Step(g.after, f.ops + g.ops)
  }

  /**
   * Over n scheduled frames the held temporaries grow by one per frame,
   * exactly as replaying the frames' calls says, and the last destination
   * is held.
   */
  lemma {:induction false} FramesLedger(s: Blur, cfg: Config, n: nat, src: nat, dest: nat, w: int, h: int)
    requires Valid(s) && s.scheduleUpdate
    ensures var r := Frames(s, cfg, n, src, dest, w, h);
      && |r.after.engine.live| == |s.engine.live| + n
      && r.after.engine.live == Apply(s.engine.live, r.ops)
      && Valid(r.after)
      && (n > 0 ==> HeldTemp(r.after.engine.live, r.after.destination))
    decreases n
  {
    if n > 0 {
      var f := OnRenderImage(s, cfg, src, dest, w, h);
      var g := Frames(f.after, cfg, n - 1, src, dest, w, h);
      FrameLedger(s, cfg, src, dest, w, h);
      assert |f.after.engine.live| == |s.engine.live| + 1 by {
        assert s.nextId !in s.engine.live;
      }
      FramesLedger(f.after, cfg, n - 1, src, dest, w, h);
      ApplyAppend(s.engine.live, f.ops, g.ops);
      if n == 1 {
        assert g.after == f.after;
        assert f.after.destination == Some(Temp(s.nextId));
      }
    }
  }

  /** Every call over n scheduled frames is permitted. */
  lemma {:induction false} FramesDisciplined(s: Blur, cfg: Config, n: nat, src: nat, dest: nat, w: int, h: int)
    requires Valid(s) && s.scheduleUpdate
    ensures Disciplined(s.engine.live, Frames(s, cfg, n, src, dest, w, h).ops)
    decreases n
  {
    if n > 0 {
      var f := OnRenderImage(s, cfg, src, dest, w, h);
      var g := Frames(f.after, cfg, n - 1, src, dest, w, h);
      assert Valid(f.after) && f.after.scheduleUpdate && Faults(s.engine.live, f.ops) == 0
          && Apply(s.engine.live, f.ops) == f.after.engine.live by {
        FrameLedger(s, cfg, src, dest, w, h);
      }
      FramesDisciplined(f.after, cfg, n - 1, src, dest, w, h);
      FaultsAppend(s.engine.live, f.ops, g.ops);
      assert Faults(s.engine.live, f.ops + g.ops) == 0;
      assert Frames(s, cfg, n, src, dest, w, h).ops == f.ops + g.ops;
    }
  }

  /**
   * A whole Dynamic session (enable, n >= 1 frames, disable) ends with n - 1
   * more temporaries held than before it started, though every call in it
   * is permitted: only the last frame's destination is given back.
   */
  lemma DynamicSessionLeaks(s: Blur, cfg: Config, n: nat, src: nat, dest: nat, w: int, h: int)
    requires Valid(s) && n >= 1
    ensures var e := EnableBlur(s, Dynamic, true);
      var f := Frames(e.after, cfg, n, src, dest, w, h);
      var d := DisableBlur(f.after);
      && e.Returned?
      && Disciplined(s.engine.live, f.ops)
      && Disciplined(f.after.engine.live, d.ops)
      && |d.after.engine.live| == |s.engine.live| + n - 1
      && !d.after.scheduleUpdate
  {
    var e := EnableBlur(s, Dynamic, true);
    var f := Frames(e.after, cfg, n, src, dest, w, h);
    FramesLedger(e.after, cfg, n, src, dest, w, h);
    FramesDisciplined(e.after, cfg, n, src, dest, w, h);
    DisableLedger(f.after);
    var x := f.after.destination.value.id;
    assert |f.after.engine.live - {x}| == |f.after.engine.live| - 1;
  }

  /**
   * DisableBlur never clears the destination, and clears the source only in
   * Dynamic mode, so a second call releases the destination again (and, in
   * Static mode, the source again): each of those releases misses.
   */
  lemma DoubleDisable(s: Blur)
    requires Valid(s)
    ensures var d1 := DisableBlur(s);
      var d2 := DisableBlur(d1.after);
      && Release(s.destination) in d2.ops
      && !Permitted(d1.after.engine.live, Release(s.destination))
      && Faults(d1.after.engine.live, d2.ops) == if s.blurType == Static then 2 else 1
  {
    var d1 := DisableBlur(s);
    DisableLedger(s);
    DisableLedger(d1.after);
    assert DisableOps(d1.after)[|DisableOps(d1.after)| - 2] == Release(s.destination);
  }

  /**
   * A Static DisableBlur before the capture coroutine has run cancels it and
   * releases whatever `source` still refers to: the release is permitted
   * exactly when that is a temporary still held, and never when it is null
   * or a texture already given back.
   */
  lemma StaticCancelReleasesSource(s: Blur, hasCamera: bool)
    requires Valid(s)
    ensures var e := EnableBlur(s, Static, hasCamera);
      var d := DisableBlur(e.after);
      && e.after.pendingCaptures == s.pendingCaptures + 1
      && d.after.pendingCaptures == 0
      && d.ops[0] == Release(s.source)
      && (Permitted(s.engine.live, d.ops[0]) <==> HeldTemp(s.engine.live, s.source))
  {
  }

  /**
   * After a Dynamic frame, switching to Static and cancelling at once
   * releases the camera's own frame, which is not a temporary at all.
   */
  lemma StaticCancelReleasesFrame(s: Blur, cfg: Config, hasCamera: bool, src: nat, dest: nat, w: int, h: int)
    ensures var f := OnRenderImage(EnableBlur(s, Dynamic, true).after, cfg, src, dest, w, h);
      var d := DisableBlur(EnableBlur(f.after, Static, hasCamera).after);
      && d.ops[0] == Release(Some(Frame(src)))
      && !Permitted(f.after.engine.live, d.ops[0])
  {
  }

  /**
   * Enabling Static blur again after a capture and cancelling at once
   * releases the previous capture's screenshot copy, which is still held:
   * that release is permitted, while the previous destination is released
   * as usual.
   */
  lemma StaticCancelReleasesCapture(s: Blur, cfg: Config, sw: int, sh: int, hasCamera: bool)
    requires Valid(s)
    ensures var c := ScreenCaptureCoroutine(EnableBlur(s, Static, hasCamera).after, cfg, sw, sh);
      var d := DisableBlur(EnableBlur(c.after, Static, hasCamera).after);
      && d.ops == [Release(Some(Temp(s.nextId))), Release(Some(Temp(s.nextId + 1))), SetLayer(false)]
      && Disciplined(c.after.engine.live, d.ops)
  {
    var e := EnableBlur(s, Static, hasCamera);
    var c := ScreenCaptureCoroutine(e.after, cfg, sw, sh);
    CaptureLedger(e.after, cfg, sw, sh);
    DisableLedger(EnableBlur(c.after, Static, hasCamera).after);
  }

  /** On a fresh component, enabling Static blur and disabling it at once releases null twice. */
  lemma FreshStaticCancel(layerEnabled: bool, hasCamera: bool)
    ensures var s := Init(layerEnabled);
      var d := DisableBlur(EnableBlur(s, Static, hasCamera).after);
      && d.ops == [Release(None), Release(None), SetLayer(false)]
      && Faults(s.engine.live, d.ops) == 2
  {
  }

  /**
   * A complete Static session (enable, the capture, disable) gives back
   * everything it took, with every call permitted, and hides the layer.
   */
  lemma StaticSessionBalanced(s: Blur, cfg: Config, sw: int, sh: int, hasCamera: bool)
    requires Valid(s)
    ensures var e := EnableBlur(s, Static, hasCamera);
      var c := ScreenCaptureCoroutine(e.after, cfg, sw, sh);
      var d := DisableBlur(c.after);
      && d.after.engine.live == s.engine.live
      && Disciplined(s.engine.live, c.ops)
      && Disciplined(c.after.engine.live, d.ops)
      && !d.after.engine.layerEnabled
      && d.after.pendingCaptures == 0
  {
    var e := EnableBlur(s, Static, hasCamera);
    var c := ScreenCaptureCoroutine(e.after, cfg, sw, sh);
    assert Valid(e.after);
    CaptureLedger(e.after, cfg, sw, sh);
    DisableLedger(c.after);
    var id := s.nextId;
    assert s.engine.live + {id, id + 1} - {id} - {id + 1} == s.engine.live;
  }

  /**
   * Switching from Dynamic to Static without disabling in between leaves the
   * per-frame blur scheduled: DisableBlur then takes the Static branch and
   * the next frame is still blurred into a new destination.
   */
  lemma ModeSwitchKeepsFrameBlur(s: Blur, cfg: Config, hasCamera: bool, src: nat, dest: nat, w: int, h: int)
    ensures var e1 := EnableBlur(s, Dynamic, true);
      var e2 := EnableBlur(e1.after, Static, hasCamera);
      var d := DisableBlur(e2.after);
      && d.after.scheduleUpdate
      && OnRenderImage(d.after, cfg, src, dest, w, h).after.destination == Some(Temp(d.after.nextId))
  {
  }

  /**
   * EnableBlur(Dynamic) off a camera throws after storing the type, so a
   * following DisableBlur takes the Dynamic branch: it forgets the source
   * without releasing it.
   */
  lemma FailedDynamicForgetsSource(s: Blur)
    requires Valid(s) && HeldTemp(s.engine.live, s.source) && s.source != s.destination
    ensures var t := EnableBlur(s, Dynamic, false);
      var d := DisableBlur(t.after);
      && t.Threw? && t.after.scheduleUpdate == s.scheduleUpdate
      && d.ops == [Release(s.destination), SetLayer(false)]
      && d.after.source == None
      && s.source.value.id in d.after.engine.live
  {
    var t := EnableBlur(s, Dynamic, false);
    DisableLedger(t.after);
  }

  /**
   * Two captures in a row (EnableBlur(Static) called twice before the
   * first coroutine ran) overwrite the first capture's source and
   * destination, which stay held with nothing referring to them.
   */
  lemma CaptureTwiceLeaks(s: Blur, cfg: Config, sw: int, sh: int)
    requires Valid(s) && s.pendingCaptures >= 2
    ensures var c1 := ScreenCaptureCoroutine(s, cfg, sw, sh);
      var c2 := ScreenCaptureCoroutine(c1.after, cfg, sw, sh);
      && c1.after.source == Some(Temp(s.nextId)) && c1.after.destination == Some(Temp(s.nextId + 1))
      && s.nextId in c2.after.engine.live && s.nextId + 1 in c2.after.engine.live
      && c2.after.source != c1.after.source && c2.after.destination != c1.after.destination
      && c2.after.engine.mainTex != c1.after.destination
      && |c2.after.engine.live| == |s.engine.live| + 4
  {
    var c1 := ScreenCaptureCoroutine(s, cfg, sw, sh);
    CaptureLedger(s, cfg, sw, sh);
    CaptureLedger(c1.after, cfg, sw, sh);
    CaptureViews(c1.after, cfg, sw, sh);
    var a, b := c1.after.nextId, c1.after.nextId + 1;
    assert a !in c1.after.engine.live && b !in c1.after.engine.live;
    assert s.nextId !in s.engine.live && s.nextId + 1 !in s.engine.live;
  }
}
