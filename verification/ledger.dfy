/**
 * An abstract view of the engine calls the blur component makes: temporary
 * render textures handed out and taken back by the engine's pool, shader
 * blits between textures, and the two switches on the display layer.
 *
 * A call sequence is a trace of `Op`s.  The ledger `Apply` replays a trace
 * over the set of temporaries that are currently held, so that
 * allocation/release bookkeeping can be stated without any GPU.  Every
 * acquisition gets a handle of its own, so a set is enough: a handle is
 * either held or given back.
 */
module Ledger {
  import opened Wrappers

  /** A texture as the component refers to it. */
  datatype Tex =
    | Temp(id: nat)   // one acquisition from the temporary pool; each acquisition gets a fresh id
    | Frame(id: nat)  // a render target the camera hands to the per-frame callback
    | Screenshot      // the texture returned by the screen capture

  /** One engine call. */
  datatype Op =
    | Alloc(id: nat, width: int, height: int)      // GetTemporary(width, height) returning Temp(id)
    | Blit(src: Tex, dst: Tex, pass: Option<int>)  // Graphics.Blit, with a shader pass or without a shader
    | Release(tex: Option<Tex>)                    // ReleaseTemporary, possibly of a null reference
    | SetMainTex(bound: Tex)                       // binds the blurred texture to the material
    | SetLayer(enabled: bool)                      // toggles the display layer

  function Max(a: int, b: int): int {
    if a < b then b else a
  }

  /** What one call does to the set of held temporaries. */
  function Effect(live: set<nat>, op: Op): set<nat> {
    match op
    case Alloc(id, _, _) => live + {id}
    case Release(Some(Temp(id))) => live - {id}
    case _ => live
  }

  /** The held temporaries after a whole trace. */
  function Apply(live: set<nat>, ops: seq<Op>): set<nat>
    decreases |ops|
  {
    if ops == [] then live else Apply(Effect(live, ops[0]), ops[1..])
  }

  /** A texture that may be read or written: temporaries must be held. */
  predicate Held(live: set<nat>, t: Tex) {
    t.Temp? ==> t.id in live
  }

  /**
   * A call that respects the pool: it allocates a fresh handle, touches only
   * held temporaries, and releases exactly a temporary it holds.  Releasing
   * null, a texture that is not a temporary, or a temporary already given
   * back frees nothing the caller holds.
   */
  predicate Permitted(live: set<nat>, op: Op) {
    match op
    case Alloc(id, _, _) => id !in live
    case Blit(src, dst, _) => Held(live, src) && Held(live, dst)
    case Release(Some(Temp(id))) => id in live
    case Release(_) => false
    case SetMainTex(t) => Held(live, t)
    case SetLayer(_) => true
  }

  /** How many calls of the trace are not permitted at the point they are made. */
  function Faults(live: set<nat>, ops: seq<Op>): nat
    decreases |ops|
  {
    if ops == [] then 0
    else (if Permitted(live, ops[0]) then 0 else 1) + Faults(Effect(live, ops[0]), ops[1..])
  }

  /** Every call of the trace is permitted. */
  predicate Disciplined(live: set<nat>, ops: seq<Op>) {
    Faults(live, ops) == 0
  }

  /** The change one call makes to the number of held temporaries. */
  function Delta(op: Op): int {
    match op
    case Alloc(_, _, _) => 1
    case Release(Some(Temp(_))) => -1
    case _ => 0
  }

  /**
   * The largest number of temporaries held at any point of the trace, when
   * `held` are held at its start and every call is permitted.
   */
  function Peak(held: int, ops: seq<Op>): int
    decreases |ops|
  {
    if ops == [] then held else Max(held, Peak(held + Delta(ops[0]), ops[1..]))
  }

  /** The shader pass indices of the trace's shader blits, in order. */
  function ShaderPasses(ops: seq<Op>): seq<int>
    decreases |ops|
  {
    if ops == [] then []
    else if ops[0].Blit? && ops[0].pass.Some? then [ops[0].pass.value] + ShaderPasses(ops[1..])
    else ShaderPasses(ops[1..])
  }

  /** The (source, target) pairs of the blits made without a shader, in order. */
  function PlainCopies(ops: seq<Op>): seq<(Tex, Tex)>
    decreases |ops|
  {
    if ops == [] then []
    else if ops[0].Blit? && ops[0].pass.None? then [(ops[0].src, ops[0].dst)] + PlainCopies(ops[1..])
    else PlainCopies(ops[1..])
  }

  /** Every blit of the trace as (source, target, shader pass), in order. */
  function Blits(ops: seq<Op>): seq<(Tex, Tex, Option<int>)>
    decreases |ops|
  {
    if ops == [] then []
    else if ops[0].Blit? then [(ops[0].src, ops[0].dst, ops[0].pass)] + Blits(ops[1..])
    else Blits(ops[1..])
  }

  /** The values the display layer is switched to, in order. */
  function LayerSwitches(ops: seq<Op>): seq<bool>
    decreases |ops|
  {
    if ops == [] then []
    else if ops[0].SetLayer? then [ops[0].enabled] + LayerSwitches(ops[1..])
    else LayerSwitches(ops[1..])
  }

  /** The textures bound to the material, in order. */
  function Bindings(ops: seq<Op>): seq<Tex>
    decreases |ops|
  {
    if ops == [] then []
    else if ops[0].SetMainTex? then [ops[0].bound] + Bindings(ops[1..])
    else Bindings(ops[1..])
  }

  /** The number of allocations. */
  function Allocs(ops: seq<Op>): nat
    decreases |ops|
  {
    if ops == [] then 0 else (if ops[0].Alloc? then 1 else 0) + Allocs(ops[1..])
  }

  /** The number of releases, null ones included. */
  function Releases(ops: seq<Op>): nat
    decreases |ops|
  {
    if ops == [] then 0 else (if ops[0].Release? then 1 else 0) + Releases(ops[1..])
  }

  /** The (width, height) pairs at which the trace allocates. */
  function AllocSizes(ops: seq<Op>): set<(int, int)>
    decreases |ops|
  {
    if ops == [] then {}
    else (if ops[0].Alloc? then {(ops[0].width, ops[0].height)} else {}) + AllocSizes(ops[1..])
  }

  /** The last element of `xs`, or `d` when there is none. */
  function LastOr<T>(xs: seq<T>, d: T): T {
    if xs == [] then d else xs[|xs| - 1]
  }

  /**
   * What the engine remembers across calls: the held temporaries, whether
   * the display layer is shown, and the texture bound to the material.
   */
  datatype Engine = Engine(live: set<nat>, layerEnabled: bool, mainTex: Option<Tex>)

  /** The engine after a trace: the layer and the binding keep their last setting. */
  function Run(e: Engine, ops: seq<Op>): Engine {
    var bound := Bindings(ops);
    Engine(Apply(e.live, ops),
           LastOr(LayerSwitches(ops), e.layerEnabled),
           if bound == [] then e.mainTex else Some(bound[|bound| - 1]))
  }

  lemma {:induction false} ApplyAppend(live: set<nat>, a: seq<Op>, b: seq<Op>)
    ensures Apply(live, a + b) == Apply(Apply(live, a), b)
    decreases |a|
  {
    if a == [] {
      assert a + b == b;
    } else {
      assert (a + b)[0] == a[0];
      assert (a + b)[1..] == a[1..] + b;
      ApplyAppend(Effect(live, a[0]), a[1..], b);
    }
  }

  lemma {:induction false} FaultsAppend(live: set<nat>, a: seq<Op>, b: seq<Op>)
    ensures Faults(live, a + b) == Faults(live, a) + Faults(Apply(live, a), b)
    decreases |a|
  {
    if a == [] {
      assert a + b == b;
    } else {
      assert (a + b)[0] == a[0];
      assert (a + b)[1..] == a[1..] + b;
      FaultsAppend(Effect(live, a[0]), a[1..], b);
    }
  }

  /** The net change in held temporaries over a trace. */
  function Net(ops: seq<Op>): int
    decreases |ops|
  {
    if ops == [] then 0 else Delta(ops[0]) + Net(ops[1..])
  }

  lemma {:induction false} PeakAppend(held: int, a: seq<Op>, b: seq<Op>)
    ensures Peak(held, a + b) == Max(Peak(held, a), Peak(held + Net(a), b))
    decreases |a|
  {
    if a == [] {
      assert a + b == b;
      PeakFloor(held, b);
    } else {
      assert (a + b)[0] == a[0];
      assert (a + b)[1..] == a[1..] + b;
      PeakAppend(held + Delta(a[0]), a[1..], b);
    }
  }

  /** `PeakAppend` for a trace in three parts. */
  lemma PeakOfThree(held: int, a: seq<Op>, b: seq<Op>, c: seq<Op>)
    ensures Peak(held, a + b + c)
      == Max(Peak(held, a), Max(Peak(held + Net(a), b), Peak(held + Net(a) + Net(b), c)))
  {
    PeakAppend(held, a, b);
    NetAppend(a, b);
    PeakAppend(held, a + b, c);
  }

  lemma PeakFloor(held: int, ops: seq<Op>)
    ensures Peak(held, ops) >= held
  {
  }

  /**
   * Along a disciplined trace the counted temporaries are exactly the held
   * ones: every allocation adds a new handle and every release removes one.
   */
  lemma {:induction false} NetTracksLive(live: set<nat>, ops: seq<Op>)
    requires Disciplined(live, ops)
    ensures |Apply(live, ops)| == |live| + Net(ops)
    decreases |ops|
  {
    if ops != [] {
      var op := ops[0];
      assert Permitted(live, op);
      match op {
        case Alloc(id, _, _) =>
          assert |live + {id}| == |live| + 1;
        case Release(Some(Temp(id))) =>
          assert |live - {id}| == |live| - 1;
        case _ =>
      }
      NetTracksLive(Effect(live, op), ops[1..]);
    }
  }

  lemma {:induction false} ShaderPassesAppend(a: seq<Op>, b: seq<Op>)
    ensures ShaderPasses(a + b) == ShaderPasses(a) + ShaderPasses(b)
    decreases |a|
  {
    if a == [] {
      assert a + b == b;
    } else {
      assert (a + b)[0] == a[0];
      assert (a + b)[1..] == a[1..] + b;
      ShaderPassesAppend(a[1..], b);
    }
  }

  lemma {:induction false} PlainCopiesAppend(a: seq<Op>, b: seq<Op>)
    ensures PlainCopies(a + b) == PlainCopies(a) + PlainCopies(b)
    decreases |a|
  {
    if a == [] {
      assert a + b == b;
    } else {
      assert (a + b)[0] == a[0];
      assert (a + b)[1..] == a[1..] + b;
      PlainCopiesAppend(a[1..], b);
    }
  }

  lemma {:induction false} BlitsAppend(a: seq<Op>, b: seq<Op>)
    ensures Blits(a + b) == Blits(a) + Blits(b)
    decreases |a|
  {
    if a == [] {
      assert a + b == b;
    } else {
      assert (a + b)[0] == a[0];
      assert (a + b)[1..] == a[1..] + b;
      BlitsAppend(a[1..], b);
    }
  }

  lemma {:induction false} LayerSwitchesAppend(a: seq<Op>, b: seq<Op>)
    ensures LayerSwitches(a + b) == LayerSwitches(a) + LayerSwitches(b)
    decreases |a|
  {
    if a == [] {
      assert a + b == b;
    } else {
      assert (a + b)[0] == a[0];
      assert (a + b)[1..] == a[1..] + b;
      LayerSwitchesAppend(a[1..], b);
    }
  }

  lemma {:induction false} BindingsAppend(a: seq<Op>, b: seq<Op>)
    ensures Bindings(a + b) == Bindings(a) + Bindings(b)
    decreases |a|
  {
    if a == [] {
      assert a + b == b;
    } else {
      assert (a + b)[0] == a[0];
      assert (a + b)[1..] == a[1..] + b;
      BindingsAppend(a[1..], b);
    }
  }

  lemma {:induction false} AllocsAppend(a: seq<Op>, b: seq<Op>)
    ensures Allocs(a + b) == Allocs(a) + Allocs(b)
    decreases |a|
  {
    if a == [] {
      assert a + b == b;
    } else {
      assert (a + b)[0] == a[0];
      assert (a + b)[1..] == a[1..] + b;
      AllocsAppend(a[1..], b);
    }
  }

  lemma {:induction false} ReleasesAppend(a: seq<Op>, b: seq<Op>)
    ensures Releases(a + b) == Releases(a) + Releases(b)
    decreases |a|
  {
    if a == [] {
      assert a + b == b;
    } else {
      assert (a + b)[0] == a[0];
      assert (a + b)[1..] == a[1..] + b;
      ReleasesAppend(a[1..], b);
    }
  }

  lemma {:induction false} NetAppend(a: seq<Op>, b: seq<Op>)
    ensures Net(a + b) == Net(a) + Net(b)
    decreases |a|
  {
    if a == [] {
      assert a + b == b;
    } else {
      assert (a + b)[0] == a[0];
      assert (a + b)[1..] == a[1..] + b;
      NetAppend(a[1..], b);
    }
  }

  lemma {:induction false} AllocSizesAppend(a: seq<Op>, b: seq<Op>)
    ensures AllocSizes(a + b) == AllocSizes(a) + AllocSizes(b)
    decreases |a|
  {
    if a == [] {
      assert a + b == b;
    } else {
      assert (a + b)[0] == a[0];
      assert (a + b)[1..] == a[1..] + b;
      AllocSizesAppend(a[1..], b);
    }
  }

  /** The ordered views of a trace distribute over a concatenation. */
  lemma TallyAppend(a: seq<Op>, b: seq<Op>)
    ensures ShaderPasses(a + b) == ShaderPasses(a) + ShaderPasses(b)
    ensures PlainCopies(a + b) == PlainCopies(a) + PlainCopies(b)
    ensures LayerSwitches(a + b) == LayerSwitches(a) + LayerSwitches(b)
    ensures Bindings(a + b) == Bindings(a) + Bindings(b)
  {
    ShaderPassesAppend(a, b);
    PlainCopiesAppend(a, b);
    LayerSwitchesAppend(a, b);
    BindingsAppend(a, b);
  }

  /** The ordered views of a trace in three parts. */
  lemma TallyOfThree(a: seq<Op>, b: seq<Op>, c: seq<Op>)
    ensures ShaderPasses(a + b + c) == ShaderPasses(a) + ShaderPasses(b) + ShaderPasses(c)
    ensures PlainCopies(a + b + c) == PlainCopies(a) + PlainCopies(b) + PlainCopies(c)
    ensures LayerSwitches(a + b + c) == LayerSwitches(a) + LayerSwitches(b) + LayerSwitches(c)
    ensures Bindings(a + b + c) == Bindings(a) + Bindings(b) + Bindings(c)
  {
    TallyAppend(a, b);
    TallyAppend(a + b, c);
  }

  /** The counts of a trace add up over a concatenation. */
  lemma CountAppend(a: seq<Op>, b: seq<Op>)
    ensures Allocs(a + b) == Allocs(a) + Allocs(b)
    ensures Releases(a + b) == Releases(a) + Releases(b)
    ensures Net(a + b) == Net(a) + Net(b)
    ensures AllocSizes(a + b) == AllocSizes(a) + AllocSizes(b)
  {
    AllocsAppend(a, b);
    ReleasesAppend(a, b);
    NetAppend(a, b);
    AllocSizesAppend(a, b);
  }

  /** The counts of a trace in three parts. */
  lemma CountOfThree(a: seq<Op>, b: seq<Op>, c: seq<Op>)
    ensures Allocs(a + b + c) == Allocs(a) + Allocs(b) + Allocs(c)
    ensures Releases(a + b + c) == Releases(a) + Releases(b) + Releases(c)
    ensures Net(a + b + c) == Net(a) + Net(b) + Net(c)
    ensures AllocSizes(a + b + c) == AllocSizes(a) + AllocSizes(b) + AllocSizes(c)
  {
    CountAppend(a, b);
    CountAppend(a + b, c);
  }

  /**
   * `Peak` is what its name says: along a disciplined trace, no prefix
   * leaves more temporaries held than `Peak` of the starting count.
   */
  lemma {:induction false} PeakBounds(live: set<nat>, ops: seq<Op>)
    requires Disciplined(live, ops)
    ensures forall i | 0 <= i <= |ops| :: |Apply(live, ops[..i])| <= Peak(|live|, ops)
    decreases |ops|
  {
    PeakFloor(|live|, ops);
    if ops != [] {
      var op := ops[0];
      var next := Effect(live, op);
      NetTracksLive(live, [op]);
      assert [op][1..] == [];
      assert |next| == |live| + Delta(op);
      PeakBounds(next, ops[1..]);
      forall i | 1 <= i <= |ops|
        ensures |Apply(live, ops[..i])| <= Peak(|live|, ops)
      {
        assert ops[..i][0] == op && ops[..i][1..] == ops[1..][..i - 1];
      }
      assert ops[..0] == [];
    }
  }

  lemma LastOrAppend<T>(a: seq<T>, b: seq<T>, d: T)
    ensures LastOr(a + b, d) == LastOr(b, LastOr(a, d))
  {
  }

  /** Running two traces one after the other is running their concatenation. */
  lemma RunAppend(e: Engine, a: seq<Op>, b: seq<Op>)
    ensures Run(e, a + b) == Run(Run(e, a), b)
  {
    ApplyAppend(e.live, a, b);
    TallyAppend(a, b);
    LastOrAppend(LayerSwitches(a), LayerSwitches(b), e.layerEnabled);
    var ba, bb := Bindings(a), Bindings(b);
    if bb != [] {
      assert (ba + bb)[|ba + bb| - 1] == bb[|bb| - 1];
    } else {
      assert ba + bb == ba;
    }
  }
}
