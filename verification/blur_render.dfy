/**
 * The call sequence of one blur pass (UIBlur.RenderImage), as a trace over
 * the ledger: the working resolution, the ping-pong loop of scratch
 * textures and the shader pass indices it selects.
 */
module BlurRender {
  import opened Wrappers
  import opened Ledger

  /** Standard Gauss (performance) or Sgx Gauss (quality). */
  datatype BlurPreference = StandardGauss | SgxGauss

  /** The integer tunables the pass reads; the float ones are not modelled. */
  datatype Config = Config(downsample: int, blurIterations: int, blurPref: BlurPreference)

  function Pow2(k: nat): (r: nat)
    ensures r >= 1
  {
    if k == 0 then 1 else 2 * Pow2(k - 1)
  }

  /**
   * `x >> n` on a C# int: the shift count is taken modulo 32 (its low five
   * bits) and the shift is arithmetic, so the result is x divided by
   * 2^(n mod 32) rounded toward negative infinity.
   */
  function ShiftRight(x: int, n: int): (r: int)
    ensures Pow2(n % 32) * r <= x < Pow2(n % 32) * (r + 1)
    ensures 0 <= x ==> 0 <= r <= x
    ensures 0 <= x < Pow2(n % 32) ==> r == 0
  {
    DivFloor(x, Pow2(n % 32));
    x / Pow2(n % 32)
  }

  /** Euclidean division by a positive divisor rounds toward negative infinity. */
  lemma DivFloor(x: int, d: int)
    requires d >= 1
    ensures d * (x / d) <= x < d * (x / d + 1)
    ensures 0 <= x ==> 0 <= x / d <= x
    ensures 0 <= x < d ==> x / d == 0
  {
  }

  /** Where the loop's pass pair starts: passes 1/2 or 3/4. */
  function PassOffset(pref: BlurPreference): int {
    match pref
    case StandardGauss => 0
    case SgxGauss => 2
  }

  /** How often `for (i = 0; i < blurIterations; i++)` runs. */
  function Iterations(cfg: Config): nat {
    if cfg.blurIterations < 0 then 0 else cfg.blurIterations
  }

  /** One half-iteration: a new scratch `nxt`, a shader blit rt -> nxt, and the release of `rt`. */
  function Half(rt: nat, nxt: nat, pass: int, w: int, h: int): seq<Op> {
    [Alloc(nxt, w, h), Blit(Temp(rt), Temp(nxt), Some(pass)), Release(Some(Temp(rt)))]
  }

  /**
   * `k` iterations of the blur loop, starting from the scratch texture
   * `rt`: a vertical then a horizontal half-iteration each.  The next
   * handles the pool gives out are rt + 1, rt + 2, ...
   */
  function LoopOps(rt: nat, k: nat, w: int, h: int, offs: int): seq<Op>
    decreases k
  {
    if k == 0 then []
    else Iteration(rt, w, h, offs) + LoopOps(rt + 2, k - 1, w, h, offs)
  }

  /**
   * The start of the pass: hide the layer, allocate the destination `n` and
   * the first scratch n + 1, and prefilter the source into it with pass 0.
   */
  function Prefilter(src: Tex, n: nat, w: int, h: int): seq<Op> {
    [SetLayer(false), Alloc(n, w, h), Alloc(n + 1, w, h), Blit(src, Temp(n + 1), Some(0))]
  }

  /**
   * The end of the pass: copy the last scratch into the destination without
   * a shader, bind the destination, show the layer and release the scratch.
   */
  function Finish(n: nat, last: nat): seq<Op> {
    [Blit(Temp(last), Temp(n), None), SetMainTex(Temp(n)), SetLayer(true), Release(Some(Temp(last)))]
  }

  /** The whole pass, with `k` loop iterations; its last scratch is n + 1 + 2k. */
  function RenderOps(src: Tex, n: nat, w: int, h: int, k: nat, offs: int): seq<Op> {
    Prefilter(src, n, w, h) + LoopOps(n + 1, k, w, h, offs) + Finish(n, n + 1 + 2 * k)
  }

  /** A half-iteration swaps the held scratch `rt` for the fresh one `nxt`. */
  lemma HalfApply(live: set<nat>, rt: nat, nxt: nat, pass: int, w: int, h: int)
    ensures Apply(live, Half(rt, nxt, pass, w, h)) == live + {nxt} - {rt}
  {
    var ops := Half(rt, nxt, pass, w, h);
    var l1 := live + {nxt};
    var o1, o2, o3 := ops[1..], ops[2..], ops[3..];
    assert o3 == [];
    assert o2[0] == Release(Some(Temp(rt))) && o2[1..] == o3;
    assert Apply(l1, o2) == l1 - {rt};
    assert o1[0] == Blit(Temp(rt), Temp(nxt), Some(pass)) && o1[1..] == o2;
    assert Apply(l1, o1) == l1 - {rt};
    assert ops[0] == Alloc(nxt, w, h) && ops[1..] == o1;
  }

  /** A half-iteration only touches the scratch it holds and the one it allocates. */
  lemma HalfDisciplined(live: set<nat>, rt: nat, nxt: nat, pass: int, w: int, h: int)
    requires rt in live && nxt !in live
    ensures Disciplined(live, Half(rt, nxt, pass, w, h))
  {
    var ops := Half(rt, nxt, pass, w, h);
    var l1 := live + {nxt};
    var o1, o2, o3 := ops[1..], ops[2..], ops[3..];
    assert o3 == [];
    assert o2[0] == Release(Some(Temp(rt))) && o2[1..] == o3;
    assert Faults(l1, o2) == 0;
    assert o1[0] == Blit(Temp(rt), Temp(nxt), Some(pass)) && o1[1..] == o2;
    assert Faults(l1, o1) == 0;
    assert ops[0] == Alloc(nxt, w, h) && ops[1..] == o1;
  }

  /** The ordered views of a half-iteration: one shader blit and nothing else. */
  lemma HalfViews(rt: nat, nxt: nat, pass: int, w: int, h: int)
    ensures ShaderPasses(Half(rt, nxt, pass, w, h)) == [pass]
    ensures PlainCopies(Half(rt, nxt, pass, w, h)) == []
    ensures LayerSwitches(Half(rt, nxt, pass, w, h)) == []
    ensures Bindings(Half(rt, nxt, pass, w, h)) == []
  {
    var ops := Half(rt, nxt, pass, w, h);
    var o1, o2, o3 := ops[1..], ops[2..], ops[3..];
    assert o3 == [];
    assert PlainCopies(o3) == [] && Bindings(o3) == [] && LayerSwitches(o3) == [];
    assert o2[0] == Release(Some(Temp(rt))) && o2[1..] == o3;
    assert ShaderPasses(o2) == [] && PlainCopies(o2) == [] && LayerSwitches(o2) == [] && Bindings(o2) == [];
    assert o1[0] == Blit(Temp(rt), Temp(nxt), Some(pass)) && o1[1..] == o2;
    assert ShaderPasses(o1) == [pass] && PlainCopies(o1) == [] && LayerSwitches(o1) == [] && Bindings(o1) == [];
    assert ops[0] == Alloc(nxt, w, h) && ops[1..] == o1;
  }

  /** A half-iteration's one blit reads the held scratch and writes the new one. */
  lemma HalfBlits(rt: nat, nxt: nat, pass: int, w: int, h: int)
    ensures Blits(Half(rt, nxt, pass, w, h)) == [(Temp(rt), Temp(nxt), Some(pass))]
  {
    var ops := Half(rt, nxt, pass, w, h);
    var o1, o2, o3 := ops[1..], ops[2..], ops[3..];
    assert o3 == [];
    assert o2[0] == Release(Some(Temp(rt))) && o2[1..] == o3;
    assert Blits(o2) == [];
    assert o1[0] == Blit(Temp(rt), Temp(nxt), Some(pass)) && o1[1..] == o2;
    assert ops[0] == Alloc(nxt, w, h) && ops[1..] == o1;
  }

  /** What a half-iteration allocates and releases, counted. */
  lemma HalfCounts(held: int, rt: nat, nxt: nat, pass: int, w: int, h: int)
    ensures Allocs(Half(rt, nxt, pass, w, h)) == 1
    ensures Releases(Half(rt, nxt, pass, w, h)) == 1
    ensures AllocSizes(Half(rt, nxt, pass, w, h)) == {(w, h)}
    ensures Net(Half(rt, nxt, pass, w, h)) == 0
    ensures Peak(held, Half(rt, nxt, pass, w, h)) == held + 1
  {
    var ops := Half(rt, nxt, pass, w, h);
    var o1, o2, o3 := ops[1..], ops[2..], ops[3..];
    assert o3 == [];
    assert Allocs(o3) == 0 && Releases(o3) == 0 && AllocSizes(o3) == {} && Net(o3) == 0;
    assert o2[0] == Release(Some(Temp(rt))) && o2[1..] == o3;
    assert Allocs(o2) == 0 && Releases(o2) == 1 && AllocSizes(o2) == {} && Net(o2) == -1;
    assert Peak(held + 1, o2) == held + 1;
    assert o1[0] == Blit(Temp(rt), Temp(nxt), Some(pass)) && o1[1..] == o2;
    assert Allocs(o1) == 0 && Releases(o1) == 1 && AllocSizes(o1) == {} && Net(o1) == -1;
    assert Peak(held + 1, o1) == held + 1;
    assert ops[0] == Alloc(nxt, w, h) && ops[1..] == o1;
  }

  /** One loop iteration: two half-iterations back to back. */
  function Iteration(rt: nat, w: int, h: int, offs: int): seq<Op> {
    Half(rt, rt + 1, 1 + offs, w, h) + Half(rt + 1, rt + 2, 2 + offs, w, h)
  }

  /** One iteration swaps the held scratch rt for rt + 2. */
  lemma IterationApply(live: set<nat>, rt: nat, w: int, h: int, offs: int)
    ensures Apply(live, Iteration(rt, w, h, offs)) == live - {rt} - {rt + 1} + {rt + 2}
  {
    HalfApply(live, rt, rt + 1, 1 + offs, w, h);
    HalfApply(live + {rt + 1} - {rt}, rt + 1, rt + 2, 2 + offs, w, h);
    assert live + {rt + 1} - {rt} + {rt + 2} - {rt + 1} == live - {rt} - {rt + 1} + {rt + 2};
    ApplyAppend(live, Half(rt, rt + 1, 1 + offs, w, h), Half(rt + 1, rt + 2, 2 + offs, w, h));
  }

  /** One iteration only touches scratch textures it holds or has just allocated. */
  lemma IterationDisciplined(live: set<nat>, rt: nat, w: int, h: int, offs: int)
    requires rt in live && rt + 1 !in live && rt + 2 !in live
    ensures Disciplined(live, Iteration(rt, w, h, offs))
  {
    var l1 := live + {rt + 1} - {rt};
    HalfApply(live, rt, rt + 1, 1 + offs, w, h);
    HalfDisciplined(live, rt, rt + 1, 1 + offs, w, h);
    assert rt + 1 in l1 && rt + 2 !in l1;
    HalfDisciplined(l1, rt + 1, rt + 2, 2 + offs, w, h);
    FaultsAppend(live, Half(rt, rt + 1, 1 + offs, w, h), Half(rt + 1, rt + 2, 2 + offs, w, h));
  }

  /** The ping-pong loop swaps the starting scratch rt for the final one, last == rt + 2k. */
  lemma {:induction false} LoopApply(live: set<nat>, rt: nat, k: nat, last: nat, w: int, h: int, offs: int)
    requires rt in live && last == rt + 2 * k
    requires forall id | id in live :: id <= rt
    ensures Apply(live, LoopOps(rt, k, w, h, offs)) == live - {rt} + {last}
    decreases k
  {
    if k == 0 {
      assert live - {rt} + {rt} == live;
    } else {
      var l2 := live - {rt} + {rt + 2};
      IterationApply(live, rt, w, h, offs);
      assert live - {rt} - {rt + 1} + {rt + 2} == l2;
      LoopApply(l2, rt + 2, k - 1, last, w, h, offs);
      assert l2 - {rt + 2} + {last} == live - {rt} + {last};
      ApplyAppend(live, Iteration(rt, w, h, offs), LoopOps(rt + 2, k - 1, w, h, offs));
    }
  }

  /**
   * Every call of the loop is permitted, provided the pool has handed out
   * no handle above the current scratch.
   */
  lemma {:induction false} LoopDisciplined(live: set<nat>, rt: nat, k: nat, w: int, h: int, offs: int)
    requires rt in live
    requires forall id | id in live :: id <= rt
    ensures Disciplined(live, LoopOps(rt, k, w, h, offs))
    decreases k
  {
    if k > 0 {
      var l2 := live - {rt} + {rt + 2};
      IterationApply(live, rt, w, h, offs);
      assert live - {rt} - {rt + 1} + {rt + 2} == l2;
      IterationDisciplined(live, rt, w, h, offs);
      LoopDisciplined(l2, rt + 2, k - 1, w, h, offs);
      FaultsAppend(live, Iteration(rt, w, h, offs), LoopOps(rt + 2, k - 1, w, h, offs));
    }
  }

  /** The loop's shader passes alternate 1 + offs, 2 + offs, and it makes no other kind of call. */
  lemma {:induction false} LoopPasses(rt: nat, k: nat, w: int, h: int, offs: int)
    ensures |ShaderPasses(LoopOps(rt, k, w, h, offs))| == 2 * k
    ensures forall j | 0 <= j < 2 * k ::
      ShaderPasses(LoopOps(rt, k, w, h, offs))[j] == if j % 2 == 0 then 1 + offs else 2 + offs
    ensures PlainCopies(LoopOps(rt, k, w, h, offs)) == []
    ensures LayerSwitches(LoopOps(rt, k, w, h, offs)) == []
    ensures Bindings(LoopOps(rt, k, w, h, offs)) == []
    decreases k
  {
    if k > 0 {
      var a := Half(rt, rt + 1, 1 + offs, w, h);
      var b := Half(rt + 1, rt + 2, 2 + offs, w, h);
      var rest := LoopOps(rt + 2, k - 1, w, h, offs);
      assert LoopOps(rt, k, w, h, offs) == a + (b + rest);
      LoopPasses(rt + 2, k - 1, w, h, offs);
      TallyAppend(b, rest);
      TallyAppend(a, b + rest);
      HalfViews(rt, rt + 1, 1 + offs, w, h);
      HalfViews(rt + 1, rt + 2, 2 + offs, w, h);
      var p := ShaderPasses(LoopOps(rt, k, w, h, offs));
      var q := ShaderPasses(rest);
      assert p == [1 + offs, 2 + offs] + q;
      forall j | 2 <= j < 2 * k
        ensures p[j] == if j % 2 == 0 then 1 + offs else 2 + offs
      {
        assert p[j] == q[j - 2];
        assert (j - 2) % 2 == j % 2;
      }
    }
  }

  /**
   * The loop's blits ping-pong through consecutive scratch handles: blit j
   * reads rt + j and writes rt + j + 1, so each reads what the one before
   * it wrote.
   */
  lemma {:induction false} LoopBlits(rt: nat, k: nat, w: int, h: int, offs: int)
    ensures |Blits(LoopOps(rt, k, w, h, offs))| == 2 * k
    ensures forall j | 0 <= j < 2 * k ::
      Blits(LoopOps(rt, k, w, h, offs))[j]
        == (Temp(rt + j), Temp(rt + j + 1), Some(if j % 2 == 0 then 1 + offs else 2 + offs))
    decreases k
  {
    if k > 0 {
      var a := Half(rt, rt + 1, 1 + offs, w, h);
      var b := Half(rt + 1, rt + 2, 2 + offs, w, h);
      var rest := LoopOps(rt + 2, k - 1, w, h, offs);
      assert LoopOps(rt, k, w, h, offs) == a + (b + rest);
      LoopBlits(rt + 2, k - 1, w, h, offs);
      BlitsAppend(b, rest);
      BlitsAppend(a, b + rest);
      HalfBlits(rt, rt + 1, 1 + offs, w, h);
      HalfBlits(rt + 1, rt + 2, 2 + offs, w, h);
      var p := Blits(LoopOps(rt, k, w, h, offs));
      var q := Blits(rest);
      assert p == [(Temp(rt), Temp(rt + 1), Some(1 + offs)), (Temp(rt + 1), Temp(rt + 2), Some(2 + offs))] + q;
      forall j | 2 <= j < 2 * k
        ensures p[j] == (Temp(rt + j), Temp(rt + j + 1), Some(if j % 2 == 0 then 1 + offs else 2 + offs))
      {
        assert p[j] == q[j - 2];
        assert (j - 2) % 2 == j % 2;
      }
    }
  }

  /** Each loop iteration allocates two scratch textures of the working size and releases two. */
  lemma {:induction false} LoopCounts(rt: nat, k: nat, w: int, h: int, offs: int)
    ensures Allocs(LoopOps(rt, k, w, h, offs)) == 2 * k
    ensures Releases(LoopOps(rt, k, w, h, offs)) == 2 * k
    ensures AllocSizes(LoopOps(rt, k, w, h, offs)) == if k == 0 then {} else {(w, h)}
    ensures Net(LoopOps(rt, k, w, h, offs)) == 0
    decreases k
  {
    if k > 0 {
      var a := Half(rt, rt + 1, 1 + offs, w, h);
      var b := Half(rt + 1, rt + 2, 2 + offs, w, h);
      var rest := LoopOps(rt + 2, k - 1, w, h, offs);
      assert LoopOps(rt, k, w, h, offs) == a + (b + rest);
      LoopCounts(rt + 2, k - 1, w, h, offs);
      CountAppend(b, rest);
      CountAppend(a, b + rest);
      HalfCounts(0, rt, rt + 1, 1 + offs, w, h);
      HalfCounts(0, rt + 1, rt + 2, 2 + offs, w, h);
    }
  }

  /** Ping-pong: while the loop runs, at most one scratch is held besides the current one. */
  lemma {:induction false} LoopPeak(held: int, rt: nat, k: nat, w: int, h: int, offs: int)
    ensures Peak(held, LoopOps(rt, k, w, h, offs)) == if k == 0 then held else held + 1
    decreases k
  {
    if k > 0 {
      var a := Half(rt, rt + 1, 1 + offs, w, h);
      var b := Half(rt + 1, rt + 2, 2 + offs, w, h);
      var rest := LoopOps(rt + 2, k - 1, w, h, offs);
      assert LoopOps(rt, k, w, h, offs) == a + (b + rest);
      LoopPeak(held, rt + 2, k - 1, w, h, offs);
      HalfCounts(held, rt, rt + 1, 1 + offs, w, h);
      HalfCounts(held, rt + 1, rt + 2, 2 + offs, w, h);
      PeakAppend(held, b, rest);
      PeakAppend(held, a, b + rest);
    }
  }

  lemma PrefilterLedger(live: set<nat>, held: int, src: Tex, n: nat, w: int, h: int)
    ensures Apply(live, Prefilter(src, n, w, h)) == live + {n} + {n + 1}
    ensures Held(live, src) && n !in live && n + 1 !in live && n != n + 1 ==>
      Disciplined(live, Prefilter(src, n, w, h))
    ensures Net(Prefilter(src, n, w, h)) == 2
    ensures Peak(held, Prefilter(src, n, w, h)) == held + 2
  {
    var ops := Prefilter(src, n, w, h);
    var l1 := live + {n};
    var l2 := l1 + {n + 1};
    var o1, o2, o3, o4 := ops[1..], ops[2..], ops[3..], ops[4..];
    assert o4 == [];
    assert o3[0] == Blit(src, Temp(n + 1), Some(0)) && o3[1..] == o4;
    assert Apply(l2, o3) == l2 && Net(o3) == 0 && Peak(held + 2, o3) == held + 2;
    assert Held(live, src) ==> Faults(l2, o3) == 0;
    assert o2[0] == Alloc(n + 1, w, h) && o2[1..] == o3;
    assert Apply(l1, o2) == l2 && Net(o2) == 1 && Peak(held + 1, o2) == held + 2;
    assert Held(live, src) && n + 1 !in live && n != n + 1 ==> Faults(l1, o2) == 0;
    assert o1[0] == Alloc(n, w, h) && o1[1..] == o2;
    assert Apply(live, o1) == l2 && Net(o1) == 2 && Peak(held, o1) == held + 2;
    assert ops[0] == SetLayer(false) && ops[1..] == o1;
  }

  lemma FinishLedger(live: set<nat>, held: int, n: nat, last: nat)
    ensures Apply(live, Finish(n, last)) == live - {last}
    ensures n in live && last in live ==> Disciplined(live, Finish(n, last))
    ensures Net(Finish(n, last)) == -1
    ensures Peak(held, Finish(n, last)) == held
  {
    var ops := Finish(n, last);
    var l1 := live - {last};
    var o1, o2, o3, o4 := ops[1..], ops[2..], ops[3..], ops[4..];
    assert o4 == [];
    assert o3[0] == Release(Some(Temp(last))) && o3[1..] == o4;
    assert Apply(live, o3) == l1 && Net(o3) == -1 && Peak(held, o3) == held;
    assert last in live ==> Faults(live, o3) == 0;
    assert o2[0] == SetLayer(true) && o2[1..] == o3;
    assert Apply(live, o2) == l1 && Net(o2) == -1 && Peak(held, o2) == held;
    assert o1[0] == SetMainTex(Temp(n)) && o1[1..] == o2;
    assert Apply(live, o1) == l1 && Net(o1) == -1 && Peak(held, o1) == held;
    assert n in live && last in live ==> Faults(live, o1) == 0;
    assert ops[0] == Blit(Temp(last), Temp(n), None) && ops[1..] == o1;
  }

  lemma PrefilterTally(src: Tex, n: nat, w: int, h: int)
    ensures ShaderPasses(Prefilter(src, n, w, h)) == [0]
    ensures PlainCopies(Prefilter(src, n, w, h)) == []
    ensures LayerSwitches(Prefilter(src, n, w, h)) == [false]
    ensures Bindings(Prefilter(src, n, w, h)) == []
    ensures Allocs(Prefilter(src, n, w, h)) == 2
    ensures Releases(Prefilter(src, n, w, h)) == 0
    ensures AllocSizes(Prefilter(src, n, w, h)) == {(w, h)}
  {
    var ops := Prefilter(src, n, w, h);
    var o1, o2, o3, o4 := ops[1..], ops[2..], ops[3..], ops[4..];
    assert o4 == [];
    assert PlainCopies(o4) == [] && Bindings(o4) == [];
    assert o3[0] == Blit(src, Temp(n + 1), Some(0)) && o3[1..] == o4;
    assert ShaderPasses(o3) == [0] && PlainCopies(o3) == [] && LayerSwitches(o3) == [] && Bindings(o3) == [];
    assert Allocs(o3) == 0 && Releases(o3) == 0 && AllocSizes(o3) == {};
    assert o2[0] == Alloc(n + 1, w, h) && o2[1..] == o3;
    assert ShaderPasses(o2) == [0] && PlainCopies(o2) == [] && LayerSwitches(o2) == [] && Bindings(o2) == [];
    assert Allocs(o2) == 1 && Releases(o2) == 0 && AllocSizes(o2) == {(w, h)};
    assert o1[0] == Alloc(n, w, h) && o1[1..] == o2;
    assert ShaderPasses(o1) == [0] && PlainCopies(o1) == [] && LayerSwitches(o1) == [] && Bindings(o1) == [];
    assert Allocs(o1) == 2 && Releases(o1) == 0 && AllocSizes(o1) == {(w, h)};
    assert ops[0] == SetLayer(false) && ops[1..] == o1;
  }

  lemma FinishTally(n: nat, last: nat)
    ensures ShaderPasses(Finish(n, last)) == []
    ensures PlainCopies(Finish(n, last)) == [(Temp(last), Temp(n))]
    ensures LayerSwitches(Finish(n, last)) == [true]
    ensures Bindings(Finish(n, last)) == [Temp(n)]
    ensures Allocs(Finish(n, last)) == 0
    ensures Releases(Finish(n, last)) == 1
    ensures AllocSizes(Finish(n, last)) == {}
  {
    var ops := Finish(n, last);
    var o1, o2, o3, o4 := ops[1..], ops[2..], ops[3..], ops[4..];
    assert o4 == [];
    assert PlainCopies(o4) == [] && Bindings(o4) == [] && ShaderPasses(o4) == [];
    assert o3[0] == Release(Some(Temp(last))) && o3[1..] == o4;
    assert ShaderPasses(o3) == [] && PlainCopies(o3) == [] && LayerSwitches(o3) == [] && Bindings(o3) == [];
    assert Allocs(o3) == 0 && Releases(o3) == 1 && AllocSizes(o3) == {};
    assert o2[0] == SetLayer(true) && o2[1..] == o3;
    assert ShaderPasses(o2) == [] && PlainCopies(o2) == [] && LayerSwitches(o2) == [true] && Bindings(o2) == [];
    assert Allocs(o2) == 0 && Releases(o2) == 1 && AllocSizes(o2) == {};
    assert o1[0] == SetMainTex(Temp(n)) && o1[1..] == o2;
    assert ShaderPasses(o1) == [] && PlainCopies(o1) == [] && LayerSwitches(o1) == [true] && Bindings(o1) == [Temp(n)];
    assert Allocs(o1) == 0 && Releases(o1) == 1 && AllocSizes(o1) == {};
    assert ops[0] == Blit(Temp(last), Temp(n), None) && ops[1..] == o1;
  }

  /**
   * Over the whole pass the pool hands out the destination n and keeps it:
   * every scratch texture is given back.
   */
  lemma RenderApply(live: set<nat>, src: Tex, n: nat, w: int, h: int, k: nat, offs: int)
    requires forall id | id in live :: id < n
    ensures Apply(live, RenderOps(src, n, w, h, k, offs)) == live + {n}
  {
    var pre, loop, fin := Prefilter(src, n, w, h), LoopOps(n + 1, k, w, h, offs), Finish(n, n + 1 + 2 * k);
    var l1 := live + {n} + {n + 1};
    PrefilterLedger(live, 0, src, n, w, h);
    LoopApply(l1, n + 1, k, n + 1 + 2 * k, w, h, offs);
    var l2 := l1 - {n + 1} + {n + 1 + 2 * k};
    FinishLedger(l2, 0, n, n + 1 + 2 * k);
    assert l2 - {n + 1 + 2 * k} == live + {n};
    ApplyAppend(live, pre, loop);
    ApplyAppend(live, pre + loop, fin);
  }

  /**
   * Every call of the pass is permitted when the source is held and the pool
   * has handed out no handle at or above n.
   */
  lemma RenderDisciplined(live: set<nat>, src: Tex, n: nat, w: int, h: int, k: nat, offs: int)
    requires forall id | id in live :: id < n
    requires Held(live, src)
    ensures Disciplined(live, RenderOps(src, n, w, h, k, offs))
  {
    var pre, loop, fin := Prefilter(src, n, w, h), LoopOps(n + 1, k, w, h, offs), Finish(n, n + 1 + 2 * k);
    var l1 := live + {n} + {n + 1};
    PrefilterLedger(live, 0, src, n, w, h);
    LoopApply(l1, n + 1, k, n + 1 + 2 * k, w, h, offs);
    LoopDisciplined(l1, n + 1, k, w, h, offs);
    var l2 := l1 - {n + 1} + {n + 1 + 2 * k};
    FinishLedger(l2, 0, n, n + 1 + 2 * k);
    ApplyAppend(live, pre, loop);
    FaultsAppend(live, pre, loop);
    FaultsAppend(live, pre + loop, fin);
  }

  /**
   * Ping-pong: besides what was held before, the pass holds at most the
   * destination and two scratch textures at once (only the destination and
   * one scratch when the loop does not run), and keeps one.
   */
  lemma RenderPeak(held: int, src: Tex, n: nat, w: int, h: int, k: nat, offs: int)
    ensures Peak(held, RenderOps(src, n, w, h, k, offs)) == if k == 0 then held + 2 else held + 3
  {
    var pre, loop, fin := Prefilter(src, n, w, h), LoopOps(n + 1, k, w, h, offs), Finish(n, n + 1 + 2 * k);
    PrefilterLedger({}, held, src, n, w, h);
    LoopPeak(held + 2, n + 1, k, w, h, offs);
    LoopCounts(n + 1, k, w, h, offs);
    FinishLedger({}, held + 2, n, n + 1 + 2 * k);
    PeakOfThree(held, pre, loop, fin);
  }

  /** The pass's shader blits are pass 0 followed by k pairs (1 + offs, 2 + offs). */
  lemma RenderPasses(src: Tex, n: nat, w: int, h: int, k: nat, offs: int)
    ensures |ShaderPasses(RenderOps(src, n, w, h, k, offs))| == 1 + 2 * k
    ensures ShaderPasses(RenderOps(src, n, w, h, k, offs))[0] == 0
    ensures forall j | 1 <= j < 1 + 2 * k ::
      ShaderPasses(RenderOps(src, n, w, h, k, offs))[j] == if j % 2 == 1 then 1 + offs else 2 + offs
  {
    var pre, loop, fin := Prefilter(src, n, w, h), LoopOps(n + 1, k, w, h, offs), Finish(n, n + 1 + 2 * k);
    PrefilterTally(src, n, w, h);
    LoopPasses(n + 1, k, w, h, offs);
    FinishTally(n, n + 1 + 2 * k);
    TallyOfThree(pre, loop, fin);
    var p := ShaderPasses(RenderOps(src, n, w, h, k, offs));
    var q := ShaderPasses(loop);
    assert p == [0] + q;
    forall j | 1 <= j < 1 + 2 * k
      ensures p[j] == if j % 2 == 1 then 1 + offs else 2 + offs
    {
      assert p[j] == q[j - 1];
      assert (j - 1) % 2 == 0 <==> j % 2 == 1;
    }
  }

  /**
   * The pass's one plain copy goes from the last scratch into the
   * destination, which is then bound; the layer is hidden first and shown last.
   */
  lemma RenderViews(src: Tex, n: nat, w: int, h: int, k: nat, offs: int)
    ensures PlainCopies(RenderOps(src, n, w, h, k, offs)) == [(Temp(n + 1 + 2 * k), Temp(n))]
    ensures LayerSwitches(RenderOps(src, n, w, h, k, offs)) == [false, true]
    ensures Bindings(RenderOps(src, n, w, h, k, offs)) == [Temp(n)]
  {
    var pre, loop, fin := Prefilter(src, n, w, h), LoopOps(n + 1, k, w, h, offs), Finish(n, n + 1 + 2 * k);
    PrefilterTally(src, n, w, h);
    LoopPasses(n + 1, k, w, h, offs);
    FinishTally(n, n + 1 + 2 * k);
    TallyOfThree(pre, loop, fin);
  }

  lemma PrefilterBlits(src: Tex, n: nat, w: int, h: int)
    ensures Blits(Prefilter(src, n, w, h)) == [(src, Temp(n + 1), Some(0))]
  {
    var ops := Prefilter(src, n, w, h);
    var o1, o2, o3, o4 := ops[1..], ops[2..], ops[3..], ops[4..];
    assert o4 == [];
    assert o3[0] == Blit(src, Temp(n + 1), Some(0)) && o3[1..] == o4;
    assert Blits(o3) == [(src, Temp(n + 1), Some(0))];
    assert o2[0] == Alloc(n + 1, w, h) && o2[1..] == o3;
    assert Blits(o2) == Blits(o3);
    assert o1[0] == Alloc(n, w, h) && o1[1..] == o2;
    assert Blits(o1) == Blits(o3);
    assert ops[0] == SetLayer(false) && ops[1..] == o1;
  }

  lemma FinishBlits(n: nat, last: nat)
    ensures Blits(Finish(n, last)) == [(Temp(last), Temp(n), None)]
  {
    var ops := Finish(n, last);
    var o1, o2, o3, o4 := ops[1..], ops[2..], ops[3..], ops[4..];
    assert o4 == [];
    assert o3[0] == Release(Some(Temp(last))) && o3[1..] == o4;
    assert Blits(o3) == [];
    assert o2[0] == SetLayer(true) && o2[1..] == o3;
    assert Blits(o2) == [];
    assert o1[0] == SetMainTex(Temp(n)) && o1[1..] == o2;
    assert Blits(o1) == [];
    assert ops[0] == Blit(Temp(last), Temp(n), None) && ops[1..] == o1;
  }

  /**
   * Every blit of the pass, in order: the source is prefiltered into the
   * first scratch n + 1 with pass 0; blit j (1 <= j <= 2k) reads scratch
   * n + j and writes n + j + 1; and the last blit, the only one without a
   * shader, copies the last scratch n + 1 + 2k into the destination n.
   */
  lemma RenderBlits(src: Tex, n: nat, w: int, h: int, k: nat, offs: int)
    ensures var b := Blits(RenderOps(src, n, w, h, k, offs));
      && |b| == 2 + 2 * k
      && b[0] == (src, Temp(n + 1), Some(0))
      && (forall j | 1 <= j <= 2 * k ::
            b[j] == (Temp(n + j), Temp(n + j + 1), Some(if j % 2 == 1 then 1 + offs else 2 + offs)))
      && b[1 + 2 * k] == (Temp(n + 1 + 2 * k), Temp(n), None)
  {
    var pre, loop, fin := Prefilter(src, n, w, h), LoopOps(n + 1, k, w, h, offs), Finish(n, n + 1 + 2 * k);
    PrefilterBlits(src, n, w, h);
    LoopBlits(n + 1, k, w, h, offs);
    FinishBlits(n, n + 1 + 2 * k);
    BlitsAppend(pre, loop);
    BlitsAppend(pre + loop, fin);
    var b := Blits(RenderOps(src, n, w, h, k, offs));
    var q := Blits(loop);
    assert b == [(src, Temp(n + 1), Some(0))] + q + [(Temp(n + 1 + 2 * k), Temp(n), None)];
    forall j | 1 <= j <= 2 * k
      ensures b[j] == (Temp(n + j), Temp(n + j + 1), Some(if j % 2 == 1 then 1 + offs else 2 + offs))
    {
      assert b[j] == q[j - 1];
      assert (j - 1) % 2 == 0 <==> j % 2 == 1;
    }
  }

  /** The pass allocates 2 + 2k textures, all of the working size, and releases 1 + 2k. */
  lemma RenderCounts(src: Tex, n: nat, w: int, h: int, k: nat, offs: int)
    ensures Allocs(RenderOps(src, n, w, h, k, offs)) == 2 + 2 * k
    ensures Releases(RenderOps(src, n, w, h, k, offs)) == 1 + 2 * k
    ensures AllocSizes(RenderOps(src, n, w, h, k, offs)) == {(w, h)}
    ensures Net(RenderOps(src, n, w, h, k, offs)) == 1
  {
    var pre, loop, fin := Prefilter(src, n, w, h), LoopOps(n + 1, k, w, h, offs), Finish(n, n + 1 + 2 * k);
    PrefilterLedger({}, 0, src, n, w, h);
    FinishLedger({}, 0, n, n + 1 + 2 * k);
    PrefilterTally(src, n, w, h);
    LoopCounts(n + 1, k, w, h, offs);
    FinishTally(n, n + 1 + 2 * k);
    CountOfThree(pre, loop, fin);
  }
}
