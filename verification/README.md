# UIBlur, modelled in Dafny

A model of `SimpleUIBlur.UIBlur`, a Unity component that blurs the screen behind
a UI layer. In **Static** mode a coroutine copies one screenshot and blurs it
once. In **Dynamic** mode the component sits on a camera and blurs every frame
inside `OnRenderImage`. The blur pass itself is `RenderImage`:

- downsample the source into a scratch render texture (shader pass 0);
- ping-pong between scratch textures for `blurIterations` rounds of a vertical
  and a horizontal pass (passes 1/2 for Standard Gauss, 3/4 for Sgx Gauss);
- copy the last scratch into a destination texture, bind it as the material's
  `_MainTex` and show the display layer.

The engine is not modelled as a GPU. Every engine call is an `Op` in a trace:

| `Op` | engine call |
|---|---|
| `Alloc` | `GetTemporary` |
| `Blit` | `Graphics.Blit`, with or without a shader pass |
| `Release` | `ReleaseTemporary`, possibly of null |
| `SetMainTex` | `SetTexture` |
| `SetLayer` | `blurLayer.enabled` |

Each call of the component (`EnableBlur`, the capture coroutine, `DisableBlur`,
`OnRenderImage`) is a pure function from the component's state to the next
state and the trace it made. The `Ledger` module replays a trace over the
`Engine`:

- the set of temporaries held from the pool;
- whether the layer is shown;
- what is bound to the material.

`Faults` counts the calls that misuse the pool, such as releasing null or
releasing a texture already given back. `Peak` measures the most temporaries
held at once.

Files:

- `wrappers.dfy`: `Option`, standing in for null references.
- `ledger.dfy`: the trace vocabulary, its replay, and how its measures compose.
- `blur_render.dfy`: the working resolution, pass selection and the trace of one blur pass.
- `ui_blur.dfy`: the component's state and its four entry points.
- `lifecycle.dfy`: what each call does to the pool, and whole enable/disable sessions.

The model shows these behaviours of the code as written, stated as lemmas
rather than ruled out:

- **Dynamic mode leaks one destination texture per frame.** `OnRenderImage`
  allocates a new destination without releasing the previous one (lines
  143-144; `FrameLeaksDestination`). A Dynamic session of n frames ends with
  n − 1 more temporaries held than it started with (`DynamicSessionLeaks`).
- **A second `DisableBlur` releases again.** `DisableBlur` never clears
  `destination`, and in Static mode it keeps `source` too; only the Dynamic
  branch sets `source = null` (line 133). So a second call releases the
  destination again in either mode, and in Static mode the source again
  (lines 128 and 135; `DoubleDisable`).
- **A Static `DisableBlur` before the capture runs releases whatever `source`
  still holds** (line 128). That release is permitted exactly when `source`
  is a temporary still held (`StaticCancelReleasesSource`). The cases are:
  - null on a fresh component (`FreshStaticCancel`);
  - a texture already given back at the end of an earlier Static session;
  - the camera's own frame, after a Dynamic frame and a switch to Static
    (`StaticCancelReleasesFrame`);
  - the previous capture's screenshot copy, still held, when Static is enabled
    again after a capture; that release is permitted (`StaticCancelReleasesCapture`).

Other facts about the code that the lemmas state:

- **No lower bound on the working size.** `width >> downsample` (line 59) has
  no lower bound, so a source narrower than 2^downsample gets width 0, and the
  same holds for the height (line 60; `RenderImageResolution`).
- **Scratch releases follow the next allocation.** Each loop half allocates the
  next scratch (lines 76 and 83) before it releases the current one (lines 79
  and 86), so two scratch textures are briefly held together, three
  temporaries with the destination (`RenderPeak`).
- **The blits form one chain.** The source is prefiltered into the first
  scratch (line 66), each loop blit reads what the one before wrote (lines 78
  and 85), and the last blit, the only one without a shader, copies the last
  scratch into the destination (line 90; `RenderBlits`, `RenderImageChain`).

All line references are to `Assets/UIBlur/Script/UIBlur.cs`.

## Model

| member | source | states |
|---|---|---|
| BlurRender.ShiftRight | Assets/UIBlur/Script/UIBlur.cs:59-60 | C# `x >> n` on an int: the count is taken mod 32, and the result is the largest r with r·2^(n mod 32) ≤ x (arithmetic shift, rounding toward −∞); non-negative inputs shift to values between 0 and x, and to 0 below 2^(n mod 32) |
| UIBlur.WorkingSize | Assets/UIBlur/Script/UIBlur.cs:59-60 | rtW and rtH are the source's width and height divided by 2^downsample, rounded down, with no lower bound |
| Lifecycle.RenderImageResolution | Assets/UIBlur/Script/UIBlur.cs:59-83 | every texture RenderImage allocates (destination and all scratch textures) has the working size; a source narrower or lower than 2^downsample gives a working size of 0 in that dimension |
| BlurRender.LoopPasses | Assets/UIBlur/Script/UIBlur.cs:70-88 | k loop iterations make 2k shader blits whose passes alternate 1 + offset, 2 + offset (vertical, then horizontal), and no plain copy, layer switch or binding |
| BlurRender.LoopCounts | Assets/UIBlur/Script/UIBlur.cs:70-88 | k iterations allocate 2k scratch textures of the working size and release 2k, a net change of zero |
| BlurRender.LoopPeak | Assets/UIBlur/Script/UIBlur.cs:76-86 | ping-pong: while the loop runs at most one scratch is held beyond the current one |
| BlurRender.LoopApply | Assets/UIBlur/Script/UIBlur.cs:76-87 | the loop swaps the held scratch rt for the last one, rt + 2k, and leaves every other held temporary alone |
| BlurRender.LoopDisciplined | Assets/UIBlur/Script/UIBlur.cs:76-87 | every loop call is permitted: each blit reads a held scratch and writes a freshly allocated one, and each release gives back a held scratch |
| BlurRender.RenderApply | Assets/UIBlur/Script/UIBlur.cs:61-93 | over a whole pass, the pool gains exactly the destination; every scratch is returned, including the last one |
| BlurRender.RenderDisciplined | Assets/UIBlur/Script/UIBlur.cs:61-93 | every call of a pass is permitted when its source is held |
| BlurRender.RenderPeak | Assets/UIBlur/Script/UIBlur.cs:61-93 | at most the destination and two scratch textures are held at once beyond what was held before (destination and one scratch when the loop does not run) |
| BlurRender.RenderPasses | Assets/UIBlur/Script/UIBlur.cs:66-85 | the pass's shader blits are pass 0 followed by k pairs (1 + offset, 2 + offset) |
| BlurRender.RenderViews | Assets/UIBlur/Script/UIBlur.cs:53-92 | the layer is switched off and then on, the only plain copy goes from the last scratch into the destination, and the destination is the texture bound |
| BlurRender.RenderCounts | Assets/UIBlur/Script/UIBlur.cs:61-93 | a pass allocates 2 + 2k textures, all of the working size, and releases 1 + 2k, a net gain of one |
| Ledger.PeakBounds | Assets/UIBlur/Script/UIBlur.cs:61-93 | the peak count bounds the number of temporaries held after every prefix of a permitted trace |
| UIBlur.RenderImage | Assets/UIBlur/Script/UIBlur.cs:51-94 | when the source is held and no handle at or above the next one has been given out, the pass leaves exactly the new destination held beyond what was held before, and every call of its trace is permitted; the new destination is the next handle of the pool |
| Lifecycle.RenderImagePasses | Assets/UIBlur/Script/UIBlur.cs:66-85 | pass 0 first, then 1/2 per iteration for Standard Gauss and 3/4 for Sgx Gauss, 1 + 2·max(0, blurIterations) shader blits in all |
| BlurRender.RenderBlits | Assets/UIBlur/Script/UIBlur.cs:66-90 | the pass's blits in order: source into scratch n + 1 with pass 0; blit j reads scratch n + j and writes n + j + 1 with passes alternating 1 + offset, 2 + offset; last, a plain copy of scratch n + 1 + 2k into the destination n |
| Lifecycle.RenderImageChain | Assets/UIBlur/Script/UIBlur.cs:66-90 | 2 + 2k blits; the first reads the source, each later one reads what the one before wrote, all but the last use a shader, and the last is the plain copy into the new destination |
| Lifecycle.RenderImageShows | Assets/UIBlur/Script/UIBlur.cs:53-92 | the layer is hidden first and shown at the end, with the destination bound to the material and written by one plain copy of the last scratch |
| Lifecycle.RenderImageLedger | Assets/UIBlur/Script/UIBlur.cs:51-94 | with the source held, the pass keeps exactly one new temporary (the destination), every call is permitted, at most three more are held at any point, and the component invariant holds afterwards |
| UIBlur.EnableBlur | Assets/UIBlur/Script/UIBlur.cs:96-111 | the type is stored in every case, even when the call throws; it throws exactly for Dynamic without a camera; Static queues one capture; Dynamic with a camera schedules per-frame blurring; nothing else changes |
| UIBlur.ScreenCaptureCoroutine | Assets/UIBlur/Script/UIBlur.cs:113-121 | one queued capture is used up; the screenshot copy becomes the source and the next handle the destination; the engine after the call is the replay of the whole trace (screenshot copy then blur) |
| Lifecycle.CaptureLedger | Assets/UIBlur/Script/UIBlur.cs:113-121 | a capture keeps two new temporaries (source and destination) with every call permitted, and keeps the invariant |
| Lifecycle.CaptureViews | Assets/UIBlur/Script/UIBlur.cs:116-120 | the screenshot is copied in at the screen's size, then blurred at the working size into the destination that is bound and shown |
| UIBlur.DisableBlur | Assets/UIBlur/Script/UIBlur.cs:123-137 | Static cancels every queued capture and keeps the source reference; Dynamic unschedules and forgets the source; the destination reference is kept either way |
| Lifecycle.DisableLedger | Assets/UIBlur/Script/UIBlur.cs:123-137 | Disable gives back the source (Static only) and the destination, hides the layer, and counts one fault per release that does not hit a held temporary |
| Lifecycle.InitValid | Assets/UIBlur/Script/UIBlur.cs:45-49 | a freshly loaded component (no textures, nothing scheduled) satisfies the component invariant |
| Lifecycle.EnableValid | Assets/UIBlur/Script/UIBlur.cs:96-111 | EnableBlur keeps the component invariant, whether it returns or throws |
| Lifecycle.DisableValid | Assets/UIBlur/Script/UIBlur.cs:123-137 | DisableBlur keeps the component invariant |
| UIBlur.OnRenderImage | Assets/UIBlur/Script/UIBlur.cs:139-147 | every frame ends with a plain copy of src into dest; an unscheduled frame does nothing else; a scheduled one makes the frame the source and blurs it into the next handle |
| Lifecycle.FrameLedger | Assets/UIBlur/Script/UIBlur.cs:139-147 | a scheduled frame keeps one new temporary, an unscheduled one none; every call is permitted; the last plain copy passes the frame on |
| Lifecycle.FrameLeaksDestination | Assets/UIBlur/Script/UIBlur.cs:139-147 | a scheduled frame leaves the previous destination held with no field referring to it, and the held count grows by one |
| Lifecycle.FramesLedger | Assets/UIBlur/Script/UIBlur.cs:139-147 | over n scheduled frames the held temporaries grow by exactly n, and the last destination is held |
| Lifecycle.FramesDisciplined | Assets/UIBlur/Script/UIBlur.cs:139-147 | every call over n scheduled frames is permitted, so the growth is a leak, not a misuse |
| Lifecycle.DynamicSessionLeaks | Assets/UIBlur/Script/UIBlur.cs:96-147 | a Dynamic session of n ≥ 1 frames ends with n − 1 more temporaries held than it started with, though every call was permitted |
| Lifecycle.DoubleDisable | Assets/UIBlur/Script/UIBlur.cs:123-137 | a second DisableBlur releases the destination again, and in Static mode the source too: one fault in Dynamic mode, two in Static |
| Lifecycle.StaticCancelReleasesSource | Assets/UIBlur/Script/UIBlur.cs:123-129 | a Static disable before the capture runs cancels it and releases `source`; that release is permitted exactly when source is a temporary still held |
| Lifecycle.StaticCancelReleasesFrame | Assets/UIBlur/Script/UIBlur.cs:96-143 | after a Dynamic frame, EnableBlur(Static) then DisableBlur releases the camera's frame, a release that is not permitted |
| Lifecycle.StaticCancelReleasesCapture | Assets/UIBlur/Script/UIBlur.cs:96-136 | after a capture, EnableBlur(Static) then DisableBlur releases the previous capture's source and destination, both still held, so both releases are permitted |
| Lifecycle.FreshStaticCancel | Assets/UIBlur/Script/UIBlur.cs:123-136 | on a fresh component, EnableBlur(Static) followed at once by DisableBlur releases null twice |
| Lifecycle.StaticSessionBalanced | Assets/UIBlur/Script/UIBlur.cs:96-137 | Static enable, capture, disable gives back everything it took, with every call permitted, and leaves the layer hidden |
| Lifecycle.ModeSwitchKeepsFrameBlur | Assets/UIBlur/Script/UIBlur.cs:96-147 | Dynamic then Static then Disable leaves per-frame blurring scheduled, so the next frame still allocates a new destination |
| Lifecycle.FailedDynamicForgetsSource | Assets/UIBlur/Script/UIBlur.cs:96-134 | a throwing EnableBlur(Dynamic) still switches the type, so the following DisableBlur forgets a held source without releasing it |
| Lifecycle.CaptureTwiceLeaks | Assets/UIBlur/Script/UIBlur.cs:101-121 | two queued captures both run; the second overwrites the first's source and destination, which stay held with nothing referring to them |

## Left out

- The float uniforms (`blurSize`, `widthMod`, `_Parameter`, `iterationOffs`, lines 29-30, 54-56 and 72-73) are not modelled. They change pixels, not the call structure.
- Filter modes, texture formats and depth buffers (lines 57, 65, 77, 84) are not modelled, because they do not affect which textures are allocated or released.
- Pixel contents and the shader passes' effects are left out. A blit is a call with a source, a target and a pass index.
- The screenshot (lines 116-119) is the single texture `Screenshot`; `DestroyImmediate` is not modelled, because the screenshot is not a pool texture.
- `WaitForEndOfFrame` (line 115): a queued capture runs when `ScreenCaptureCoroutine` is applied. Queued captures are a count, and `StopAllCoroutines` sets it to zero.
- `GetComponent<Camera>()` (line 105) is the boolean parameter `hasCamera`.
- Screen and frame sizes are parameters. Camera frames are `Frame` textures named by the caller.
- `Frames` passes every frame with the same src/dest names. The names do not affect the pool.
- A null `blurMaterial` or `blurLayer` (a NullReferenceException in the engine) is not modelled; both are assumed set in the editor.
- UIBlur.RenderImage: requires `source` to be set. The code dereferences it unconditionally, and both callers assign it just before the call.
- The editor-only `[Range]` attributes (lines 11 and 33) are not enforced. `downsample` and `blurIterations` are arbitrary ints, and a negative iteration count runs the loop zero times.
- Every `GetTemporary` call is assumed to succeed, at any size, a width or height of 0 included. The engine's own checks on the requested size are not modelled, so the model does not say what happens after line 61 when the working size is 0.
- The pool reusing a released texture for a later request is not modelled. Every acquisition gets a handle of its own, so "released twice" means released after it was already given back.
- `ReleaseTemporary(null)` and releases of textures not held count as faults. The model does not say whether the engine ignores them or throws.
- `UIBlurDemo.cs` (the demo buttons) is not part of this model.
