# GameEngine core: transform stack, fixed-interval timer, ownership flag

A Dafny model of three small stateful parts of a C++ 2D engine built on SDL and glm:

- **The transform stack** (`MatrixStack`, module `MatrixStacks`). A stack of 4×4 matrices that starts
  with one identity entry. `Push` duplicates the top. `Pop` removes it. `Reset` starts again from one
  identity. `Translate`, `Rotate` and `Scale` replace the top with `E * top`, where `E` is the
  elementary transform. The class keeps the entries in a `seq<Mat4>`, bottom first and top last.
  Matrices (module `Transforms`) are column-major sequences of 16 exact reals, as glm stores a
  `mat4`. The translation has the engine's z offset of 1 (`vec3(where, 1.0f)`). `Rotate` takes the
  cosine and sine of its angle as parameters.
- **The fixed-interval timer** (`Timer`, module `Timers`). `Tick(now)` fires when strictly more than
  the interval has passed since the last firing. When it fires, the next interval starts at `now`.
  The clock reading is a parameter.
- **The engine's ownership of the platform** (`Engine`, module `Engines`). The `active` flag decides
  whether the destructor calls `SDL_Quit`, and the move constructor and move assignment hand the flag
  over. Ghost counters in a `Platform` object record the `SDL_Init` and `SDL_Quit` calls. A
  world-of-engines model (`World`, `Event`) proves that the platform is never shut down more often
  than it was initialised.

Every class method is proved against a specification. For the stack, each method states its whole new
state and equals one `Step` of the run model (`StackOp`, `Step`, `Run`). The lemmas about `Run` give
the push/pop frame discipline. For the timer, `Tick` agrees with `Fires`, the condition that
`FireTimes` uses for runs of ticks. For the engine, `MoveAssign` agrees with `MoveAssignment`, which
`Next` uses for the world model.

Three behaviours of the code that a reader might not expect, each proved:

- **Frame of a new transform.** `Translate`, `Rotate` and `Scale` set the top to `E * top`. The
  model assumes the drawing calls apply the top to a point as `top * p` (glm's `mat4 * vec4`); their
  code is not part of this model, and `Transforms.Image` states this assumption. Under it, `E * top`
  applies the new transform after the earlier ones, in device coordinates. After a quarter turn, a
  translation by (1, 0) draws the origin at (1, 0), not at (0, 1)
  (`Transforms.LatestTransformActsLast`).
- **Timer threshold.** `Tick` compares strictly, so a tick exactly one interval after the last
  firing does not fire (`Timers.QuietWithinInterval`).
- **Popping the base entry.** `Pop` is unguarded. The model allows `Pop` on any non-empty stack, and
  popping the last entry leaves the stack empty. Only an empty stack is excluded, because
  `std::stack::pop` is undefined there.

## Model

| member | source | states |
|---|---|---|
| `Transforms.IdentityAt` | src/MatrixStack.cpp:5 | `glm::mat4(1.0f)` has ones on the diagonal and zeros everywhere else |
| `Transforms.Mul` | src/MatrixStack.cpp:22-23 | glm's `mat4 * mat4`: entry (r, c) of the product, stored column-major at index r + 4c, is row r of the left factor times column c of the right one |
| `Transforms.Translation` | src/MatrixStack.cpp:22 | `glm::translate(mat4(1.0f), vec3(v, 1.0f))` in column-major layout: the identity with column 3 equal to (v.x, v.y, 1, 1), so a planar transform with z offset 1 |
| `Transforms.Rotation` | src/MatrixStack.cpp:28 | `glm::rotate(mat4(1.0f), theta, vec3(0, 0, 1))` with c = cos theta, s = sin theta: column 0 is (c, s, 0, 0), column 1 is (−s, c, 0, 0), the rest is the identity |
| `Transforms.Scaling` | src/MatrixStack.cpp:34 | `glm::scale(mat4(1.0f), vec3(v, 1.0f))`: diag(v.x, v.y, 1, 1), a planar transform with no z offset |
| `Transforms.MulIdentity` | src/MatrixStack.cpp:5 | the identity `glm::mat4(1.0f)` is neutral on both sides of the matrix product |
| `Transforms.ApplyIdentity` | src/MatrixStack.cpp:5 | the identity draws every point where it is |
| `Transforms.ApplyMul` | src/MatrixStack.cpp:22-23 | drawing through `E * top` moves a point by `top` first and then by `E` |
| `Transforms.ElementaryPlanar` | src/MatrixStack.cpp:20-35 | the identity and the translate, rotate and scale matrices are transforms of the drawing plane (no x/y–z mixing, last row (0, 0, 0, 1)) |
| `Transforms.MulPlanar` | src/MatrixStack.cpp:20-35 | the product of two planar transforms is planar |
| `Transforms.ImageIgnoresDepth` | src/MatrixStack.cpp:22 | under a planar transform the z of a point does not affect where its x and y land, so the z offset of 1 never shows in the plane |
| `Transforms.TranslationShiftsImage` | src/MatrixStack.cpp:20-24 | after `Translate(v)` every point is drawn exactly v further on than before |
| `Transforms.ScalingScalesImage` | src/MatrixStack.cpp:31-35 | after `Scale(v)` every image is scaled by v.x and v.y about the device origin |
| `Transforms.RotationRotatesImage` | src/MatrixStack.cpp:25-30 | after `Rotate` every image is rotated by (c, s) about the device origin |
| `Transforms.RotationKeepsDistance` | src/MatrixStack.cpp:25-30 | for a true angle (c² + s² = 1) the rotation keeps every point's distance from the origin |
| `Transforms.TranslationLiftsDepth` | src/MatrixStack.cpp:22 | every translation adds exactly 1 to the z offset of the top, whatever the vector |
| `Transforms.TranslationsDoNotCompose` | src/MatrixStack.cpp:20-24 | two translations are not the translation by their sum, because the z offset becomes 2, yet they draw the origin at the sum |
| `Transforms.LatestTransformActsLast` | src/MatrixStack.cpp:20-30 | after any rotation, a translation by v draws the origin at v (device frame), while the rotated-frame reading would put it elsewhere (a quarter turn takes (1, 0) to (0, 1)) |
| `MatrixStacks.StepDepth` | src/MatrixStack.cpp:7-35 | each call changes the depth by its `NextDepth`: Reset to 1, Push +1, Pop −1, the transforms 0 |
| `MatrixStacks.StepKeepsBelow` | src/MatrixStack.cpp:12-35 | a call other than Reset that keeps the depth at or above a floor leaves every entry below the floor unchanged |
| `MatrixStacks.FramesBelowUntouched` | src/MatrixStack.cpp:12-35 | any run of calls without Reset that stays at or above a floor can be made, ends at its final depth, and leaves every entry below the floor unchanged |
| `MatrixStacks.BalancedFrameRestores` | src/MatrixStack.cpp:12-19 | Push, then any calls that stay in the pushed frame and return to its depth, then Pop restores the stack exactly, top included |
| `MatrixStacks.RunAppend` | src/MatrixStack.cpp:7-35 | running two lists of calls one after the other is running their concatenation |
| `MatrixStacks.StepPlanar` | src/MatrixStack.cpp:3-35 | every call keeps every entry a planar transform |
| `MatrixStacks.MatrixStack.constructor` | src/MatrixStack.cpp:3-6 | a new stack holds exactly one entry, the identity |
| `MatrixStacks.MatrixStack.Reset` | src/MatrixStack.cpp:7-11 | whatever the prior depth and contents, the stack becomes the single identity |
| `MatrixStacks.MatrixStack.Push` | src/MatrixStack.cpp:12-15 | depth grows by one, the new top equals the old top, every entry below is unchanged |
| `MatrixStacks.MatrixStack.Pop` | src/MatrixStack.cpp:16-19 | on a non-empty stack, depth shrinks by one and the remaining entries are unchanged |
| `MatrixStacks.MatrixStack.Translate` | src/MatrixStack.cpp:20-24 | the top becomes `T(v) * top` with column 3 of T(v) equal to (v.x, v.y, 1, 1); depth and lower entries are unchanged |
| `MatrixStacks.MatrixStack.Rotate` | src/MatrixStack.cpp:25-30 | the top becomes `R(c, s) * top`, the rotation about z; depth and lower entries are unchanged |
| `MatrixStacks.MatrixStack.Scale` | src/MatrixStack.cpp:31-35 | the top becomes `diag(v.x, v.y, 1, 1) * top`; depth and lower entries are unchanged |
| `MatrixStacks.MatrixStack.Top` | src/MatrixStack.cpp:36-39 | returns the most recently pushed entry, the last of the sequence, and it is a planar transform, so the `Transforms` image lemmas apply to what the drawing calls read |
| `Timers.Timer.constructor` | src/Timer.cpp:4-8 | the interval is the argument and the last tick is the construction time |
| `Timers.Timer.Tick` | src/Timer.cpp:9-20 | returns true iff `now - lastTick > interval` (strict); on true the last tick becomes exactly `now`, on false nothing changes; the interval never changes |
| `Timers.TickTwiceAtSameInstant` | src/Timer.cpp:12-16 | with a non-negative interval, two `Tick` calls at the same instant never both fire, and after a firing the last tick is that instant |
| `Timers.TickAll` | src/Timer.cpp:9-20 | calling `Tick` at each sample time in turn fires exactly at `FireTimes` and leaves the last tick at `LastTickAfter`, so the run lemmas below are about the class |
| `Timers.FiringsSpaced` | src/Timer.cpp:9-20 | over any run of ticks, the first firing is more than one interval after the start, each later firing more than one interval after the previous one, and every firing is a sample time |
| `Timers.LastTickIsLastFiring` | src/Timer.cpp:15-16 | after any run the last tick is the time of the last firing (or the start): the overrun is never carried |
| `Timers.QuietWithinInterval` | src/Timer.cpp:13 | no tick at most one interval after the start fires, including one exactly one interval after it |
| `Engines.MoveAssignment` | src/Engine.cpp:22-38 | between distinct engines: an active target releases once, becomes inactive and the source keeps its flag; an inactive target releases nothing, takes the source's flag and the source ends inactive; owners plus releases are conserved |
| `Engines.MoveConstruction` | src/Engine.cpp:17-20 | the new engine takes the source's flag, the source ends inactive, and the number of owners is unchanged |
| `Engines.Destruction` | src/Engine.cpp:9-15 | the destructor releases at most once, and once exactly when the engine is active |
| `Engines.Engine.constructor` | src/Engine.cpp:4-7 | a constructed engine is active and the platform is initialised once more |
| `Engines.Engine.Move` | src/Engine.cpp:17-20 | the flags of the new engine and the source change as `MoveConstruction` says: the new engine takes the source's flag and the source becomes inactive |
| `Engines.Engine.Destroy` | src/Engine.cpp:9-15 | the destructor shuts the platform down as `Destruction` says: once if and only if the engine is active |
| `Engines.Engine.MoveAssign` | src/Engine.cpp:22-38 | self-assignment changes nothing and releases nothing; an active target releases once and becomes inactive without taking the source's flag; an inactive target takes the source's flag and the source becomes inactive |
| `Engines.OwnersUpdate` | src/Engine.cpp:4-38 | changing one engine's slot changes the number of owners by exactly the difference |
| `Engines.OwnershipConserved` | src/Engine.cpp:4-38 | construction, both moves and destruction keep `inits == owners + quits` |
| `Engines.MovesNeverAddOwners` | src/Engine.cpp:17-38 | no move operation increases the number of active engines |
| `Engines.NoDoubleRelease` | src/Engine.cpp:4-38 | over any sequence of engine lifetime events, every unmatched initialisation has an active owner and the platform is never shut down more often than it was initialised |

## Left out

- `Engine::Loop`, `Engine::HandleEvent` and `Engine::Clear` (src/Engine.cpp:40-70): event polling, clearing and presenting are platform I/O with no logic to check.
- The drawing primitives, `Random`, `Map`, `SetInterval`, `WindowWidth`/`WindowHeight`, the `ResetMatrix`/`PushMatrix`/`PopMatrix` wrappers and the uniform `Scale(float)` overload: they are declared in include/GameEngine/Engine.hpp but their definitions are not part of this model.
- The window, renderer, random engine and size fields of `Engine`, and the title/width/height constructor the headers declare: only the `active` flag and the `SDL_Init`/`SDL_Quit` calls are modelled. Failures of `SDL_Init` are ignored by the code and are not modelled.
- The trigonometry of `glm::rotate`: `Rotate` takes the cosine and sine of the angle.
- 32-bit float rounding of `glm::mat4` entries and of `duration<float>`: entries and times are exact reals.
- `high_resolution_clock::now()`: the clock reading is the `now` parameter of the constructor and of `Tick`.
- src/Error.cpp and src/Error.hpp: a thin wrapper over `std::runtime_error`, not used by the modelled operations.
- MatrixStacks.MatrixStack.Top: returns a copy of the top, not a mutable reference, so writes through the returned `glm::mat4&` are not modelled.
- Engines.Engine.Destroy: the engine object is not marked as gone after its destructor runs. The world model (`Slot.Destroyed`) covers use after destruction.
- The platform counters record how often `SDL_Init` and `SDL_Quit` were called, not whether the platform is still up: `SDL_Quit` shuts every subsystem down whatever the number of earlier `SDL_Init` calls, so after one active engine's shutdown another active engine may hold a platform that is already down. The model does not capture this.
