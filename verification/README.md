# Fixed-timestep frame loop of the Campari test demo, in Dafny

This project models the core of `TestGame`, a small real-time rendering demo
that draws a full-screen shader effect each frame. Three parts are modelled:

- **The frame loop** (`TestGame.Run` and `Update`) is module `Scheduler`.
  Each outer iteration does five things:
  - it polls events, and a quit event sets `quit`;
  - it turns the elapsed performance-counter ticks into seconds;
  - it clamps that frame time to 0.25 s and adds it to an accumulator;
  - it drains the accumulator in fixed steps of `dt = 0.01` s;
  - it draws once, but only if a step was due and quit was not requested.

  The loop state is the immutable record `Clock`. The outer iteration is the
  pure function `Step`, and the whole loop is the function `Run`. The inner
  loop (`Drain`), the loop body (`RunIteration`) and the outer loop
  (`RunLoop`) are also written as imperative methods, each proved equal to
  its functional counterpart.
- **The draw** (`TestGame.Draw`) is module `Render`. It is a trace of
  commands, `seq<Cmd>`, with a protocol order over the command kinds.
- **Start-up arithmetic** (`TestGame.Initialize`) is covered by three modules:
  - `Layout` holds the `Vertex` struct, the vertex-input layout, the
    full-screen triangle and the uniform block.
  - `Setup` holds the window-sized render area, flip rectangle, viewport,
    scissor, framebuffer and target texture.
  - `Machine` holds the C# integer widths and their unchecked conversions.

Doubles and floats are modelled as `real`. The polled events, the
performance-counter readings and its frequency are inputs to the model.
Device calls appear only as the commands they record, or as the values they
return.

Two facts about the code that shape the model:

- **Quit and catch-up.** `quit` is set only while events are polled, which
  happens before the inner loop. So an iteration that polls a quit event runs
  no steps at all (`StepOnQuit`).
- **Uniform buffer size.** The uniform block is four floats, 16 bytes
  (`UniformBlockSize`). The pipeline's fragment stage declares
  `UniformBufferSize = 4` (`src/TestGame.cs:260`). The unit of that field is
  defined by the graphics library, which is not part of this model.

## Model

| member | source | states |
|---|---|---|
| Machine.AsInt32 | src/TestGame.cs:160-163 | the `(int)` cast of a `uint` keeps the bit pattern; it is the identity below 2^31 and negative from 2^31 |
| Machine.NegInt32 | src/TestGame.cs:168 | unchecked negation is exact except for the most negative `int`, and always agrees with `-i` modulo 2^32 |
| Machine.SubUInt64 | src/TestGame.cs:393 | `ulong` subtraction of counter readings is the exact difference when the counter did not go back, and wraps by 2^64 when it did |
| Layout.VertexLayoutMatchesStruct | src/TestGame.cs:288-314 | stride 20 = 5 floats of 4 bytes; the position attribute reads fields x,y,z at offset 0 and the texcoord attribute reads u,v at offset 12; both fit in the stride, do not overlap, have distinct locations and leave no gap |
| Layout.VertexBufferFitsTriangle | src/TestGame.cs:150-151 | the 60-byte vertex buffer is exactly 3 vertices at the declared stride |
| Layout.FullScreenTriangleCoversClipSquare | src/TestGame.cs:131-148 | the triangle (-1,-1), (3,-1), (-1,3) contains every point of the clip square [-1,1]^2 and lies at depth 0 |
| Layout.TexCoordsAffineInPosition | src/TestGame.cs:131-148 | every vertex's texture coordinate is the same affine function of its position: u = (x+1)/4, v = (3-y)/4 |
| Layout.UniformBlockSize | src/TestGame.cs:16-21 | every uniform block flattens to four floats in declaration order, time at offset 0, padding at 4, resolution at 8 and 12, so it is 16 bytes |
| Setup.Initialize | src/TestGame.cs:65-73 | start-up fails exactly when the windowing library's initialisation reports a negative status |
| Setup.TargetsHaveWindowSize | src/TestGame.cs:185-210 | target texture and framebuffer are the window's size; the viewport starts at the origin with the window's size; the uniform resolution equals the viewport size and the uniform time starts at 0 |
| Setup.RenderAreaIsWindow | src/TestGame.cs:160-163 | for sides below 2^31 the render area and the scissor both equal the window rectangle, covering exactly the window's pixels |
| Setup.FlipMirrorsRenderArea | src/TestGame.cs:165-168 | for sides below 2^31 the flip rectangle is (0, H, W, -H); it covers exactly the render area's pixels with top and bottom edges exchanged |
| Setup.ResourcesAgreeWithLayout | src/TestGame.cs:150-156 | the vertex buffer holds the triangle, its size and upload size equal vertex count times stride, it is bound at offset 0, two texture/sampler pairs match the two declared fragment sampler bindings, and every vertex lies in the viewport's depth range |
| Render.Draw | src/TestGame.cs:426-446 | a frame is 10 commands in strict protocol order, from acquire to Submit; it renders into the window render area, pushes the start-up uniform block carrying the loop's current time uniform, binds 1 vertex buffer and the start-up texture/sampler pairs, draws 1 primitive from vertex 0 with vertex-parameter offset 0 and the pushed fragment offset, and presents through the flip rectangle with nearest filtering |
| Render.ProtocolFixesOrder | src/TestGame.cs:426-446 | any 10-command trace in protocol order puts each command kind at its rank and ends with Submit, so the order is unique |
| Render.CountKindOrdered | src/TestGame.cs:426-446 | in a protocol-ordered trace each command kind occurs at most once, and exactly once iff it is present |
| Render.DrawEmitsEachCommandOnce | src/TestGame.cs:426-446 | every frame contains each kind of command exactly once |
| Render.DrawAfterInitialize | src/TestGame.cs:438-441 | after start-up a frame binds 1 vertex buffer at offset 0 and 2 texture/sampler pairs, pushes one 16-byte uniform block, and draws one primitive of the triangle-list topology, whose 3 vertices are exactly the vertex buffer's contents |
| Render.FrameUniforms | src/TestGame.cs:421-438 | the pushed block carries the time the updates advanced, and keeps the padding and resolution that start-up set |
| Render.FrameShowsSimulatedTime | src/TestGame.cs:376-438 | a frame drawn while the loop runs from start-up pushes time t = steps*dt and the viewport's size as resolution |
| Render.LoopStart | src/TestGame.cs:99 | the loop's first clock after start-up is drained, not quitting, at t = 0, with the time uniform that start-up set and the first counter reading |
| Scheduler.Start | src/TestGame.cs:25-30 | the loop begins with quit unset, t = 0 and an empty accumulator, so the accumulator starts drained |
| Scheduler.Update | src/TestGame.cs:421-424 | a step advances the time uniform by dt and changes nothing else |
| Scheduler.PollEvents | src/TestGame.cs:382-390 | after the event queue is drained, quit is set iff it was already set or some polled event was a quit event |
| Scheduler.Measured | src/TestGame.cs:392-393 | the measured frame time (wrapped tick difference over frequency) is never negative |
| Scheduler.FrameTime | src/TestGame.cs:392-398 | the frame time is in [0, 0.25], at most the measured time, and equal either to it or to 0.25 |
| Scheduler.FrameTimeMonotonicCounter | src/TestGame.cs:392-398 | with a monotonic counter the frame time is min(measured, 0.25) |
| Scheduler.DrainCount | src/TestGame.cs:406-412 | draining one step at a time, the step count is 0 when quitting or when less than one step is due; otherwise n*dt <= accumulator < (n+1)*dt |
| Scheduler.DrainCountIsFloor | src/TestGame.cs:406-412 | for a non-negative accumulator and no quit, the step count is floor(accumulator / dt) |
| Scheduler.Drain | src/TestGame.cs:406-412 | the inner loop runs exactly the DrainCount steps; when not quitting it leaves less than dt; it keeps a non-negative accumulator non-negative and t + accumulator unchanged; t and the uniform time advance by n*dt; quit is not touched |
| Scheduler.Step | src/TestGame.cs:378-417 | one iteration sets quit iff a quit event was polled; it draws iff at least one step ran; quitting means no step; not quitting leaves accumulator < dt; simulated plus unconsumed time grows by exactly the frame time; t and the uniform time both advance by steps*dt |
| Scheduler.RunIteration | src/TestGame.cs:380-417 | the loop body as written (poll loop, clamp, inner loop, draw decision) computes Step |
| Scheduler.StepRunsFloorUpdates | src/TestGame.cs:402-412 | when not quitting, the step count is floor((accumulator + frame time) / dt) |
| Scheduler.StepCatchUpBound | src/TestGame.cs:395-412 | from an accumulator in [0, dt), one iteration runs at most 25 steps and leaves the accumulator in [0, dt) unless quitting |
| Scheduler.StepCatchUpBoundReached | src/TestGame.cs:395-412 | a 0.25 s frame from an empty accumulator runs exactly 25 steps, so the bound is tight |
| Scheduler.StepOnQuit | src/TestGame.cs:404-417 | an iteration that polls quit runs no step and no draw; t and the uniform time are unchanged and only the frame time is added to the accumulator |
| Scheduler.Run | src/TestGame.cs:376-419 | the loop runs at most one iteration per poll and stops early only on quit; draws never exceed iterations or steps; t advances by steps*dt; the offset between uniform time and t is kept; from an accumulator in [0, dt) it stays in [0, dt) while not quitting, never goes negative, and steps are at most 25 per iteration and at most 25 per draw |
| Scheduler.RunLoop | src/TestGame.cs:376-419 | the outer while loop as written computes Run |
| Scheduler.RunFromStart | src/TestGame.cs:421-424 | from the initial state (t = 0, accumulator = 0, uniform time 0), after N steps t = N*dt, the uniform time equals t, and the accumulator stays in [0, dt) while not quitting |
| Scheduler.RunStopsAtFirstQuit | src/TestGame.cs:376-390 | the loop runs exactly through the first iteration that polls a quit event, then stops with quit set |
| Scheduler.RunWithoutQuit | src/TestGame.cs:376-390 | without quit events the loop runs one iteration per poll and never sets quit |

## Left out

- Window creation, the windowing library's event queue and its performance counter. Events arrive as a `Poll` list of quit and other events. Counter readings and the counter frequency are inputs, and the frequency is required to be positive.
- Device, shader, texture, sampler, render-pass, framebuffer, pipeline and buffer creation, and `SetData`. These are calls into the graphics library. Only their sizes, rectangles and bindings are kept, as fields of `Setup`.
- Blend, depth-stencil, rasterizer, multisample and sampler field values. They are library configuration with no behaviour in the demo.
- Failures of start-up other than the windowing library's status. `Initialize` checks no other result (`src/TestGame.cs:75-373`), so the model has no other failure. The message `Initialize` prints when `SDL_Init` fails (`src/TestGame.cs:71`) is not modelled.
- Scheduler.FrameTime: IEEE rounding is not modelled. The `ulong`-to-`double` division at `src/TestGame.cs:393` is exact in `real`.
- Scheduler.RunFromStart, Render.FrameShowsSimulatedTime: "uniform time equals t" and "pushed time = steps*dt" hold only in real arithmetic. The program keeps the time uniform as a `float` and adds `(float) dt`, about 0.009999999776, on every step (`src/TestGame.cs:19`, `423`). That uniform drifts from `t` by seconds per hour. From 2^18 s (about 72.8 hours) it stops advancing, because 0.01 is less than half a `float` ulp there. The `double` `t` stays close to N*dt.
- Scheduler.DrainCountIsFloor, Scheduler.StepRunsFloorUpdates, Scheduler.StepCatchUpBoundReached: exact step counts are facts of real arithmetic. The program subtracts the double `0.01` repeatedly, so an iteration may run one step fewer and carry it into the next. For example, a 0.25 s frame from an empty accumulator leaves 0.009999999999999913 after 24 subtractions and stops at 24 steps. The bounds 0 <= accumulator < dt, draw iff a step ran, and at most 25 steps per iteration are not affected.
- Setup.TargetsHaveWindowSize: the viewport and uniform resolution are exact in `real`. The program stores them as `float`, which rounds sides above 2^24.
- Setup.RenderAreaIsWindow: the window-rectangle facts are stated only for sides below 2^31. Larger sides wrap negative under the `(int)` cast, as `Machine.AsInt32` shows.
- Setup.FlipMirrorsRenderArea: likewise stated only for sides below 2^31.
- Scheduler.Run: the model runs over a finite list of polls. It stops when quit is set or the list is exhausted, whereas the program loops until quit.
- The fragment-parameter offset returned by the device for the pushed uniforms is a parameter of `Render.Draw`.
- `src/Program.cs` calls `Initialize(1280, 720)`. It calls `Run` only when that returns true, and otherwise prints a message. It is not modelled separately.
- Scheduler.Run: the program reads the counter frequency again in every iteration (`src/TestGame.cs:393`). The model uses one fixed `frequency` for the whole run.
