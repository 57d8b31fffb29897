# Task pipeline player — verified model

`task_pipeline_player.js` is a web component. It draws a fixed seven-node
data pipeline and steps through a seven-step narration of it. Playback is
either automatic, on a recurring timer, or manual, through the back,
play/pause, forward and reset buttons and the keyboard. This project models
the component's logic in Dafny and proves properties of it. That logic is:

- the playback state machine: the step index, the play flag, the timer
  handle and the period, and every transition that changes them;
- the scale computation and the layout geometry of a redraw: node boxes,
  S-shaped edge connectors and arrowheads;
- which nodes and edges a redraw emphasises, plus the narration and legend
  texts;
- the static graph data and the well-formedness that the redraw relies on.

Modules:

- `JsValues`: `Option`, the outcome of `Number(...)` (`NaN` or a finite
  value) and the `||` fallback on numbers.
- `PipelineData`: the node, edge and step records, and the `NODES`, `EDGES`
  and `STEPS` constants. It also has the id lookup behind `NODES.find` and
  the graph invariant: unique ids, and every edge endpoint and highlight
  names a node.
- `Geometry`: the scale factor, node boxes, edge connectors as cubic Bezier
  curves, and arrowheads. Everything is over exact reals.
- `StepText`: decimal numerals, the legend "Step k / N" and a parser that
  reads a legend back.
- `Playback`: step-index arithmetic modulo the step count. Forward/back and
  k-fold advance/rewind.
- `RenderPass`: the frame a redraw produces, as a function of scene, step and
  scale.
- `Player`: the class `TaskPipelinePlayer`. Its fields are updated in place
  by methods for the lifecycle callbacks, the button handlers, the keyboard
  handler, `_schedule`, `_setScale` and the two drawing loops of `_render`.

The host's timers are modelled as a table of live intervals, the field `live`,
which maps a handle to its period. `setInterval` adds a fresh handle and
`clearInterval` removes one. A tick is a call of `Tick` that the host makes
only for a live handle. The class invariant says:

- every live handle is the one `_timer` names, so at most one interval is
  live;
- while the element is connected, an interval with the current speed is
  live exactly when playing.

The invariant holds after the constructor and is preserved by every transition
method. `ClearInterval` and `SetInterval` stand for the host's timer functions
and do not keep it on their own; `Schedule` uses them in pairs that do.

Behaviour of the code that the model keeps as it is:

- The speed is never clamped. The slider's `min`/`max` (600 and 3000) are
  markup only, and the `speed` attribute and the slider value are taken as
  they are (lines 66, 151, 172).
- Back, forward and reset change only the step. The running interval is
  neither cancelled nor restarted, so the next tick keeps its schedule
  (lines 148-150).
- `connectedCallback` does not reset the step to 0; only the constructor
  does. When `speed` is missing, 0 or not a number (NaN),
  `connectedCallback` keeps the current speed, which is 1600 only on the
  first connection (line 66).

## Model

| member | source | states |
|---|---|---|
| JsValues.OrElse | task_pipeline_player.js:66 | `Number(x) \|\| fallback`: the parsed value when it is neither 0 nor NaN, otherwise the fallback; a non-zero fallback is never replaced by 0 or NaN |
| JsValues.OrReal | task_pipeline_player.js:190 | `a \|\| b` on measured widths: `a` when it is not 0, and `b` when it is |
| PipelineData.ValidGraph | task_pipeline_player.js:24-56 | the graph invariant `_render` relies on: unique node ids, and every edge endpoint and highlight id names a node; `PipelineIsValid` proves it of `Nodes`, `Edges` and `Steps` |
| PipelineData.FindNode | task_pipeline_player.js:215 | `NODES.find` by id: the index of the first node with that id, and None exactly when no node has it |
| PipelineData.FindNodeUnique | task_pipeline_player.js:215 | with unique ids, the lookup returns the one node that carries the id |
| PipelineData.PipelineIdsUnique | task_pipeline_player.js:24-43 | the seven node ids are pairwise distinct |
| PipelineData.PipelineIsValid | task_pipeline_player.js:24-56 | the fixed data (`Nodes`, `Edges` and `Steps`, the literal `NODES`, `EDGES` and `STEPS`) has 7 nodes, 7 edges and 7 steps; ids are unique; every edge endpoint and every highlight id names a node |
| Geometry.MeasuredWidth | task_pipeline_player.js:190 | the client width, else the offset width, else the bounding-box width, else 1200; positive whenever the measurements are non-negative |
| Geometry.ScaleFor | task_pipeline_player.js:191 | `min(w/1200, 1)`: in (0, 1] for positive widths, equal to 1 exactly when `w >= 1200`, never above `w/1200` |
| Geometry.ScaleMonotone | task_pipeline_player.js:191 | a wider container never gets a smaller scale |
| Geometry.ScaledCanvasFits | task_pipeline_player.js:191-192 | the scaled canvas is `min(w, 1200)` wide and proportionally high |
| Geometry.ZeroWidthFallsBack | task_pipeline_player.js:190-191 | zero measurements everywhere fall back to 1200, so the scale is 1 |
| Geometry.MeasuredScaleInRange | task_pipeline_player.js:190-191 | every non-negative measurement gives a scale in (0, 1] |
| Geometry.NodeBox | task_pipeline_player.js:238-241 | a node is drawn at `(x·s, y·s, w·s, h·s)` |
| Geometry.RawNodeAtHalfScale | task_pipeline_player.js:25 | node `raw` at scale 0.5 is drawn at (10, 145, 95, 80) |
| Geometry.RightMid | task_pipeline_player.js:216 | the middle of a box's right side, where an edge leaves; `EdgeConnector` and `ConnectorsAttachToBoxes` state that connectors start there |
| Geometry.LeftMid | task_pipeline_player.js:217 | the middle of a box's left side, where an edge arrives; `EdgeConnector` and `ArrowheadMeetsTarget` state that connectors and arrowheads end there |
| Geometry.EdgeConnector | task_pipeline_player.js:216-219 | the curve runs from the middle of the source box's right side to the middle of the target box's left side; both inner control points lie at the horizontal midpoint, the first at the start's height and the second at the end's height |
| Geometry.ConnectorScalesUniformly | task_pipeline_player.js:216-219 | the connector at scale `s` is the logical-size connector with every point scaled by `s` |
| Geometry.BezierEnds | task_pipeline_player.js:219 | the drawn curve starts at its first anchor and ends at its last |
| Geometry.BernsteinSum | task_pipeline_player.js:219 | the cubic Bezier weights sum to 1 |
| Geometry.CubicReversed | task_pipeline_player.js:219 | running a cubic backwards is the cubic of the reversed control values |
| Geometry.CubicSymmetricAcross | task_pipeline_player.js:217-219 | the horizontal coordinate, with both inner control values at the midpoint, averages to the midpoint at `t` and `1-t` |
| Geometry.CubicSymmetricAlong | task_pipeline_player.js:219 | the vertical coordinate, with control values `y1, y1, y2, y2`, averages to the mean height at `t` and `1-t` |
| Geometry.ConnectorIsPointSymmetric | task_pipeline_player.js:216-219 | each connector is point-symmetric about the midpoint of its anchors |
| Geometry.ConnectorMidpoint | task_pipeline_player.js:216-219 | halfway along, the connector passes through that midpoint |
| Geometry.ArrowheadAt | task_pipeline_player.js:226 | the triangle at an end point: apex at the point, base 10 px to its left, 12 px tall and symmetric about the point's horizontal |
| Geometry.ArrowheadMeetsTarget | task_pipeline_player.js:216-226 | the arrowhead's apex is the middle of the target box's left side; its base is 10 px to the left and ±6 px around the apex, unscaled at every scale |
| StepText.DigitChar | task_pipeline_player.js:264 | the character of a decimal digit denotes that digit |
| StepText.NatToString | task_pipeline_player.js:264 | `${n}` for `n` below 10^21 is a non-empty string of digits with no leading zero except for 0 itself |
| StepText.NatToStringRoundTrip | task_pipeline_player.js:264 | reading `${n}` back as decimal digits gives `n` |
| StepText.NatToStringInjective | task_pipeline_player.js:264 | distinct numbers have distinct numerals |
| StepText.SplitDigits | task_pipeline_player.js:264 | splits a string into its longest leading run of digits and the rest |
| StepText.SplitDigitsAt | task_pipeline_player.js:264 | a run of digits followed by a non-digit splits exactly there |
| StepText.ParseStepLegend | task_pipeline_player.js:264 | "Step k / N" with both numbers in decimal parses back as (k, N) |
| StepText.Legend | task_pipeline_player.js:264 | the legend of the 0-based step `s` of `N` reads back as exactly the 1-based position `s+1` and the count `N` |
| StepText.LegendInjective | task_pipeline_player.js:264 | different steps show different legends |
| StepText.LegendOfFourthOfSeven | task_pipeline_player.js:264 | index 3 of 7 reads "Step 4 / 7" |
| Playback.Forward | task_pipeline_player.js:149 | the step after a forward click, `(s+1) mod N`, is a valid index |
| Playback.Back | task_pipeline_player.js:148 | the step after a back click, `(s-1+N) mod N`, is a valid index |
| Playback.ForwardWraps | task_pipeline_player.js:149 | forward from the last step gives 0 |
| Playback.BackWraps | task_pipeline_player.js:148 | back from step 0 gives N-1 |
| Playback.ForwardInside | task_pipeline_player.js:148-149 | away from the wrap, forward adds one and back subtracts one |
| Playback.BackUndoesForward | task_pipeline_player.js:148-149 | back after forward, and forward after back, return to the original step, for all N ≥ 1 |
| Playback.Advance | task_pipeline_player.js:199 | k ticks from a valid step stay a valid step |
| Playback.Rewind | task_pipeline_player.js:148 | k back clicks from a valid step stay a valid step |
| Playback.AdvanceIsModular | task_pipeline_player.js:199 | k ticks from `s` land on `(s+k) mod N` |
| Playback.FullCycle | task_pipeline_player.js:199 | N ticks go once round the script and return to the start |
| Playback.RewindFirst | task_pipeline_player.js:148 | k+1 back clicks are one back click followed by k more |
| Playback.RewindUndoesAdvance | task_pipeline_player.js:148-149 | k back clicks undo k forward clicks or ticks |
| Playback.ThreeTicksOfSeven | task_pipeline_player.js:199 | three ticks from step 0 of 7 reach step 3 |
| RenderPass.IsActiveNode | task_pipeline_player.js:237 | a node is active when the step's highlight set holds its id; `ActiveNodesAreHighlight` states the classification both ways |
| RenderPass.IsActiveEdge | task_pipeline_player.js:221 | an edge is active when the highlight set holds either endpoint; `EdgeActiveIffEndpointActive` relates it to the drawn node flags |
| RenderPass.EdgeViewOf | task_pipeline_player.js:215-228 | one edge as drawn: endpoints looked up by id, its connector, arrowhead and active flag; `ConnectorsAttachToBoxes` and `EdgeActiveIffEndpointActive` state its properties |
| RenderPass.NodeViewOf | task_pipeline_player.js:235-241 | one node as drawn: its scaled box, active flag, dashed flag and border color; `NodeViewsFollowScene` states its properties |
| RenderPass.View | task_pipeline_player.js:202-265 | a frame has one edge view per edge and one node view per node; the canvas is drawn at `1200·s` by `760·s` |
| RenderPass.NodeViewsFollowScene | task_pipeline_player.js:233-241 | the k-th node view is the k-th node, at its scaled box, active exactly when the step highlights its id |
| RenderPass.EdgeActiveIffEndpointActive | task_pipeline_player.js:221 | an edge is drawn active exactly when one of its two endpoint boxes is drawn active |
| RenderPass.ConnectorsAttachToBoxes | task_pipeline_player.js:215-226 | every connector leaves its source box's right middle and ends, under the arrowhead's apex, at its target box's left middle, as drawn in the same frame |
| RenderPass.ActiveNodesAreHighlight | task_pipeline_player.js:237 | the ids drawn active are exactly the current step's highlight ids |
| RenderPass.GeometryIndependentOfStep | task_pipeline_player.js:214-241 | two frames at the same scale have the same canvas size, connectors, arrowheads and boxes |
| RenderPass.TextsFollowStep | task_pipeline_player.js:263-264 | the narration is the current step's text; the legend reads back as the 1-based step and the step count |
| Player.AutoplayOnConnect | task_pipeline_player.js:67-68 | the play state on connection: playing when `autoplay` is missing or "true"; `AutoplayReadings` states how it differs from a later change |
| Player.AutoplayOnChange | task_pipeline_player.js:173 | the play state after an `autoplay` change: playing only for "true"; `AutoplayReadings` states how it differs from connection |
| Player.AutoplayReadings | task_pipeline_player.js:68 | on connection a missing `autoplay` means playing; after a change it means paused; any present value reads `== "true"` both times |
| Player.TaskPipelinePlayer.Valid | task_pipeline_player.js:196-200 | the class invariant: the graph is well-formed, the step is in range, every live interval is the one `_timer` names, and while connected an interval with the current speed is live exactly when playing (`TimersWellFormed`, `TimerMatchesPlayState`) |
| Player.TaskPipelinePlayer.AtMostOneLiveTimer | task_pipeline_player.js:196-200 | under the timer invariant at most one interval is live |
| Player.TaskPipelinePlayer.constructor | task_pipeline_player.js:16-20 | step 0, playing, `_timer` null, speed 1600, scale 1, no interval live; the invariant holds for the seven-step script |
| Player.TaskPipelinePlayer.ClearInterval | task_pipeline_player.js:197 | `clearInterval(h)` removes `h` from the live intervals; `clearInterval(null)` does nothing |
| Player.TaskPipelinePlayer.SetInterval | task_pipeline_player.js:199 | `setInterval` returns a fresh handle, live with the given period |
| Player.TaskPipelinePlayer.Schedule | task_pipeline_player.js:196-200 | the old interval is cancelled first; afterwards an interval with the current speed is live exactly when playing, and it is the only one; when paused `_timer` keeps the cancelled handle |
| Player.TaskPipelinePlayer.SetScale | task_pipeline_player.js:189-192 | the scale is `min(w/1200, 1)` of the measured width, and the canvas height is `760·scale` |
| Player.TaskPipelinePlayer.Connect | task_pipeline_player.js:65-162 | speed becomes `Number(attr) \|\| speed`; playing when `autoplay` is missing or "true"; scale recomputed; step kept; old interval cancelled and one started exactly when playing; exactly one keydown listener |
| Player.TaskPipelinePlayer.ConnectAsWritten | task_pipeline_player.js:65-162 | as `Connect`, but every connection adds one more keydown listener |
| Player.TaskPipelinePlayer.Disconnect | task_pipeline_player.js:165-168 | no interval is left live; the invariant holds |
| Player.TaskPipelinePlayer.TogglePlay | task_pipeline_player.js:147 | the play state flips, and afterwards an interval is live exactly when playing |
| Player.TaskPipelinePlayer.StepForward | task_pipeline_player.js:149 | the step becomes `Forward(step, N)`; nothing else changes, so the timer keeps running |
| Player.TaskPipelinePlayer.StepBack | task_pipeline_player.js:148 | the step becomes `Back(step, N)`; nothing else changes |
| Player.TaskPipelinePlayer.Reset | task_pipeline_player.js:150 | the step becomes 0; nothing else changes |
| Player.TaskPipelinePlayer.Tick | task_pipeline_player.js:199 | a tick of the live interval moves the step to `Forward(step, N)` |
| Player.TaskPipelinePlayer.SpeedInput | task_pipeline_player.js:151 | the speed becomes the slider value, and when playing the one live interval has that period |
| Player.TaskPipelinePlayer.SpeedAttributeChanged | task_pipeline_player.js:171-172 | ignored while disconnected; otherwise 0 and NaN keep the old speed, any other value replaces it; the old interval is cancelled and one with the resulting speed is live exactly when playing |
| Player.TaskPipelinePlayer.AutoplayAttributeChanged | task_pipeline_player.js:171-173 | ignored while disconnected; otherwise playing exactly when the new value is "true" (a removed attribute pauses); the old interval is cancelled and one is live exactly when playing |
| Player.TaskPipelinePlayer.WidthAttributeChanged | task_pipeline_player.js:170-185 | ignored while disconnected; otherwise the scale and canvas height are recomputed |
| Player.TaskPipelinePlayer.KeyDown | task_pipeline_player.js:153-157 | each registered listener clicks once: Space flips the play state once per listener, the right arrow advances and the left arrow rewinds one step per listener, other keys do nothing |
| Player.TaskPipelinePlayer.DrawEdge | task_pipeline_player.js:215-227 | one pass of the edge loop: the endpoints found by id, the curve of lines 216-219 and the arrowhead of line 226 are the render-pass view of that edge |
| Player.TaskPipelinePlayer.DrawEdges | task_pipeline_player.js:214-229 | the edge loop yields, in order, each edge's connector, arrowhead and active flag as the render-pass view defines them |
| Player.TaskPipelinePlayer.DrawNodes | task_pipeline_player.js:233-241 | the node loop yields, in order, each node's scaled box, active flag, dashed flag and color |
| Player.TaskPipelinePlayer.Render | task_pipeline_player.js:202-265 | the redraw is the render-pass frame of the current step at the current scale |
| Player.ThreeTicksScenario | task_pipeline_player.js:199 | started playing at step 0 with speed 1600, three ticks give step 3 and the legend "Step 4 / 7" |
| Player.ToggleTwice | task_pipeline_player.js:147 | two clicks on the play button restore the play state, with the timer matching it |
| Player.PauseStopsTicks | task_pipeline_player.js:196-198 | pausing while playing leaves no interval live |
| Player.SpaceAfterReconnectAsWritten | task_pipeline_player.js:153-154 | as written, after a removal and a re-insertion the Space key leaves the play state unchanged |
| Player.SpaceAfterReconnect | task_pipeline_player.js:153-154 | with one listener per shadow root, Space after a reconnection flips the play state |

## Left out

- Shadow DOM construction, the CSS text, and SVG and `div` element creation (lines 70-138, 204-260). The `d` path string and the `points` string are not formatted: the frame records their numbers.
- Colours and stroke widths of active and inactive edges, the `active` class name, and the play button's glyph (lines 147, 173, 222-227). Only the active flag they depend on is modelled.
- The slider's displayed value (lines 141, 172). It does not feed back into the state.
- Registering and removing the `resize`, click and mouse listeners (lines 144-151, 167, 256-257). The model has methods for the transitions those listeners call. The one listener whose registration changes behaviour, keydown, is counted, and `e.preventDefault()` is left out.
- Real `setInterval`/`clearInterval` timing and tick spacing. Ticks are method calls on a live handle.
- Tooltip text and positioning, node titles, subtitles and bullet lists (lines 243-257). These are browser-dependent and transient.
- The `maxWidth` style on a width change (line 183).
- Asset URL defaults, the icon and logo closures, and the asset-attribute change (lines 58-62, 174-180, 244, 249). That change only swaps image sources and redraws. Node records keep which asset they show.
- `Number(...)` string parsing (lines 66, 151, 172). The methods take its outcome as a `JsNumber`, and the infinities are not represented. The slider's value is taken as a real.
- Attribute changes before the first `connectedCallback`. When a deferred script defines the element after its tag was parsed, `attributeChangedCallback` runs while `isConnected` is already true but `this.$` (line 129) is not yet set, so lines 172, 173 and 184 throw after assigning `_speed`, `_isPlaying` or `maxWidth`. The `connectedCallback` that follows recomputes those values. The model's `connected` field stands for "`connectedCallback` has run and `disconnectedCallback` has not since", so the attribute methods return early in that case and the thrown error is not modelled.
- Floating-point rounding. All arithmetic is over exact reals.
- StepText.NatToString: writes every number in plain decimal. JavaScript switches to exponent notation from 10^21, which the legend's numbers (1 to 7) never reach.
- Player.TaskPipelinePlayer.constructor: states the invariant and the step count of 7, not the equality of its graph with the full constant data. `PipelineIsValid` states the data's shape separately, which keeps the literal data out of the callers' proofs.

## Findings

| source | as written | input that shows it | evidently intended | confidence | as-written member | corrected member |
|---|---|---|---|---|---|---|
| task_pipeline_player.js:153 | `connectedCallback` adds a keydown listener to the shadow root on every connection and none is ever removed, so after k connections each key press clicks k times | remove the element from the document, insert it again, press Space: it toggles twice and the play state does not change (the arrow keys move two steps) | one keydown listener per shadow root, so Space toggles once and an arrow moves one step | not executed | Player.SpaceAfterReconnectAsWritten | Player.SpaceAfterReconnect |
