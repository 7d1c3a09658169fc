# vis_stream core, modelled in Dafny

vis_stream streams 2D and 3D geometry from a C++ program to a browser.

The backend is `ServerImpl`, in `cpp_backend/src/visualization_server.cpp`. Its job:
- it tracks observable primitives and hands each one an id `"obj_" + n`;
- it groups the tracked objects by window;
- it marks an object dirty when the object reports a change;
- it flushes dirty objects as scene updates to the first connected client.

The web client is `web_client/js/main.js`. It keeps one active plotter (2D or 3D). The plotter:
- applies each command to an id-keyed scene registry;
- keeps a legend and the auto-fit flags;
- converts between canvas pixels and world coordinates;
- lays out a grid with "nice" intervals.

The model has these modules:

| module | file | what it models |
|---|---|---|
| `Primitives` | `primitives.dfy` | the observable primitives of `vis_primitives.h`. Each is a class whose setters store a value and notify the single observer once. `Observer` is a recording stand-in for any `IObserver`; the server's own reaction is `ServerImpl.OnUpdate`, and `ServerImpl.self` is only the identity objects hold, not linked to it. |
| `Windows` | `windows.dfy` | `Window2D` and `Window3D`: two sets of observables (raw and shared) plus window properties. |
| `Protocol` | `protocol.dfy` | the commands and scene updates both sides exchange. |
| `Decimal` | `decimal.dfy` | `std::to_string`, and the fact that generated object ids and window names never repeat. |
| `Server` | `server.dfy` | the `ServerImpl` bookkeeping, in two layers (below). |
| `Viewport` | `viewport.dfy` | `CoordinateSystem`: bound validation, the two pixel/world maps, and `fitToData`. |
| `DynamicGrid` | `dynamic_grid.dfy` | nice intervals, dynamic padding, grid lines and the label filter. |
| `Plotter` | `plotter.dfy` | the scene registry, legend, flags, both plotters' `dispatch`, and `AppManager`. |
| `Options` | `options.dfy` | the `Option` datatype. |

`Server` has two layers:
- pure functions over a `ServerState` value, with lemmas showing that every operation keeps the tables consistent;
- a `ServerImpl` class whose methods update the same tables in place and are proved equal to those functions.

JavaScript numbers are `Num`: a finite real, either infinity, or NaN. C++ floats are exact reals.

## Model

| member | source | states |
|---|---|---|
| Primitives.Observable.SetObserver | cpp_backend/include/vis_primitives.h:19 | the observer becomes the one given (null detaches it) |
| Primitives.Observable.NotifyUpdate | cpp_backend/include/vis_primitives.h:22-26 | an attached observer receives this subject exactly once more; without one nothing happens |
| Primitives.Point2D.SetPosition | cpp_backend/include/vis_primitives.h:56-59 | the position is the one given, and the observer is told once |
| Primitives.Pose2D.constructor | cpp_backend/include/vis_primitives.h:69-72 | the default pose is the origin with heading 0; no observer yet |
| Primitives.Pose2D.SetPosition | cpp_backend/include/vis_primitives.h:73-76 | the position changes, the heading stays, one notification |
| Primitives.Pose2D.SetAngle | cpp_backend/include/vis_primitives.h:77-80 | the heading changes, the position stays, one notification |
| Primitives.Pose2D.SetPose | cpp_backend/include/vis_primitives.h:81-85 | position and heading change together with a single notification |
| Primitives.Circle.constructor | cpp_backend/include/vis_primitives.h:97-99 | the default radius is 1, centred at the origin |
| Primitives.Circle.SetCenter | cpp_backend/include/vis_primitives.h:100-103 | the centre changes, the radius stays, one notification |
| Primitives.Circle.SetRadius | cpp_backend/include/vis_primitives.h:104-107 | the radius changes, the centre stays, one notification |
| Primitives.Box2D.constructor | cpp_backend/include/vis_primitives.h:119-122 | the default box has width and both lengths 1 around the default pose |
| Primitives.Box2D.SetCenter | cpp_backend/include/vis_primitives.h:123-126 | only the centre pose changes; one notification |
| Primitives.Box2D.SetWidth | cpp_backend/include/vis_primitives.h:127-130 | only the width changes; one notification |
| Primitives.Box2D.SetLengthFront | cpp_backend/include/vis_primitives.h:131-134 | only the front length changes; one notification |
| Primitives.Box2D.SetLengthRear | cpp_backend/include/vis_primitives.h:135-138 | only the rear length changes; one notification |
| Primitives.Line2D.SetPoints | cpp_backend/include/vis_primitives.h:159-162 | the point sequence is replaced; one notification |
| Primitives.Line2D.AddPoint | cpp_backend/include/vis_primitives.h:163-166 | the point is appended and earlier points stay; one notification |
| Primitives.Line2D.Clear | cpp_backend/include/vis_primitives.h:167-170 | no points remain; one notification |
| Primitives.Trajectory2D.SetPoses | cpp_backend/include/vis_primitives.h:184-187 | the pose sequence is replaced; one notification |
| Primitives.Trajectory2D.AddPose | cpp_backend/include/vis_primitives.h:188-191 | the pose is appended and earlier poses stay; one notification |
| Primitives.Trajectory2D.Clear | cpp_backend/include/vis_primitives.h:192-195 | no poses remain; one notification |
| Primitives.Polygon.SetVertices | cpp_backend/include/vis_primitives.h:209-212 | the vertex sequence is replaced; one notification |
| Primitives.Polygon.AddVertex | cpp_backend/include/vis_primitives.h:213-216 | the vertex is appended and earlier vertices stay; one notification |
| Primitives.Polygon.Clear | cpp_backend/include/vis_primitives.h:217-220 | no vertices remain; one notification |
| Primitives.Point3D.SetPosition | cpp_backend/include/vis_primitives.h:235-238 | the position is the one given; one notification |
| Primitives.Pose3D.constructor | cpp_backend/include/vis_primitives.h:248-251 | the default pose is the origin with the identity quaternion (1, 0, 0, 0) |
| Primitives.Pose3D.SetPosition | cpp_backend/include/vis_primitives.h:252-255 | the position changes, the orientation stays; one notification |
| Primitives.Pose3D.SetOrientation | cpp_backend/include/vis_primitives.h:256-259 | the orientation changes, the position stays; one notification |
| Primitives.Pose3D.SetPose | cpp_backend/include/vis_primitives.h:260-264 | position and orientation change together with a single notification |
| Primitives.Ball.constructor | cpp_backend/include/vis_primitives.h:276-278 | the default radius is 1, centred at the origin |
| Primitives.Ball.SetCenter | cpp_backend/include/vis_primitives.h:279-282 | the centre changes, the radius stays; one notification |
| Primitives.Ball.SetRadius | cpp_backend/include/vis_primitives.h:283-286 | the radius changes, the centre stays; one notification |
| Primitives.Box3D.constructor | cpp_backend/include/vis_primitives.h:298-301 | the default lengths are (1, 1, 1) around the default pose |
| Primitives.Box3D.SetCenter | cpp_backend/include/vis_primitives.h:302-305 | the centre changes and the lengths stay; one notification |
| Primitives.Box3D.SetLengths | cpp_backend/include/vis_primitives.h:306-313 | `get_lengths` then returns exactly the three lengths set, and the centre stays |
| Windows.Window2D.constructor | cpp_backend/src/window_2d.cpp:3-11 | title and name are the given name; visible, grid, axes and legend are all on; no observables |
| Windows.Window2D.AddRaw | cpp_backend/src/window_2d.cpp:13-19 | true exactly for a non-null pointer not yet held; only then is it inserted; the count grows by the result |
| Windows.Window2D.AddShared | cpp_backend/src/window_2d.cpp:21-27 | the same for the shared set; the raw set is untouched |
| Windows.Window2D.RemoveRaw | cpp_backend/src/window_2d.cpp:38-40 | true exactly when the pointer was held; afterwards it is absent and the count dropped by the result |
| Windows.Window2D.RemoveShared | cpp_backend/src/window_2d.cpp:42-44 | the same for the shared set |
| Windows.Window2D.ClearObservables | cpp_backend/src/window_2d.cpp:46-49 | both sets empty and the count 0; properties unchanged |
| Windows.Window3D.constructor | cpp_backend/src/window_3d.cpp:4-12 | title and name are the given name; visible, grid off, axes and legend on; no observables |
| Windows.Window3D.AddRaw | cpp_backend/src/window_3d.cpp:14-20 | true exactly for a non-null pointer not yet held; the count grows by the result |
| Windows.Window3D.AddShared | cpp_backend/src/window_3d.cpp:22-28 | the same for the shared set; the raw set is untouched |
| Windows.Window3D.RemoveRaw | cpp_backend/src/window_3d.cpp:39-41 | true exactly when it was held; afterwards not contained |
| Windows.Window3D.RemoveShared | cpp_backend/src/window_3d.cpp:43-45 | the same for the shared set |
| Windows.Window3D.ClearObservables | cpp_backend/src/window_3d.cpp:47-50 | both sets empty, count 0, properties unchanged |
| Windows.Window3D.SetTitle | cpp_backend/src/window_3d.h:16 | only the title changes; the observable sets are untouched |
| Windows.Window3D.SetName | cpp_backend/src/window_3d.h:19 | only the name changes; the observable sets are untouched |
| Windows.Window3D.SetSize | cpp_backend/src/window_3d.h:22-25 | width and height become the ones given and no other field changes |
| Windows.Window3D.SetVisible | cpp_backend/src/window_3d.h:29 | only the visible flag changes |
| Windows.Window3D.SetGridVisible | cpp_backend/src/window_3d.h:33 | only the grid flag changes |
| Windows.Window3D.SetAxesVisible | cpp_backend/src/window_3d.h:36 | only the axes flag changes |
| Windows.Window3D.SetLegendVisible | cpp_backend/src/window_3d.h:39 | only the legend flag changes |
| Decimal.NatToString | cpp_backend/src/visualization_server.cpp:226 | at least one digit, only digits, no leading zero |
| Decimal.NatToStringInjective | cpp_backend/src/visualization_server.cpp:226 | different counters give different decimal strings |
| Decimal.ObjectIdInjective | cpp_backend/src/visualization_server.cpp:226 | `"obj_" + n` ids never repeat for different counter values |
| Decimal.WindowNameInjective | cpp_backend/src/visualization_server.cpp:398-399 | generated `"window_" + k` names never repeat |
| Server.EnumeratesAppend | cpp_backend/src/visualization_server.cpp:477-481 | collecting ids one by one lists each collected id once |
| Server.NotYetIssued | cpp_backend/src/visualization_server.cpp:226 | an id the counter has not reached was never handed out |
| Server.WindowIdFor | cpp_backend/src/visualization_server.cpp:600-611 | empty if the window is unknown, of the other kind, or nothing is connected; otherwise the first connection key |
| Server.Send | cpp_backend/src/visualization_server.cpp:202-218 | a message is appended only for a non-empty window id that is a connection key |
| Server.Removal | cpp_backend/src/visualization_server.cpp:488-524 | the id leaves the tracked table |
| Server.RemovalKeepsConsistent | cpp_backend/src/visualization_server.cpp:488-524 | removal keeps the tracked table, pointer map, memberships and dirty sets in agreement |
| Server.RemovalForgets | cpp_backend/src/visualization_server.cpp:488-524 | afterwards the id is in no table, no window set and no dirty set; a live object's pointer entry is gone; other objects untouched |
| Server.RemovalNotifies | cpp_backend/src/visualization_server.cpp:507-521 | a delete command goes out exactly when the object's window resolves to a window id |
| Server.RemoveAllTracked | cpp_backend/src/visualization_server.cpp:483-485 | removing a list drops exactly the listed ids and leaves every other entry as it was |
| Server.RemoveAllKeepsConsistent | cpp_backend/src/visualization_server.cpp:483-485 | removing a list keeps the tables consistent |
| Server.CleanupLeavesNoExpired | cpp_backend/src/visualization_server.cpp:474-486 | after the cleanup no tracked object is expired, and every live one is still tracked unchanged |
| Server.AddedEffect | cpp_backend/src/visualization_server.cpp:222-238 | the new id is fresh; it is tracked with its object, window and kind, the pointer maps to it, and it joins its window; consistency holds with the counter advanced |
| Server.AddTwiceOrphansFirst | cpp_backend/src/visualization_server.cpp:222-238 | adding the same object twice keeps the first id tracked but leaves no pointer mapping to it |
| Server.WindowsGrow | cpp_backend/src/visualization_server.cpp:238 | tracking a new id in its window keeps the membership sets in agreement |
| Server.DirtyUntouched | cpp_backend/src/visualization_server.cpp:236-238 | a new id leaves the dirty sets in agreement |
| Server.PointersGrow | cpp_backend/src/visualization_server.cpp:236-237 | pointing the object at the new id keeps pointer agreement with the counter advanced |
| Server.UpdateCommands | cpp_backend/src/visualization_server.cpp:541-551 | one geometry update per id, in order |
| Server.DistinctCard | cpp_backend/src/visualization_server.cpp:541-551 | a list of distinct ids is as long as its set |
| Server.FlushedEffect | cpp_backend/src/visualization_server.cpp:526-598 | an empty dirty set or a missing window id changes nothing; otherwise exactly the live tracked dirty ids leave that dirty set, the other kind's sets are untouched, and when at least one is live exactly one message is appended to the outbox for the first connection, holding one geometry update for each live dirty id and nothing else; with none live the outbox is unchanged |
| Server.FlushedDirty | cpp_backend/src/visualization_server.cpp:526-556 | the table half of a flush: consistency kept, exactly the live dirty ids leave the dirty set, nothing changes when the flush does not proceed |
| Server.FlushedOutbox | cpp_backend/src/visualization_server.cpp:533-560 | the message half of a flush: one message with one update per live dirty id when any is live, none otherwise |
| Server.UpdateCommandsFor | cpp_backend/src/visualization_server.cpp:541-551 | a geometry update for `id` is among the built commands exactly when `id` was visited |
| Server.SizeT | cpp_backend/src/visualization_server.cpp:346-347 | a non-negative threshold converts unchanged; a negative one wraps to a huge size |
| Server.Marked | cpp_backend/src/visualization_server.cpp:334-344 | an unknown subject changes nothing; otherwise only a dirty set changes |
| Server.MarkedEffect | cpp_backend/src/visualization_server.cpp:343-351 | the subject's id joins the dirty set of its own window and kind only; consistency holds |
| Server.AfterUpdateEffect | cpp_backend/src/visualization_server.cpp:334-357 | consistency holds; unknown subjects change nothing; with auto-update off nothing is flushed |
| Server.NegativeThresholdNeverFlushes | cpp_backend/src/visualization_server.cpp:345-356 | a negative threshold wraps around, so `on_update` never flushes however many objects are dirty |
| Server.ClearsAfterCleanup | cpp_backend/src/visualization_server.cpp:295-315 | after the cleanup no member of any window has expired, so `clear_static` removes nothing more |
| Server.ClearEmptiesWindow | cpp_backend/src/visualization_server.cpp:317-328 | after `clear(w)` no tracked object belongs to `w`, every other object stays, and the tables stay consistent |
| Server.ServerImpl.constructor | cpp_backend/src/visualization_server.cpp:160-172 | nothing tracked, no windows, auto-update off with threshold and interval 0 |
| Server.ServerImpl.RemoveObjectInternal | cpp_backend/src/visualization_server.cpp:488-524 | the state becomes `Removal` of the old state; a live object's observer is detached |
| Server.ServerImpl.Collect | cpp_backend/src/visualization_server.cpp:477-481 | the returned list holds each given id exactly once |
| Server.ServerImpl.RemoveEach | cpp_backend/src/visualization_server.cpp:483-485 | the state becomes `RemoveAll` of the old state over the list |
| Server.ServerImpl.CleanupExpiredObjects | cpp_backend/src/visualization_server.cpp:474-486 | exactly the expired ids are removed, and none stays |
| Server.ServerImpl.Add | cpp_backend/src/visualization_server.cpp:220-262 | null changes nothing; otherwise after the cleanup the object is tracked as `Added`, the counter goes up by one and the server observes it |
| Server.ServerImpl.Register | cpp_backend/src/visualization_server.cpp:226-262 | after the cleanup the object is tracked as `Added` under the next id, the counter goes up by one, the server becomes its observer, and the other fields are untouched |
| Server.ServerImpl.Track | cpp_backend/src/visualization_server.cpp:226-238 | the next id is taken and recorded in the tracked table, the pointer map and the window's set |
| Server.ServerImpl.AddCopy | cpp_backend/src/visualization_server.cpp:264-270 | a fresh copy is added and observed; the caller's object is not tracked |
| Server.ServerImpl.Clear | cpp_backend/src/visualization_server.cpp:317-328 | after the cleanup every member of the window is removed; nothing tracked belongs to it afterwards |
| Server.ServerImpl.ClearDynamic | cpp_backend/src/visualization_server.cpp:272-293 | after the cleanup exactly the window's live objects are removed |
| Server.ServerImpl.ClearStatic | cpp_backend/src/visualization_server.cpp:295-315 | after the cleanup exactly the window's expired objects are removed |
| Server.ServerImpl.FlushDirtySet | cpp_backend/src/visualization_server.cpp:526-598 | the state becomes `Flushed` for a valid visiting order of the live dirty ids |
| Server.ServerImpl.Commit | cpp_backend/src/visualization_server.cpp:554-560 | the dirty set minus the visited ids is stored and the update message is sent, so the state becomes `Flushed` |
| Server.ServerImpl.UpdatesFor | cpp_backend/src/visualization_server.cpp:541-551 | the visited ids that are tracked and live, each once, with one command per id |
| Server.ServerImpl.OnUpdate | cpp_backend/src/visualization_server.cpp:330-358 | cleanup, then `AfterUpdate`: mark the subject's id dirty and flush when the threshold is reached |
| Server.ServerImpl.Mark | cpp_backend/src/visualization_server.cpp:334-357 | the part of `on_update` after the cleanup: the state becomes `AfterUpdate` for a valid flush order, and the counters and policy are untouched |
| Server.ServerImpl.Drawnow | cpp_backend/src/visualization_server.cpp:360-369 | cleanup, then a flush of that window and kind |
| Server.ServerImpl.SetAutoUpdatePolicy | cpp_backend/src/visualization_server.cpp:371-384 | the policy fields take the given values; the timer starts or stops exactly when periodic flushing switches on or off |
| Server.ServerImpl.CreateWindow | cpp_backend/src/visualization_server.cpp:394-404 | an empty name becomes `"window_" + k` and the index goes up by one; an existing entry is overwritten |
| Server.ServerImpl.RemoveWindow | cpp_backend/src/visualization_server.cpp:406-419 | false, changing nothing, when the name is absent or of the other kind; otherwise the window's objects are cleared and the window erased |
| Server.ServerImpl.GetWindowsName | cpp_backend/src/visualization_server.cpp:433-442 | exactly the names of windows of that kind, each once |
| Viewport.ClampValue | web_client/js/main.js:258-260 | inside `[min, max]` when `min <= max`; the value itself when already inside; the violated bound otherwise |
| Viewport.ApplyPrecision | web_client/js/main.js:250-256 | NaN stays NaN; anything else lands in `[-1e6, 1e6]`; below `1e-10` in magnitude gives 0; values in range are kept |
| Viewport.ApplyTargetOffset | web_client/js/main.js:267-279 | no target leaves the bounds; with a target every edge is in range, and a NaN or 0 target coordinate leaves each representable edge on that axis (left and right, or bottom and top) where it was |
| Viewport.ApplyPrecisionKeepsMagnitude | web_client/js/main.js:250-256 | a value at or above the precision threshold keeps its magnitude, up to the range clamp |
| Viewport.TargetOffsetExact | web_client/js/main.js:267-279 | a finite target whose sums stay representable shifts the bounds by exactly the target |
| Viewport.ValidateAndFixBounds | web_client/js/main.js:280-293 | the result is non-degenerate: the input when it was, else the default `[-10,10]x[-10,10]` |
| Viewport.WorldBounds | web_client/js/main.js:217-248 | always non-degenerate; the default rectangle for a rejected zoom or invalid camera; otherwise in range |
| Viewport.ZoomFactor | web_client/js/main.js:227 | the scale factor is positive; a zoom below 0.001 gives 1000 and one above 1000 gives 0.001 |
| Viewport.FactorDivides | web_client/js/main.js:227 | inside the clamp range, multiplying by the factor divides by the zoom |
| Viewport.ScaledBounds | web_client/js/main.js:236-241 | the four camera edges scaled by the factor and precision-limited are in range |
| Viewport.ScaledExact | web_client/js/main.js:236-241 | when every scaled edge is representable, `baseBounds` is exactly the edges times the factor |
| Viewport.WorldBoundsAccepted | web_client/js/main.js:217-248 | a valid camera with a finite zoom in `(0, 1000]` takes the scaled, shifted and validated path |
| Viewport.WorldBoundsShifted | web_client/js/main.js:217-248 | when the scaled bounds are non-degenerate and the shift is representable, the world bounds are exactly the scaled bounds shifted by the target |
| Viewport.WorldBoundsZoomed | web_client/js/main.js:227-279 | for an accepted zoom and finite target with representable results, the world bounds are each camera edge times the zoom factor plus the target |
| Viewport.WorldBoundsOfPlainCamera | web_client/js/main.js:217-248 | a zoom-1 camera with representable, non-degenerate edges and no target gets exactly its own edges back |
| Viewport.PixelToWorld | web_client/js/main.js:302-308 | the canvas corners map to the bound corners, and the canvas maps inside the bounds |
| Viewport.WorldToPixel | web_client/js/main.js:311-328 | the top-left corner maps to pixel (0, 0), and the bounds map inside the canvas |
| Viewport.WorldToPixelAfterPixelToWorld | web_client/js/main.js:302-328 | world-to-pixel undoes pixel-to-world over the same bounds |
| Viewport.PixelToWorldAfterWorldToPixel | web_client/js/main.js:302-328 | pixel-to-world undoes world-to-pixel over the same bounds |
| Viewport.ScreenToWorld | web_client/js/main.js:302-308 | a pixel on the canvas lands inside the camera's world bounds |
| Viewport.WorldToScreen | web_client/js/main.js:311-328 | a world point inside the bounds lands on the canvas |
| Viewport.WorldToScreenAfterScreenToWorld | web_client/js/main.js:302-328 | `worldToScreen(screenToWorld(p)) == p` for the same camera and target |
| Viewport.ScreenToWorldAfterWorldToScreen | web_client/js/main.js:302-328 | `screenToWorld(worldToScreen(w)) == w` for the same camera and target |
| Viewport.FitViewport | web_client/js/main.js:331-373 | centred on the data; the view has the canvas aspect ratio, covers both padded extents and matches one exactly; the view contains the padded data |
| Viewport.ViewSize | web_client/js/main.js:346-353 | the aspect correction widens one side only, to the canvas ratio, never below the padded size |
| Viewport.PaddedExtent | web_client/js/main.js:336-344 | a padded extent is positive and at least `extent * (1 + padding)` |
| Viewport.OrthographicCamera.constructor | web_client/js/main.js:565-568 | the camera view holds the given edges and zoom 1 |
| Viewport.CoordinateSystem.constructor | web_client/js/main.js:200-207 | the canvas has the given size and a positive aspect ratio |
| Viewport.CoordinateSystem.UpdateCanvasSize | web_client/js/main.js:209-214 | the canvas size and aspect follow the new dimensions |
| Viewport.CoordinateSystem.FitToData | web_client/js/main.js:331-373 | the camera is set to the fitted rectangle around the data, with zoom 1 |
| DynamicGrid.Pow10Step | web_client/js/main.js:495-503 | consecutive powers of ten differ by a factor 10 |
| DynamicGrid.FloorLog10 | web_client/js/main.js:496 | `10^e <= x < 10^(e+1)`, the exponent `Math.floor(Math.log10(x))` denotes |
| DynamicGrid.NiceInterval | web_client/js/main.js:495-503 | a positive range gets an interval `r > 0` with `4r <= range < 10r`; range 0 gives 0; a negative range gives NaN |
| DynamicGrid.NiceIntervalDigits | web_client/js/main.js:495-503 | with `p` the power of ten at or below the range: the interval is `0.2p` for a range below `2p`, `0.5p` from `2p` to below `5p`, and `p` from `5p` on; so it is 1, 2 or 5 times a power of ten |
| DynamicGrid.DynamicPadding | web_client/js/main.js:483-494 | 0.5 exactly below size 1, 0.2 exactly from 1 to below 10, 0.1 exactly from 10 |
| DynamicGrid.DynamicPaddingShrinks | web_client/js/main.js:483-494 | a larger view never gets more padding |
| DynamicGrid.Round | web_client/js/main.js:505-508 | `Math.round` is within one half of its argument |
| DynamicGrid.RoundToPrecision | web_client/js/main.js:505-508 | the rounded value is within half a unit of the last decimal place |
| DynamicGrid.RoundToPrecisionIdempotent | web_client/js/main.js:505-508 | rounding an already rounded value changes nothing |
| DynamicGrid.AxisLines | web_client/js/main.js:429-460 | one line per interval multiple from the floor of the low edge to the ceiling of the high edge, each rounded to 8 places |
| DynamicGrid.GridCoversRange | web_client/js/main.js:429-460 | the lines start at or before the low edge and end at or after the high edge, and every interval multiple in between is a line |
| DynamicGrid.LabelAt | web_client/js/main.js:438-442 | a label carries its line's value, and a visible line's label sits on the canvas |
| DynamicGrid.AxisLabelsExact | web_client/js/main.js:438-442 | a label exists exactly for each visible line |
| DynamicGrid.Extended | web_client/js/main.js:415-419 | the extended frame strictly contains the view on every side |
| DynamicGrid.FrameCoversView | web_client/js/main.js:408-481 | both axes have lines; the extended frame strictly contains the world bounds; on each axis the first line is at or below the low edge of the extended frame and the last at or above its high edge, up to the 8-place rounding slack; and when the view is at least `MinSpan` wide (tall) the first and last lines reach past the view's low and high edges |
| DynamicGrid.FrameOfShows | web_client/js/main.js:408-481 | the same covering for the frame of any non-degenerate bounds |
| DynamicGrid.FrameOfCovers | web_client/js/main.js:415-460 | both axes of the padded frame have lines reaching both ends of the view |
| DynamicGrid.PaddedLinesCover | web_client/js/main.js:415-460 | the lines of an axis padded by 0.5, 0.2 or 0.1 of its span reach both padded ends up to the slack, and both view ends when the span is at least `MinSpan` |
| DynamicGrid.AxisEnds | web_client/js/main.js:429-460 | an axis has at least one line, the first within the slack of the low end or below it, the last within the slack of the high end or above it |
| DynamicGrid.Grid.constructor | web_client/js/main.js:381-406 | the grid starts visible with no lines or labels |
| DynamicGrid.Grid.Update | web_client/js/main.js:408-481 | the lines and labels become the frame of the current camera view; visibility stays |
| DynamicGrid.Recompute | web_client/js/main.js:408-481 | the recomputed lines and labels equal the frame of the bounds |
| DynamicGrid.ScanAxis | web_client/js/main.js:429-460 | the loop produces exactly the axis lines and their visible labels |
| Plotter.Removed | web_client/js/main.js:90-101 | the id leaves the registry; an absent id changes nothing |
| Plotter.Added | web_client/js/main.js:761-772 | the ids are the old ones plus the new id |
| Plotter.Updated | web_client/js/main.js:773-779 | same ids, same scene, same handles; a present id gets the new geometry; an absent id changes nothing |
| Plotter.Cleared | web_client/js/main.js:103-108 | no objects and an empty scene remain |
| Plotter.RemovedPartlyCleared | web_client/js/main.js:107 | each removal during `destroy` makes progress and keeps the partial-clear invariant |
| Plotter.FullyCleared | web_client/js/main.js:103-108 | once no objects remain, the registry is exactly the cleared one |
| Plotter.HandlesWithout | web_client/js/main.js:90-101 | removing an id removes exactly its handle |
| Plotter.RemovedKeepsValid | web_client/js/main.js:90-101 | removal keeps one scene object per id, and the removed object's handle is disposed and out of the scene |
| Plotter.AddedKeepsValid | web_client/js/main.js:161-164 | ADD over an existing id disposes the old object first, so ids stay unique and the scene holds exactly the new object in its place |
| Plotter.UpdatedKeepsValid | web_client/js/main.js:773-779 | UPDATE keeps the registry valid |
| Plotter.AddThenRemove | web_client/js/main.js:761-784 | ADD then DELETE of an id leaves the other ids as they were |
| Plotter.Without | web_client/js/main.js:822-824 | dropping a legend row keeps every other row and their distinctness |
| Plotter.ConsKeepsDistinct | web_client/js/main.js:836-837 | prefixing an element not in the tail keeps the rows distinct |
| Plotter.WithoutSplit | web_client/js/main.js:822-824 | dropping a row from the middle joins the rows before and after it |
| Plotter.UpdatedLegend | web_client/js/main.js:820-847 | a null material removes the id's row |
| Plotter.UpdatedLegendKeepsValid | web_client/js/main.js:820-847 | the rows stay distinct and match the items; an existing row keeps its place; a new non-empty legend appends a row; null removes the row |
| Plotter.StaleRowAfterReAdd | web_client/js/main.js:829-830 | an empty legend text on a re-added id leaves the old row in place |
| Plotter.FitChanged | web_client/js/main.js:683-686 | auto-fit follows the checkbox, and the user controls are enabled exactly when auto-fit is off |
| Plotter.Clicked | web_client/js/main.js:598 | a disabled toggle ignores clicks; otherwise a click flips the checkbox and auto-fit follows |
| Plotter.AxisSet | web_client/js/main.js:789-794 | SET_AXIS_PROPERTIES turns auto-fit and the checkbox off and enables the controls |
| Plotter.Disconnected | web_client/js/main.js:812-819 | disconnecting turns auto-fit off, enables the controls and disables the toggle |
| Plotter.FlagsStayConsistent | web_client/js/main.js:683-819 | every handler keeps "controls enabled exactly when auto-fit is off" |
| Plotter.DisconnectIsFinal | web_client/js/main.js:815 | after a disconnect no number of clicks changes the flags |
| Plotter.FittedView | web_client/js/main.js:803 | the axis command's view has zoom 1 and the canvas ratio, and covers the data padded by 10% |
| Plotter.Dispatch2DKeepsValid | web_client/js/main.js:758-810 | every 2D command keeps the registry and the legend valid |
| Plotter.DispatchAll2DKeepsValid | web_client/js/main.js:26 | any sequence of 2D commands keeps the state valid |
| Plotter.Delete2DForgets | web_client/js/main.js:780-784 | a 2D DELETE removes the id from both the registry and the legend |
| Plotter.DispatchAll3DKeepsValid | web_client/js/main.js:154-188 | any sequence of 3D commands keeps the registry valid |
| Plotter.UnbuildableAddIgnored | web_client/js/main.js:159-160 | an ADD whose geometry the 3D factory cannot build changes nothing |
| Plotter.SceneRegistry.constructor | web_client/js/main.js:77-82 | an empty registry |
| Plotter.SceneRegistry.RemoveObject | web_client/js/main.js:90-101 | the registry becomes `Removed` of the old one |
| Plotter.SceneRegistry.Add | web_client/js/main.js:161-164 | the registry becomes `Added` of the old one |
| Plotter.SceneRegistry.Update | web_client/js/main.js:170-172 | the registry becomes `Updated` of the old one |
| Plotter.SceneRegistry.Destroy | web_client/js/main.js:103-108 | the loop removes every object, ending in `Cleared` |
| Plotter.Plotter2D.constructor | web_client/js/main.js:539-600 | the initial 2D state on a canvas of the given size |
| Plotter.Plotter2D.UpdateLegend | web_client/js/main.js:820-847 | the legend becomes `UpdatedLegend` of the old one, and nothing else changes |
| Plotter.Plotter2D.Dispatch | web_client/js/main.js:758-810 | the state becomes `Dispatch2D` of the old one |
| Plotter.Plotter2D.OnDynamicFitChange | web_client/js/main.js:683-686 | only the flags change, as `FitChanged` |
| Plotter.Plotter2D.ClickToggle | web_client/js/main.js:598 | only the flags change, as `Clicked` |
| Plotter.Plotter2D.OnDisconnect | web_client/js/main.js:812-819 | the heading gains the disconnected suffix and the flags become `Disconnected` |
| Plotter.Plotter2D.Destroy | web_client/js/main.js:848-857 | the registry is cleared, and then it always throws, because the dynamic grid has no `destroy` |
| Plotter.Plotter3D.constructor | web_client/js/main.js:118-146 | an empty registry, grid and axes shown, and the page title kept |
| Plotter.Plotter3D.Dispatch | web_client/js/main.js:154-188 | the state becomes `Dispatch3D` of the old one |
| Plotter.Plotter3D.OnDisconnect | web_client/js/main.js:190-193 | the page title gains the disconnected suffix |
| Plotter.Plotter3D.Destroy | web_client/js/main.js:103-108 | the registry is cleared |
| Plotter.AppManager.constructor | web_client/js/main.js:17-19 | no active plotter |
| Plotter.AppManager.HandleUpdate | web_client/js/main.js:21-27 | the active kind becomes `NextKind`: a matching plotter runs the commands in order; a 3D plotter or none is replaced by a fresh plotter that runs them; a 2D plotter asked for 3D throws, stays active with its registry cleared, and runs no command |
| Plotter.AppManager.HandleUpdateIntended | web_client/js/main.js:21-27 | the update's kind is always active afterwards; a matching plotter runs the commands, otherwise the old one is cleared and a fresh one runs them from its initial state |
| Plotter.NextKind | web_client/js/main.js:21-32 | the requested kind is active afterwards exactly when the current plotter is not 2D or 2D is requested; otherwise the current kind stays |
| Plotter.TwoDPlotterIsNeverReplaced | web_client/js/main.js:21-32 | once a 2D plotter is active, no sequence of updates replaces it |
| Plotter.KindAfterFollowsUntil2D | web_client/js/main.js:21-32 | before a 2D plotter exists, each update leaves a plotter of its own kind |
| Plotter.AppManager.Replace | web_client/js/main.js:22-26 | throws exactly when the old plotter is 2D, which then stays with a cleared registry; otherwise the old 3D plotter is cleared and a fresh plotter of the new kind runs the commands from its initial state |
| Plotter.AppManager.ReplaceIntended | web_client/js/main.js:22-26 | the old plotter is cleared and a fresh plotter of the new kind runs the commands from its initial state |
| Plotter.AppManager.RunActive | web_client/js/main.js:25-26 | the active plotter's state becomes the fold of its dispatch over the commands |
| Plotter.AppManager.Run2D | web_client/js/main.js:25-26 | a 2D plotter's state becomes the fold of `Dispatch2D` over the commands; its aspect stays |
| Plotter.AppManager.Run3D | web_client/js/main.js:25-26 | a 3D plotter's state becomes the fold of `Dispatch3D` over the commands |
| Plotter.AppManager.CreatePlotter | web_client/js/main.js:29-70 | throws exactly when the active plotter is 2D, which stays with a cleared registry; otherwise the old plotter is destroyed and a fresh one of the requested kind built |
| Plotter.AppManager.CreatePlotterIntended | web_client/js/main.js:29-70 | the old plotter is cleared and a fresh one of the requested kind is built in its initial state |
| Plotter.AppManager.Build | web_client/js/main.js:37-69 | a fresh plotter of the requested kind is active, in its initial state |
| Plotter.AppManager.DestroyActive | web_client/js/main.js:30-32 | the active plotter's registry is cleared; it throws exactly when that plotter is 2D |
| Plotter.InitialValid | web_client/js/main.js:539-600 | the initial 2D state and the empty registry are valid |

## Left out

- Rendering and the DOM are not modelled (Three.js objects, `ObjectFactory`, materials, HTML templates, tooltips, the crosshair, axis label elements). Scene objects are abstract handles, and a plotter's heading is a string.
- Timing is not modelled (`animate`, `requestAnimationFrame`, the `setInterval` monitor, `Date.now` throttling of `fitViewToData`). The `steady_timer` of the auto flush becomes the `TimerRequest` that `SetAutoUpdatePolicy` returns.
- The network and protobuf are not modelled: websocketpp, `run`, `stop`, `on_open`, `on_close`, `ConnectionManager`, `to_proto`, `clone_to_shared`, the `populate_*` functions. Sends are appends to an outbox.
- The connection table's keys, in map order, are an environment input set by `SetConnections`.
- `get_connected_windows` and `send_window_command` are not modelled. They only read the connection table or send through it.
- The server mutex is not modelled; every operation is atomic. `remove_window` locks the mutex and then calls `clear`, which locks it again. `RemoveWindow` models the intended atomic clear instead of that self-deadlock.
- A `weak_ptr` is a liveness flag. `Release` marks an object whose last owner let it go. Address reuse after a release is not modelled, so the stale pointer-map entry of an expired object never aliases a new object.
- Unordered containers are iterated in an order that is not fixed. The model returns the visiting order (`order`, `cleaned`, `removed`, `flushed`) and states every result for any such order.
- The `flush_dirty_set_*` functions index the dirty map with `operator[]`, which creates an empty entry for an unseen window. The model treats a missing entry as an empty set and does not create it.
- Server.ServerImpl.AddCopy: always clones the object. The model does not check which geometry types `clone_to_shared` supports.
- Server.ServerImpl.RemoveEach: states the table updates only. Detaching each live object's observer is stated per id by `RemoveObjectInternal`.
- The 64-bit `m_next_object_id` and the window index are unbounded and never wrap.
- The conversion of the `int` threshold to `size_t` is modelled (`SizeT`). The dirty-set size is assumed below 2^32 in `NegativeThresholdNeverFlushes`.
- Floating point is exact reals: float32 on the backend, IEEE doubles in the browser. `Math.log10` becomes the exponent characterised by `FloorLog10`.
- DynamicGrid.FrameCoversView: the first and last lines cover the extended frame only up to `RoundingSlack`, and the view's own edges only for a span of at least `MinSpan`, because each line position is rounded to 8 decimal places.
- The grid's vertex loop steps `x += interval` in floating point. The model takes the exact multiples of the interval from the first to the last index, rounded to 8 places as the code does.
- `CoordinateSystem` assumes a canvas of positive width and height. A zero-size canvas, which would divide by zero in the browser, is not modelled.
- Zoom: `camera.zoom || 1` replaces a zoom of 0 and a NaN zoom by 1, so neither is rejected. The model follows the code here.
- The web client keeps one active plotter and rebuilds it when the update type changes; it is not a manager of several windows. The model follows the code.
- Window indices (`window_idx`) in the messages are not modelled. Window names and ids are strings.
- The `Window2D` property setters and getters are not modelled: `window_2d.h` is not part of this model. Its constructor is modelled from `window_2d.cpp`.
- `vis_stream.h`, `typed_window.h`, `window_base.h`, `main.cpp`, `server_applet.py` and the example programs are not part of this model. They hold declarations, forwarding wrappers, demo drivers and a tray applet.
- The Box2D corner rotation and 3D geometry building are not modelled (trigonometry inside the rendering library). `Creates3D` abstracts which geometries the 3D factory can build.

## Findings

| source | as written | input that shows it | evidently intended | confidence | as-written member | corrected member |
|---|---|---|---|---|---|---|
| web_client/js/main.js:856 | `Plotter2D.destroy` calls `this.dynamicGrid.destroy()`, but `DynamicGrid` has no `destroy`, so it throws a `TypeError` after clearing the registry | a 2D update, then a 3D update: `createPlotter` throws before building the 3D plotter, `handleUpdate` runs no command, and the cleared 2D plotter stays active for good | the old plotter is destroyed and a 3D plotter is built and runs the update | not executed | Plotter.TwoDPlotterIsNeverReplaced | Plotter.AppManager.HandleUpdateIntended |
