# PythonGameEngine core, modelled in Dafny

PythonGameEngine is a small 2-D engine on top of GLFW and OpenGL. This
project models its sequential core in three modules, plus one shared module.

- **`Application`** (`app.dfy`): the event loop `App`.
  - One tick (`App.update`) runs the variable-rate handler once, with the elapsed time.
  - It then drains the accumulator in whole fixed steps, one fixed-rate handler call per step.
  - Then it sleeps `1/fps` and pumps every registered window in registration order.
  - `App.event` registers the two update handlers, `App.params` retunes the loop, and `App.run` repeats the tick.
- **`Windowing`** (`window.dfy`): a `Window`, which has five parts.
  - Geometry and title, with setters that push the new geometry to the backend.
  - A table of user event handlers, filled through `Window.event`.
  - The `on_*` dispatchers and the `*_callback` translators, which turn native callbacks into at most one named event.
  - The frame that `Window.update` produces.
  - The process-wide `window_instances` list, modelled as a `Registry`.
- **`Drawables`** (`shapes.dfy`): a `Shape` joins a `Batch` only when it is constructed, and `Batch.draw` draws each member once.
- **`Effects`** (`effects.dfy`): the shared vocabulary.
  - Handlers, argument values, and the effects of the core.
  - An effect is a backend call, a handler call, a log line or a sleep.
  - Python's `int()` on a number.

The backend is not modelled. Each call into GLFW or OpenGL is recorded as an
`Effect`. Each answer the backend gives is an input:
- whether `glfw.init()` succeeded;
- the handle `glfw.create_window` returned;
- the cursor position;
- the clock readings of `time.time()`.

Time is a `real` number of seconds. A user function is a `Handler`: its
`__name__`, the number of parameters in its signature, and an identity.

Other modelling choices:
- Python's reflection is replaced by an explicit table, `WindowAttributes`.
  - `hasattr` and `inspect.signature` in `Window.event` become lookups in that table.
  - The table holds the attributes of a fully initialised window (fields, properties, the class-level list and all methods), each with its bound arity.
  - So `Window.event` accepts any method name, not only the `on_*` dispatchers, as the code does.
  - A property name is found by `hasattr` but has no signature; the model reports that case as `NotCallable`.
- A Python exception becomes an `Err` result. A failed `event` changes nothing.
- The drain loop of `App.update` never ends when the interval is not positive and the accumulator is at least the interval. The model's `App.Update` therefore requires that this is not the case (`DrainTerminates`). `App.Run` reports `Hangs` instead of entering such a tick.
- `Window.update` changes no state. A frame is three backend calls and one dispatch: make-current, the user's `on_draw`, swap buffers, poll events. So it is a reads-only function that returns its frame. It fails for a window that has no native window, because the backend was not initialised or created none.
- A run of `App.run` is specified by the function `RunFrom`, which takes the clock readings one at a time. A run is also related to its `Schedule`, the ticks the clock readings make (elapsed time, fixed steps, accumulator). Every tick pumps the same windows, since no tick changes a window.

## Model

| member | source | states |
|---|---|---|
| Effects.Trunc | GameEngine/window.py:72 | `int(x)` truncates toward zero: the result lies within one of `x`, on the same side of zero |
| Application.Validate | GameEngine/app.py:23-40 | the checks run in the order name, duplicate, arity: a name other than `on_update`/`on_fix_update` gives `NotAllowed`; otherwise a name already registered gives `AlreadyRegistered`; otherwise an arity other than 1 gives `ArityMismatch`; acceptance holds exactly when all three pass |
| Application.App.constructor | GameEngine/app.py:8-17 | a new app is running, with the given interval and fps, the construction time as its clock, an empty accumulator and no handlers |
| Application.App.Params | GameEngine/app.py:19-21 | an absent argument keeps its field; a given one replaces it |
| Application.App.Event | GameEngine/app.py:23-44 | success exactly when the checks pass; then the table gains the one entry `name -> func`, `func` is returned and the confirmation line is logged; on failure the table is unchanged, nothing is logged, and the error is the first failing check; the table stays well formed |
| Application.OnUpdate | GameEngine/app.py:62-64 | one call of the registered `on_update` handler with `dt`, none without a handler |
| Application.OnFixUpdate | GameEngine/app.py:66-68 | one call of the registered `on_fix_update` handler with the nominal interval, whatever `fdt` is; none without a handler |
| Application.FixedCalls | GameEngine/app.py:54-56 | `steps` fixed steps make `steps` calls (none without a handler), each with the nominal interval |
| Application.TickCallOrder | GameEngine/app.py:53-56 | in a tick's handler calls the variable-rate handler comes first and exactly once, with `dt`; every later call is a fixed-rate call with the nominal interval, never the variable-rate handler |
| Application.Drain | GameEngine/app.py:51-56 | the drain loop leaves `total - steps * interval`, which is below the interval, and not negative when `total` is not negative; with less than one interval it takes no step |
| Application.DrainSteps | GameEngine/app.py:51-56 | with a positive interval and a total of at least 0 the number of fixed steps is `floor(total / interval)` |
| Application.DrainExample | GameEngine/app.py:54-56 | an interval of 0.02 and a total of 0.05 give two steps and leave 0.01 |
| Application.App.DrainAccumulator | GameEngine/app.py:54-56 | the loop takes exactly `Drain`'s steps, leaves exactly `Drain`'s remainder, and makes one fixed-rate call per step |
| Application.Pump | GameEngine/app.py:59-60 | the windows are updated in registration order, each once, as a prefix of the registry; the pump covers the whole registry unless it stops at a window without a native window; one frame is returned per updated window, that window's own |
| Application.App.Update | GameEngine/app.py:46-60 | the clock advances to `now`; the step count and the new accumulator are `Drain` of the old accumulator plus `dt`, so the accumulator ends in `[0, interval)` when the interval is positive and the total is not negative; the effects are the variable-rate call, the fixed-rate calls, the sleep of `1/fps` and the frames of the updated windows, in that order; `fps == 0` fails with division by zero and negative `fps` with a negative sleep, both before any window is pumped |
| Application.Schedule | GameEngine/app.py:46-56 | a run's ticks, one per clock reading: with a positive interval every reading makes a tick, and every tick leaves the accumulator below the interval |
| Application.ScheduleBounded | GameEngine/app.py:47-56 | with a positive interval, an accumulator of at least 0 and a clock that never goes back, every tick has a non-negative elapsed time, takes `floor((acc + dt) / interval)` fixed steps and leaves the accumulator in `[0, interval)` |
| Application.RunEnds | GameEngine/app.py:46-72 | a run raises exactly when it makes a tick while `fps` is not positive or some window has no native window, and then after one tick with the error of the first failing step (zero division, negative sleep, missing window); a run that ends normally has used every clock reading; the final clock is that of the last tick; a run without ticks has no effects |
| Application.RunFollowsSchedule | GameEngine/app.py:46-72 | every run makes the ticks of its schedule, only the first when ticks fail; its effects are those ticks' effects one after another (handler calls, sleep, frames); it raises as above, hangs exactly when the schedule stops short of the clock, and otherwise uses up the clock |
| Application.RunKeepsAccumulatorBound | GameEngine/app.py:51-56 | with a positive interval, a clock that never goes back and an accumulator in `[0, interval)`, a run leaves the accumulator in `[0, interval)` |
| Application.App.RunTick | GameEngine/app.py:46-60 | one tick of the loop is the first step of the rest of the run: it yields the tick's effects and either raises or continues with the run from the new clock and accumulator; it fails exactly when `fps` is not positive or a window has no native window |
| Application.App.RunLoop | GameEngine/app.py:71-72 | the loop's effects, tick count, outcome, final clock and accumulator are those of `RunFrom` on the clock readings |
| Application.App.Run | GameEngine/app.py:70-72 | a stopped app does nothing; a running one does exactly what `RunFrom` says for its handlers, interval, fps, the frames its windows yield and whether all of them are open |
| Windowing.EventNamesAreMethods | GameEngine/window.py:127-179 | every dispatcher is a method of the window, and its arity is 0, 2 or 4 as its parameter list says |
| Windowing.Validate | GameEngine/window.py:102-115 | the checks run in the order attribute exists, not yet registered, has a signature, arity matches: `UnknownEvent`, then `AlreadyRegistered`, then `NotCallable`, then `ArityMismatch` with the expected and the actual arity; acceptance holds exactly when all pass |
| Windowing.Window.Event | GameEngine/window.py:102-119 | success exactly when the checks pass; then the table gains the one entry `name -> func`, `func` is returned and the confirmation line is logged; on failure the table is unchanged, nothing is logged, and the error is the first failing check; the table stays well formed |
| Windowing.Dispatch | GameEngine/window.py:127-179 | a registered handler is called once, with the event's arguments unchanged; without one no handler is called and nothing happens, except for close; the backend is terminated exactly for an unhandled close |
| Windowing.CloseCallback | GameEngine/window.py:135-139 | a native close runs the `on_close` handler if there is one, and otherwise destroys the window and terminates the backend |
| Windowing.Translate | GameEngine/window.py:186-229 | a key or mouse-button action translates to the press event exactly when it is PRESS, to the release event exactly when it is RELEASE, and to nothing otherwise, so a key repeat makes no event; focus maps to gain/lose focus, iconify to hide/show, maximize to show/hide; cursor, scroll, resize and close callbacks always translate, passing their arguments unchanged; every event carries as many arguments as its dispatcher takes |
| Windowing.DeliverMatchesArity | GameEngine/window.py:186-229 | with a well-formed handler table, every handler a native callback reaches is a registered one and is called with exactly as many arguments as it declares |
| Windowing.Window.OnCallback | GameEngine/window.py:185-229 | the callbacks of a window only ever call the window's own handlers, each with as many arguments as it declares |
| Windowing.Frame | GameEngine/window.py:121-125 | a frame is make-current, then the `on_draw` handler if registered, then swap buffers, then poll events |
| Windowing.Window.Update | GameEngine/window.py:121-125 | a window with a native window produces its frame; one without fails |
| Windowing.Registry.constructor | GameEngine/window.py:11 | the registry starts empty |
| Windowing.Registry.Register | GameEngine/window.py:181-183 | registration appends the window at the end and changes nothing else |
| Windowing.Window.constructor | GameEngine/window.py:13-21 | the fields take the given size and title at position (0, 0) with no handlers, and the window is appended to the registry before the backend is touched |
| Windowing.Window.Initialize | GameEngine/window.py:23-44 | a failed backend initialisation or window creation is an error after the calls made so far; on success the context is made current, the projection is set to the window's size, and the nine native callbacks are installed in order |
| Windowing.Open | GameEngine/window.py:13-47 | a constructed window is in the registry even when the backend fails; it has a native window exactly when initialisation and creation both succeeded; the backend calls are init, then create, then make-current, the projection and the nine callbacks, cut short at the first failure |
| Windowing.Window.SetX | GameEngine/window.py:84-87 | only `x` changes, and the backend receives the position `(int(x), int(y))` with the new `x` |
| Windowing.Window.SetY | GameEngine/window.py:89-92 | only `y` changes, and the backend receives the position `(int(x), int(y))` with the new `y` |
| Windowing.Window.SetWidth | GameEngine/window.py:69-72 | only `width` changes, and the backend receives the size `(int(width), int(height))` with the new width |
| Windowing.Window.SetHeight | GameEngine/window.py:74-77 | only `height` changes, and the backend receives the size `(int(width), int(height))` with the new height |
| Windowing.Window.SetTitle | GameEngine/window.py:79-82 | only `title` changes, and the backend receives the new title |
| Drawables.Shape.constructor | GameEngine/shape/shape.py:5-7 | a shape constructed with a batch is added to it, and nothing else joins; without a batch no batch changes |
| Drawables.Shape.Draw | GameEngine/shape/shape.py:9-10 | the base class's `draw` raises `NotImplementedError`; a concrete shape draws |
| Drawables.Batch.constructor | GameEngine/shape/batch.py:2-3 | a new batch has no shapes |
| Drawables.Batch.AddShape | GameEngine/shape/batch.py:5-6 | the set becomes the old set plus the shape; adding a present shape changes nothing |
| Drawables.Batch.Draw | GameEngine/shape/batch.py:8-10 | no shape is drawn twice and only members are drawn; the pass succeeds exactly when no member is a base shape, and then every member was drawn; otherwise it stops right after the first base shape it meets |

## Left out

- GLFW and OpenGL semantics: the backend calls are recorded as effects, and what they do on the screen is not modelled.
- Floating-point rounding: time, intervals, geometry and cursor positions are exact reals.
- The effects of the user handlers themselves: a handler call is recorded as a call, and what the handler does is not modelled.
- Handlers that raise: a user handler is assumed to return. So on_draw, on_update and the others never end a tick early.
- The attributes every Python object inherits from `object` (`__class__`, `__repr__`, ...) and those the class statement creates (`__dict__`, `__module__`, `__weakref__`, `__doc__`): the attribute table holds only the window's own attributes. `Window.event` with such a name fails in both, with another kind of error.
- WindowAttributes is the table of a fully initialised window. A window whose backend failed to initialise has neither `glfw_window` nor `mouse_inside`, and one whose creation failed has no `mouse_inside`. `Window.event` with those names fails in the source as an unknown event and in the model as `NotCallable`.
- Callbacks fired by `poll_events` (installed at GameEngine/window.py:36-44, bodies at 186-229): GLFW runs them inside the pump, so the user's key, mouse, focus and resize handlers and the teardown of an unhandled close happen inside `App.update`. They are not part of a frame's or a tick's trace. `Window.OnCallback` models each one on its own.
- `Window.mouse_inside` and `Window.clear`: neither is read or used by the rest of the core.
- Windows without a native window: a window whose backend failed to initialise has no `glfw_window` attribute, and one whose creation failed holds `None`. The model treats both as having no native window. `Window.update` and the setters then fail, after the setter has stored its field.
- `Window.close` is modelled only as the two effects an unhandled `on_close` produces.
- Windows constructed while the pump is running are not seen by `Pump`.
- App.Run: models the endless `while self.running` loop as one tick per reading of a finite clock. Nothing in the application clears `running`. The statement that the frames are the same in every tick rests on no tick changing a window, which holds because the poll-events callbacks are not modelled.
- Python truthiness: the focus, iconify and maximize flags are booleans.
- The drawings of `Rectangle` and `Circle` (vertex emission and trigonometry), the math helpers and the component classes: only which class a shape belongs to is kept.
- Drawing order: the model keeps "some order, each member once", because a Python set's iteration order is not specified.
- The default constructor arguments (800, 600, "Window") are the caller's to pass.
