/** A window: its geometry and title, its table of user event handlers, the
    translation of the backend's native callbacks into named events, and the
    process-wide registry of every window ever constructed. */
module Windowing {
  import opened Effects

  /** The backend's action codes for keys and mouse buttons. */
  const RELEASE: int := 0
  const PRESS: int := 1
  const REPEAT: int := 2

  /** The named events a window dispatches, one dispatcher `on_...` each. */
  datatype EventKind =
    | Draw | Resize | Close | KeyPress | KeyRelease | MousePress | MouseRelease
    | MouseMotion | MouseScroll | GainFocus | LoseFocus | Show | Hide

  /** The dispatcher's name, which is also the name a handler must carry. */
  function EventName(k: EventKind): string
  {
    match k
    case Draw => "on_draw"
    case Resize => "on_resize"
    case Close => "on_close"
    case KeyPress => "on_key_press"
    case KeyRelease => "on_key_release"
    case MousePress => "on_mouse_press"
    case MouseRelease => "on_mouse_release"
    case MouseMotion => "on_mouse_motion"
    case MouseScroll => "on_mouse_scroll"
    case GainFocus => "on_gain_focus"
    case LoseFocus => "on_lose_focus"
    case Show => "on_show"
    case Hide => "on_hide"
  }

  /** The number of parameters of the dispatcher (without `self`). */
  function EventArity(k: EventKind): nat
  {
    match k
    case Draw | Close | GainFocus | LoseFocus | Show | Hide => 0
    case Resize | KeyPress | KeyRelease | MouseMotion => 2
    case MousePress | MouseRelease | MouseScroll => 4
  }

  /** A named event together with the arguments its dispatcher receives. */
  datatype Signal = Signal(kind: EventKind, args: seq<Value>)

  /** What `getattr(window, name)` yields: a bound method with the given
      number of parameters, or a value that has no signature. */
  datatype Attribute = Method(params: nat) | Data

  /** Every attribute a window has once constructed, apart from those it
      inherits from `object`: the instance fields, the class-level registry,
      the five properties and all methods with their bound arities. This is
      the set of names `hasattr` accepts at registration. */
  const WindowAttributes: map<string, Attribute> := map[
    "_x" := Data, "_y" := Data, "_width" := Data, "_height" := Data, "_title" := Data,
    "event_handlers" := Data, "glfw_window" := Data, "mouse_inside" := Data,
    "window_instances" := Data,
    "x" := Data, "y" := Data, "width" := Data, "height" := Data, "title" := Data,
    "__init__" := Method(3), "clear" := Method(1), "close" := Method(0),
    "event" := Method(1), "update" := Method(0), "register_window" := Method(1),
    "on_draw" := Method(0), "on_resize" := Method(2), "on_close" := Method(0),
    "on_key_press" := Method(2), "on_key_release" := Method(2),
    "on_mouse_press" := Method(4), "on_mouse_release" := Method(4),
    "on_mouse_motion" := Method(2), "on_mouse_scroll" := Method(4),
    "on_gain_focus" := Method(0), "on_lose_focus" := Method(0),
    "on_show" := Method(0), "on_hide" := Method(0),
    "key_callback" := Method(5), "mouse_button_callback" := Method(4),
    "cursor_position_callback" := Method(3), "scroll_callback" := Method(3),
    "resize_callback" := Method(3), "close_callback" := Method(1),
    "focus_callback" := Method(2), "iconify_callback" := Method(2),
    "maximize_callback" := Method(2)
  ]

  /** Each dispatcher is an attribute of the window, and the arity a
      registration is checked against is the dispatcher's own. */
  lemma EventNamesAreMethods(k: EventKind)
    ensures EventName(k) in WindowAttributes
    ensures WindowAttributes[EventName(k)] == Method(EventArity(k))
  {
    match k
    case Draw =>
    case Resize =>
    case Close =>
    case KeyPress =>
    case KeyRelease =>
    case MousePress =>
    case MouseRelease =>
    case MouseMotion =>
    case MouseScroll =>
    case GainFocus =>
    case LoseFocus =>
    case Show =>
    case Hide =>
  }

  /** The invariant of a window's handler table: every handler is stored
      under its own name, which names a method of the window whose arity the
      handler has. */
  ghost predicate WellFormedHandlers(handlers: map<string, Handler>)
  {
    forall n :: n in handlers ==>
      handlers[n].name == n && n in WindowAttributes && WindowAttributes[n] == Method(handlers[n].arity)
  }

  /** The checks of `Window.event`, in order: the name must be an attribute,
      must not be registered yet, must have a signature, and the handler
      must take as many parameters as that signature. */
  function Validate(handlers: map<string, Handler>, func: Handler): (r: Option<RegistrationError>)
    ensures r.None? <==>
      func.name in WindowAttributes && func.name !in handlers && WindowAttributes[func.name] == Method(func.arity)
    ensures func.name !in WindowAttributes ==> r == Some(UnknownEvent(func.name))
    ensures func.name in WindowAttributes && func.name in handlers ==> r == Some(AlreadyRegistered(func.name))
    ensures (func.name in WindowAttributes && func.name !in handlers && WindowAttributes[func.name].Data?)
      ==> r == Some(NotCallable(func.name))
    ensures (func.name in WindowAttributes && func.name !in handlers && WindowAttributes[func.name].Method?
             && WindowAttributes[func.name].params != func.arity)
      ==> r == Some(ArityMismatch(func.name, WindowAttributes[func.name].params, func.arity))
  {
    if func.name !in WindowAttributes then Some(UnknownEvent(func.name))
    else if func.name in handlers then Some(AlreadyRegistered(func.name))
    else match WindowAttributes[func.name]
      case Data => Some(NotCallable(func.name))
      case Method(n) => if func.arity != n then Some(ArityMismatch(func.name, n, func.arity)) else None
  }

  /** What `close()` does: destroy this window, then shut the whole backend
      down (every other window with it). */
  function CloseEffects(window: Handle): seq<Effect>
  {
    [DestroyWindow(window), TerminateBackend]
  }

  /** The dispatcher for an event: the registered handler is called with the
      arguments as given, and nothing happens without one, except that an
      unhandled close runs `close()`. */
  function Dispatch(handlers: map<string, Handler>, window: Handle, e: Signal): (r: seq<Effect>)
    ensures EventName(e.kind) in handlers ==> r == [Invoke(handlers[EventName(e.kind)], e.args)]
    ensures EventName(e.kind) !in handlers ==> forall i :: 0 <= i < |r| ==> !r[i].Invoke?
    ensures r != [] ==> EventName(e.kind) in handlers || e.kind == Close
    ensures TerminateBackend in r <==> e.kind == Close && "on_close" !in handlers
  {
    var name := EventName(e.kind);
    if name in handlers then [Invoke(handlers[name], e.args)]
    else if e.kind == Close then CloseEffects(window)
    else []
  }

  /** The inputs of the backend's native callbacks (the window argument
      they all carry is the window itself and is left implicit). */
  datatype NativeCallback =
    | KeyInput(key: int, scancode: int, action: int, mods: int)
    | MouseButtonInput(button: int, buttonAction: int, buttonMods: int)
    | CursorMoved(xpos: real, ypos: real)
    | Scrolled(xoffset: real, yoffset: real)
    | Resized(newWidth: int, newHeight: int)
    | CloseRequested
    | FocusChanged(focused: bool)
    | Iconified(iconified: bool)
    | Maximized(maximized: bool)

  /** The translators `key_callback` ... `maximize_callback`: at most one
      named event per native callback. `cursor` is the cursor position the
      backend reports when mouse-button and scroll callbacks ask for it. */
  function Translate(cb: NativeCallback, cursor: (real, real)): (r: Option<Signal>)
    ensures r.Some? ==> |r.value.args| == EventArity(r.value.kind)
    ensures cb.KeyInput? ==>
      && (r == Some(Signal(KeyPress, [IntV(cb.key), IntV(cb.mods)])) <==> cb.action == PRESS)
      && (r == Some(Signal(KeyRelease, [IntV(cb.key), IntV(cb.mods)])) <==> cb.action == RELEASE)
      && (r.None? <==> cb.action != PRESS && cb.action != RELEASE)
    ensures cb.KeyInput? && cb.action == REPEAT ==> r.None?
    ensures cb.MouseButtonInput? ==>
      var args := [RealV(cursor.0), RealV(cursor.1), IntV(cb.button), IntV(cb.buttonMods)];
      && (r == Some(Signal(MousePress, args)) <==> cb.buttonAction == PRESS)
      && (r == Some(Signal(MouseRelease, args)) <==> cb.buttonAction == RELEASE)
      && (r.None? <==> cb.buttonAction != PRESS && cb.buttonAction != RELEASE)
    ensures cb.FocusChanged? ==> r.Some? && r.value.kind == (if cb.focused then GainFocus else LoseFocus)
    ensures cb.Iconified? ==> r.Some? && r.value.kind == (if cb.iconified then Hide else Show)
    ensures cb.Maximized? ==> r.Some? && r.value.kind == (if cb.maximized then Show else Hide)
    ensures cb.CursorMoved? ==> r == Some(Signal(MouseMotion, [RealV(cb.xpos), RealV(cb.ypos)]))
    ensures cb.Scrolled? ==>
      r == Some(Signal(MouseScroll, [RealV(cursor.0), RealV(cursor.1), RealV(cb.xoffset), RealV(cb.yoffset)]))
    ensures cb.Resized? ==> r == Some(Signal(Resize, [IntV(cb.newWidth), IntV(cb.newHeight)]))
    ensures cb.CloseRequested? ==> r == Some(Signal(Close, []))
    ensures !cb.KeyInput? && !cb.MouseButtonInput? ==> r.Some?
  {
    match cb
    case KeyInput(key, _, action, mods) =>
      if action == PRESS then Some(Signal(KeyPress, [IntV(key), IntV(mods)]))
      else if action == RELEASE then Some(Signal(KeyRelease, [IntV(key), IntV(mods)]))
      else None
    case MouseButtonInput(button, action, mods) =>
      var args := [RealV(cursor.0), RealV(cursor.1), IntV(button), IntV(mods)];
      if action == PRESS then Some(Signal(MousePress, args))
      else if action == RELEASE then Some(Signal(MouseRelease, args))
      else None
    case CursorMoved(xpos, ypos) => Some(Signal(MouseMotion, [RealV(xpos), RealV(ypos)]))
    case Scrolled(xoffset, yoffset) =>
      Some(Signal(MouseScroll, [RealV(cursor.0), RealV(cursor.1), RealV(xoffset), RealV(yoffset)]))
    case Resized(w, h) => Some(Signal(Resize, [IntV(w), IntV(h)]))
    case CloseRequested => Some(Signal(Close, []))
    case FocusChanged(focused) => Some(Signal(if focused then GainFocus else LoseFocus, []))
    case Iconified(iconified) => Some(Signal(if iconified then Hide else Show, []))
    case Maximized(maximized) => Some(Signal(if maximized then Show else Hide, []))
  }

  /** A native callback delivered to a window: translate it, then dispatch. */
  function Deliver(handlers: map<string, Handler>, window: Handle, cb: NativeCallback, cursor: (real, real)): seq<Effect>
  {
    match Translate(cb, cursor)
    case None => []
    case Some(e) => Dispatch(handlers, window, e)
  }

  /** With a well-formed handler table, every handler a native callback
      reaches is called with exactly as many arguments as it declares. */
  lemma DeliverMatchesArity(handlers: map<string, Handler>, window: Handle, cb: NativeCallback, cursor: (real, real))
    requires WellFormedHandlers(handlers)
    ensures forall eff :: eff in Deliver(handlers, window, cb, cursor) && eff.Invoke? ==>
      eff.handler in handlers.Values && |eff.args| == eff.handler.arity
  {
    match Translate(cb, cursor)
    case None =>
    case Some(e) =>
      EventNamesAreMethods(e.kind);
  }

  /** An unhandled close tears the backend down; a handled one only calls
      the handler. */
  lemma CloseCallback(handlers: map<string, Handler>, window: Handle, cursor: (real, real))
    ensures Deliver(handlers, window, CloseRequested, cursor) ==
      if "on_close" in handlers then [Invoke(handlers["on_close"], [])]
      else [DestroyWindow(window), TerminateBackend]
  {
  }

  /** One frame of `Window.update`: bind the context, draw, swap, poll. */
  function Frame(window: Handle, handlers: map<string, Handler>): (r: seq<Effect>)
    ensures r == [MakeContextCurrent(window)]
                 + (if "on_draw" in handlers then [Invoke(handlers["on_draw"], [])] else [])
                 + [SwapBuffers(window), PollEvents]
  {
    [MakeContextCurrent(window)] + Dispatch(handlers, window, Signal(Draw, [])) + [SwapBuffers(window), PollEvents]
  }

  /** The native callbacks a new window installs, in installation order. */
  function InstallCallbacks(window: Handle): seq<Effect>
  {
    [SetCallback(window, KeySlot), SetCallback(window, MouseButtonSlot), SetCallback(window, CursorPosSlot),
     SetCallback(window, WindowSizeSlot), SetCallback(window, WindowCloseSlot), SetCallback(window, WindowFocusSlot),
     SetCallback(window, WindowIconifySlot), SetCallback(window, WindowMaximizeSlot), SetCallback(window, ScrollSlot)]
  }

  /** Why a window cannot do what was asked of it. */
  datatype WindowError =
    | InitFailed         // the backend did not initialise
    | CreateFailed       // the backend created no native window
    | NoNativeWindow     // the window has no native handle to act on

  /** The process-wide list of windows, in construction order. */
  class Registry {
    var instances: seq<Window>

    constructor ()
      ensures instances == []
    {
      instances := [];
    }

    method Register(w: Window)
      modifies this
      ensures instances == old(instances) + [w]
    {
      instances := instances + [w];
    }
  }

  class Window {
    var x: real
    var y: real
    var width: real
    var height: real
    var title: string
    var eventHandlers: map<string, Handler>
    var handle: Option<Handle>

    ghost predicate Valid()
      reads this
    {
      WellFormedHandlers(eventHandlers)
    }

    /** The part of construction before the backend is involved: the
        fields, then registration. */
    constructor (registry: Registry, width: real, height: real, title: string)
      modifies registry
      ensures Valid()
      ensures x == 0.0 && y == 0.0 && this.width == width && this.height == height && this.title == title
      ensures eventHandlers == map[] && handle.None?
      ensures registry.instances == old(registry.instances) + [this]
    {
      x, y := 0.0, 0.0;
      this.width, this.height, this.title := width, height, title;
      eventHandlers := map[];
      handle := None;
      new;
      registry.Register(this);
    }

    /** The backend part of construction; `initOk` and `created` are the
        backend's answers to initialisation and to window creation. */
    method Initialize(initOk: bool, created: Option<Handle>) returns (r: Result<Handle, WindowError>, effects: seq<Effect>)
      modifies this`handle
      ensures !initOk ==> r == Err(InitFailed) && effects == [InitBackend] && handle == old(handle)
      ensures initOk ==> handle == created
      ensures initOk && created.None? ==>
        r == Err(CreateFailed) && effects == [InitBackend, CreateWindow(width, height, title)]
      ensures initOk && created.Some? ==>
        && r == Ok(created.value)
        && effects == [InitBackend, CreateWindow(width, height, title), MakeContextCurrent(created.value),
                       Ortho(0.0, width, height, 0.0, -1.0, 1.0)] + InstallCallbacks(created.value)
    {
      effects := [InitBackend];
      if !initOk {
        return Err(InitFailed), effects;
      }
      effects := effects + [CreateWindow(width, height, title)];
      handle := created;
      if created.None? {
        return Err(CreateFailed), effects;
      }
      var h := created.value;
      effects := effects + [MakeContextCurrent(h), Ortho(0.0, width, height, 0.0, -1.0, 1.0)];
      effects := effects + InstallCallbacks(h);
      r := Ok(h);
    }

    /** `Window.event`: validate, then insert under the handler's name. On
        success the handler itself is returned. */
    method Event(func: Handler) returns (r: Result<Handler, RegistrationError>, effects: seq<Effect>)
      requires Valid()
      modifies this`eventHandlers
      ensures Valid()
      ensures r.Ok? <==> Validate(old(eventHandlers), func).None?
      ensures r.Ok? ==> r.value == func && eventHandlers == old(eventHandlers)[func.name := func]
      ensures r.Ok? ==> effects == [Log("event " + func.name + " registered")]
      ensures r.Err? ==> Validate(old(eventHandlers), func) == Some(r.error)
      ensures r.Err? ==> eventHandlers == old(eventHandlers) && effects == []
    {
      var failure := Validate(eventHandlers, func);
      if failure.Some? {
        return Err(failure.value), [];
      }
      effects := [Log("event " + func.name + " registered")];
      eventHandlers := eventHandlers[func.name := func];
      r := Ok(func);
    }

    /** The native callbacks of this window: dispatch to this window's
        handlers. The backend only calls them once the window exists. */
    function OnCallback(cb: NativeCallback, cursor: (real, real)): (r: seq<Effect>)
      reads this
      requires Valid() && handle.Some?
      ensures forall eff :: eff in r && eff.Invoke? ==>
        eff.handler in eventHandlers.Values && |eff.args| == eff.handler.arity
    {
      DeliverMatchesArity(eventHandlers, handle.value, cb, cursor);
      Deliver(eventHandlers, handle.value, cb, cursor)
    }

    /** `Window.update`: one frame for this window. */
    function Update(): (r: Result<seq<Effect>, WindowError>)
      reads this
      ensures handle.None? ==> r == Err(NoNativeWindow)
      ensures handle.Some? ==> r == Ok(Frame(handle.value, eventHandlers))
    {
      if handle.None? then Err(NoNativeWindow) else Ok(Frame(handle.value, eventHandlers))
    }

    method SetX(value: real) returns (r: Result<Effect, WindowError>)
      modifies this`x
      ensures x == value
      ensures r == if handle.Some? then Ok(SetWindowPos(handle.value, Trunc(value), Trunc(y))) else Err(NoNativeWindow)
    {
      x := value;
      r := if handle.Some? then Ok(SetWindowPos(handle.value, Trunc(x), Trunc(y))) else Err(NoNativeWindow);
    }

    method SetY(value: real) returns (r: Result<Effect, WindowError>)
      modifies this`y
      ensures y == value
      ensures r == if handle.Some? then Ok(SetWindowPos(handle.value, Trunc(x), Trunc(value))) else Err(NoNativeWindow)
    {
      y := value;
      r := if handle.Some? then Ok(SetWindowPos(handle.value, Trunc(x), Trunc(y))) else Err(NoNativeWindow);
    }

    method SetWidth(value: real) returns (r: Result<Effect, WindowError>)
      modifies this`width
      ensures width == value
      ensures r == if handle.Some? then Ok(SetWindowSize(handle.value, Trunc(value), Trunc(height))) else Err(NoNativeWindow)
    {
      width := value;
      r := if handle.Some? then Ok(SetWindowSize(handle.value, Trunc(width), Trunc(height))) else Err(NoNativeWindow);
    }

    method SetHeight(value: real) returns (r: Result<Effect, WindowError>)
      modifies this`height
      ensures height == value
      ensures r == if handle.Some? then Ok(SetWindowSize(handle.value, Trunc(width), Trunc(value))) else Err(NoNativeWindow)
    {
      height := value;
      r := if handle.Some? then Ok(SetWindowSize(handle.value, Trunc(width), Trunc(height))) else Err(NoNativeWindow);
    }

    method SetTitle(value: string) returns (r: Result<Effect, WindowError>)
      modifies this`title
      ensures title == value
      ensures r == if handle.Some? then Ok(SetWindowTitle(handle.value, value)) else Err(NoNativeWindow)
    {
      title := value;
      r := if handle.Some? then Ok(SetWindowTitle(handle.value, title)) else Err(NoNativeWindow);
    }
  }

  /** A whole `Window(...)` construction: fields, registration, backend.
      The window is registered even when the backend fails. */
  method Open(registry: Registry, width: real, height: real, title: string, initOk: bool, created: Option<Handle>)
    returns (w: Window, r: Result<Handle, WindowError>, effects: seq<Effect>)
    modifies registry
    ensures fresh(w) && w.Valid() && w.eventHandlers == map[]
    ensures w.x == 0.0 && w.y == 0.0 && w.width == width && w.height == height && w.title == title
    ensures registry.instances == old(registry.instances) + [w]
    ensures r.Ok? <==> initOk && created.Some?
    ensures r.Ok? ==> w.handle == created == Some(r.value)
    ensures r.Err? ==> r.error == (if initOk then CreateFailed else InitFailed) && w.handle.None?
    ensures !initOk ==> effects == [InitBackend]
    ensures initOk && created.None? ==> effects == [InitBackend, CreateWindow(width, height, title)]
    ensures initOk && created.Some? ==>
      effects == [InitBackend, CreateWindow(width, height, title), MakeContextCurrent(created.value),
                  Ortho(0.0, width, height, 0.0, -1.0, 1.0)] + InstallCallbacks(created.value)
  {
    w := new Window(registry, width, height, title);
    r, effects := w.Initialize(initOk, created);
  }
}
