/** Values shared by the event loop, the windows and the drawables: user
    callbacks, the arguments passed to them, and the effects the core has on
    the outside world (backend calls, handler calls, log lines, sleeping).
    The graphics backend is not modelled: each call into it is recorded as
    an `Effect`, and each answer it gives is an input. */
module Effects {

  datatype Option<+T> = None | Some(value: T)

  datatype Result<+T, +E> = Ok(value: T) | Err(error: E)

  /** A native window handle as the backend hands it out. */
  type Handle = nat

  /** An argument passed to a user callback. Key codes, buttons, modifier
      masks and sizes arrive as integers, cursor positions and scroll
      offsets as floating-point numbers. */
  datatype Value = IntV(i: int) | RealV(r: real)

  /** A user callback: its `__name__`, the number of parameters in its
      signature, and an identity that tells two functions of the same name
      apart. */
  datatype Handler = Handler(name: string, arity: nat, id: nat)

  /** The native callback slots a window installs, in installation order. */
  datatype CallbackSlot =
    | KeySlot | MouseButtonSlot | CursorPosSlot | WindowSizeSlot | WindowCloseSlot
    | WindowFocusSlot | WindowIconifySlot | WindowMaximizeSlot | ScrollSlot

  datatype Effect =
    | Invoke(handler: Handler, args: seq<Value>)   // a user callback is called
    | Log(line: string)                            // a confirmation line is printed
    | Sleep(seconds: real)                         // the loop blocks for a while
    | InitBackend
    | TerminateBackend
    | CreateWindow(width: real, height: real, title: string)
    | DestroyWindow(window: Handle)
    | MakeContextCurrent(window: Handle)
    | Ortho(left: real, right: real, bottom: real, top: real, near: real, far: real)
    | SetCallback(window: Handle, slot: CallbackSlot)
    | SwapBuffers(window: Handle)
    | PollEvents
    | SetWindowSize(window: Handle, sizeX: int, sizeY: int)
    | SetWindowPos(window: Handle, posX: int, posY: int)
    | SetWindowTitle(window: Handle, newTitle: string)

  /** Why a registration through `App.event` or `Window.event` is refused. */
  datatype RegistrationError =
    | NotAllowed(name: string)                    // App: not an update event
    | UnknownEvent(name: string)                  // Window: no such attribute
    | AlreadyRegistered(name: string)
    | NotCallable(name: string)                   // Window: attribute has no signature
    | ArityMismatch(name: string, expected: nat, actual: nat)

  /** Python's `int(x)` on a number: truncation toward zero. */
  function Trunc(x: real): (r: int)
    ensures x >= 0.0 ==> r >= 0 && r as real <= x < r as real + 1.0
    ensures x < 0.0 ==> r <= 0 && r as real - 1.0 < x <= r as real
  {
    if x >= 0.0 then x.Floor else -((-x).Floor)
  }
}
