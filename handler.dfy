/**
  The presentation state machine of the minimizable panel (`MinimizableViewHandler`).

  The handler keeps two flags, `isPresented` and `isMinimized`. Each assignment to either
  flag runs that flag's `didSet` observer, and the observer calls one of four optional
  lifecycle callbacks. The model records a callback invocation as an `Event` appended to a
  trace. A callback that is not installed (nil) records nothing.

  The specification layer is pure: `PresentStep` … `ToggleStep` give, for each public
  method, the new flags and the events fired. The class `MinimizableViewHandler` holds the
  mutable fields and its methods are proved against those functions.
*/
module Handler {
  import opened Wrappers
  import opened Graphics

  /** One invocation of a lifecycle callback. */
  datatype Event = Presentation | Dismissal | Expansion | Minimization

  /** Which of the four optional callbacks are installed (not nil). */
  datatype Callbacks = Callbacks(onPresentation: bool, onDismissal: bool,
                                 onExpansion: bool, onMinimization: bool)

  const NoCallbacks: Callbacks := Callbacks(false, false, false, false)
  const AllCallbacks: Callbacks := Callbacks(true, true, true, true)

  /** The callback that records event `e` is installed. */
  predicate Installed(cb: Callbacks, e: Event)
  {
    match e
    case Presentation => cb.onPresentation
    case Dismissal => cb.onDismissal
    case Expansion => cb.onExpansion
    case Minimization => cb.onMinimization
  }

  /** `callback?()`: the event `e`, if its callback is installed. */
  function Fire(cb: Callbacks, e: Event): seq<Event>
  {
    if Installed(cb, e) then [e] else []
  }

  /** The two stored flags of the handler. */
  datatype Flags = Flags(isPresented: bool, isMinimized: bool)

  /** The flags of a freshly initialised handler. */
  const Initial: Flags := Flags(false, false)

  /** The flags after an operation, and the callbacks it fired, in order. */
  datatype Transition = Transition(flags: Flags, events: seq<Event>)

  // ---------------------------------------------------------------------------
  // Property observers

  /** The `didSet` observer of `isPresented`, run on the flags it observes. */
  function PresentedObserver(f: Flags, cb: Callbacks): seq<Event>
  {
    if f.isPresented then Fire(cb, Presentation) else Fire(cb, Dismissal)
  }

  /** The `didSet` observer of `isMinimized`: an expansion is reported only while presented. */
  function MinimizedObserver(f: Flags, cb: Callbacks): seq<Event>
  {
    if f.isMinimized then Fire(cb, Minimization)
    else if f.isPresented then Fire(cb, Expansion)
    else []
  }

  /** The assignment `isPresented = v` followed by its observer (which runs even if `v` is unchanged). */
  function AssignPresented(f: Flags, cb: Callbacks, v: bool): Transition
  {
    var g := f.(isPresented := v);
    Transition(g, PresentedObserver(g, cb))
  }

  /** The assignment `isMinimized = v` followed by its observer. */
  function AssignMinimized(f: Flags, cb: Callbacks, v: bool): Transition
  {
    var g := f.(isMinimized := v);
    Transition(g, MinimizedObserver(g, cb))
  }

  // ---------------------------------------------------------------------------
  // The public transition methods, as functions of the flags

  /** `present()`: sets `isPresented` only when it is false, so `onPresentation` fires only on a change. */
  function PresentStep(f: Flags, cb: Callbacks): (r: Transition)
    ensures !f.isPresented ==> r.flags == Flags(true, f.isMinimized)
    ensures !f.isPresented ==> r.events == (if cb.onPresentation then [Presentation] else [])
    ensures f.isPresented ==> r == Transition(f, [])
  {
    if !f.isPresented then AssignPresented(f, cb, true) else Transition(f, [])
  }

  /**
    `dismiss()`: when presented, clears `isPresented` and then, if minimized, clears
    `isMinimized`. The second assignment happens while `isPresented` is already false,
    so it fires no expansion.
  */
  function DismissStep(f: Flags, cb: Callbacks): (r: Transition)
    ensures f.isPresented ==> r.flags == Flags(false, false)
    ensures f.isPresented ==> r.events == (if cb.onDismissal then [Dismissal] else [])
    ensures !f.isPresented ==> r == Transition(f, [])
    ensures Expansion !in r.events
  {
    if f.isPresented then
      var t := AssignPresented(f, cb, false);
      if t.flags.isMinimized then
        var u := AssignMinimized(t.flags, cb, false);
        Transition(u.flags, t.events + u.events)
      else t
    else Transition(f, [])
  }

  /** `minimize()`: sets `isMinimized` only when it is false; fires whether or not presented. */
  function MinimizeStep(f: Flags, cb: Callbacks): (r: Transition)
    ensures !f.isMinimized ==> r.flags == Flags(f.isPresented, true)
    ensures !f.isMinimized ==> r.events == (if cb.onMinimization then [Minimization] else [])
    ensures f.isMinimized ==> r == Transition(f, [])
  {
    if !f.isMinimized then AssignMinimized(f, cb, true) else Transition(f, [])
  }

  /** `expand()`: clears `isMinimized` only when it is set; `onExpansion` fires iff presented. */
  function ExpandStep(f: Flags, cb: Callbacks): (r: Transition)
    ensures f.isMinimized ==> r.flags == Flags(f.isPresented, false)
    ensures f.isMinimized ==> r.events == (if f.isPresented && cb.onExpansion then [Expansion] else [])
    ensures !f.isMinimized ==> r == Transition(f, [])
  {
    if f.isMinimized then AssignMinimized(f, cb, false) else Transition(f, [])
  }

  /**
    `toggleExpansionState()`: assigns the negation of `isMinimized` unconditionally. It
    fires at most one callback, the one matching the new value, and never touches
    `isPresented`.
  */
  function ToggleStep(f: Flags, cb: Callbacks): (r: Transition)
    ensures r.flags == Flags(f.isPresented, !f.isMinimized)
    ensures !f.isMinimized ==> r.events == (if cb.onMinimization then [Minimization] else [])
    ensures f.isMinimized ==> r.events == (if f.isPresented && cb.onExpansion then [Expansion] else [])
    ensures |r.events| <= 1
  {
    AssignMinimized(f, cb, !f.isMinimized)
  }

  /** Toggling dispatches to `minimize()` when expanded and to `expand()` when minimized. */
  lemma ToggleIsMinimizeOrExpand(f: Flags, cb: Callbacks)
    ensures ToggleStep(f, cb) == if f.isMinimized then ExpandStep(f, cb) else MinimizeStep(f, cb)
  {
  }

  /** Toggling twice restores both flags. */
  lemma ToggleTwiceRestores(f: Flags, cb: Callbacks)
    ensures ToggleStep(ToggleStep(f, cb).flags, cb).flags == f
  {
  }

  /** The guarded methods are idempotent: a second call changes nothing and fires nothing. */
  lemma GuardedStepsIdempotent(f: Flags, cb: Callbacks)
    ensures PresentStep(PresentStep(f, cb).flags, cb) == Transition(PresentStep(f, cb).flags, [])
    ensures DismissStep(DismissStep(f, cb).flags, cb) == Transition(DismissStep(f, cb).flags, [])
    ensures MinimizeStep(MinimizeStep(f, cb).flags, cb) == Transition(MinimizeStep(f, cb).flags, [])
    ensures ExpandStep(ExpandStep(f, cb).flags, cb) == Transition(ExpandStep(f, cb).flags, [])
  {
  }

  /**
    Minimizing a panel that is not presented leaves it in the resting state
    (not presented, minimized), and `dismiss()` leaves that state as it is. Only an
    explicit `expand()` or `toggleExpansionState()` clears `isMinimized` there, and
    neither fires a callback while the panel is not presented.
  */
  lemma MinimizedWhileDismissedIsReachable()
    ensures MinimizeStep(Initial, AllCallbacks) == Transition(Flags(false, true), [Minimization])
    ensures DismissStep(Flags(false, true), AllCallbacks) == Transition(Flags(false, true), [])
    ensures ExpandStep(Flags(false, true), AllCallbacks) == Transition(Initial, [])
    ensures ToggleStep(Flags(false, true), AllCallbacks) == Transition(Initial, [])
  {
  }

  // ---------------------------------------------------------------------------
  // Sequences of calls

  /** A call of one of the public transition methods. */
  datatype Call = Present | Dismiss | Minimize | Expand | ToggleExpansionState

  function Apply(f: Flags, cb: Callbacks, c: Call): Transition
  {
    match c
    case Present => PresentStep(f, cb)
    case Dismiss => DismissStep(f, cb)
    case Minimize => MinimizeStep(f, cb)
    case Expand => ExpandStep(f, cb)
    case ToggleExpansionState => ToggleStep(f, cb)
  }

  /** The calls `cs` made one after the other, with the callbacks fixed; events accumulate in order. */
  function Run(f: Flags, cb: Callbacks, cs: seq<Call>): Transition
    decreases |cs|
  {
    if cs == [] then Transition(f, [])
    else
      var t := Apply(f, cb, cs[0]);
      var rest := Run(t.flags, cb, cs[1..]);
      Transition(rest.flags, t.events + rest.events)
  }

  /** Every event of a run comes from an installed callback; with none installed a run fires nothing. */
  lemma {:induction false} RunFiresOnlyInstalled(f: Flags, cb: Callbacks, cs: seq<Call>)
    ensures forall i :: 0 <= i < |Run(f, cb, cs).events| ==> Installed(cb, Run(f, cb, cs).events[i])
    ensures cb == NoCallbacks ==> Run(f, cb, cs).events == []
    decreases |cs|
  {
    if cs != [] {
      var t := Apply(f, cb, cs[0]);
      RunFiresOnlyInstalled(t.flags, cb, cs[1..]);
      assert Run(f, cb, cs).events == t.events + Run(t.flags, cb, cs[1..]).events;
      assert forall i :: 0 <= i < |t.events| ==> Installed(cb, t.events[i]);
    }
  }

  /** Neither `isPresented` nor the presentation callbacks are affected by a run without present/dismiss calls. */
  lemma {:induction false} ExpansionCallsKeepPresentation(f: Flags, cb: Callbacks, cs: seq<Call>)
    requires forall i :: 0 <= i < |cs| ==> cs[i] != Present && cs[i] != Dismiss
    ensures Run(f, cb, cs).flags.isPresented == f.isPresented
    ensures Presentation !in Run(f, cb, cs).events && Dismissal !in Run(f, cb, cs).events
    decreases |cs|
  {
    if cs != [] {
      var t := Apply(f, cb, cs[0]);
      ExpansionCallsKeepPresentation(t.flags, cb, cs[1..]);
    }
  }

  // ---------------------------------------------------------------------------
  // What an observer of the callbacks can conclude

  /**
    Replays a trace as an observer who sees only the callbacks would: `obs` is what the
    observer believes the flags are. The result is None when the trace is not a consistent
    account: a presentation while believed presented, a dismissal while believed dismissed,
    or an expansion while believed dismissed or expanded. A dismissal also tells the observer
    that the panel is expanded again.
  */
  function Replay(obs: Flags, es: seq<Event>): Option<Flags>
    decreases |es|
  {
    if es == [] then Some(obs)
    else
      match es[0]
      case Presentation =>
        if obs.isPresented then None else Replay(obs.(isPresented := true), es[1..])
      case Dismissal =>
        if !obs.isPresented then None else Replay(Flags(false, false), es[1..])
      case Minimization =>
        Replay(obs.(isMinimized := true), es[1..])
      case Expansion =>
        if !obs.isPresented || !obs.isMinimized then None else Replay(obs.(isMinimized := false), es[1..])
  }

  /**
    The observer's belief `obs` agrees with the actual flags `f`: exactly on `isPresented`,
    and it never believes the panel expanded while it is minimized. (It may believe the panel
    minimized after a silent reset, an expand or toggle while not presented.)
  */
  predicate Agrees(obs: Flags, f: Flags)
  {
    obs.isPresented == f.isPresented && (f.isMinimized ==> obs.isMinimized)
  }

  /** Replaying a concatenation replays the first part, then the second from where it left the observer. */
  lemma {:induction false} ReplayAppend(obs: Flags, a: seq<Event>, b: seq<Event>)
    ensures Replay(obs, a + b) == match Replay(obs, a) case None => None case Some(o) => Replay(o, b)
    decreases |a|
  {
    if a == [] {
      assert a + b == b;
    } else {
      assert (a + b)[0] == a[0];
      assert (a + b)[1..] == a[1..] + b;
      match a[0]
      case Presentation =>
        if !obs.isPresented { ReplayAppend(obs.(isPresented := true), a[1..], b); }
      case Dismissal =>
        if obs.isPresented { ReplayAppend(Flags(false, false), a[1..], b); }
      case Minimization =>
        ReplayAppend(obs.(isMinimized := true), a[1..], b);
      case Expansion =>
        if obs.isPresented && obs.isMinimized { ReplayAppend(obs.(isMinimized := false), a[1..], b); }
    }
  }

  /** One call keeps a consistent account when all callbacks are installed. */
  lemma ApplyKeepsAccount(obs: Flags, f: Flags, c: Call)
    requires Agrees(obs, f)
    ensures Replay(obs, Apply(f, AllCallbacks, c).events).Some?
    ensures Agrees(Replay(obs, Apply(f, AllCallbacks, c).events).value, Apply(f, AllCallbacks, c).flags)
  {
  }

  /**
    With all four callbacks installed, the callbacks of any sequence of calls are a
    consistent account of the flags: presentations and dismissals strictly alternate and
    track `isPresented`, an expansion is fired only while presented and only after a
    minimization, and a minimized panel is never reported expanded.
  */
  lemma {:induction false} RunKeepsAccount(obs: Flags, f: Flags, cs: seq<Call>)
    requires Agrees(obs, f)
    ensures Replay(obs, Run(f, AllCallbacks, cs).events).Some?
    ensures Agrees(Replay(obs, Run(f, AllCallbacks, cs).events).value, Run(f, AllCallbacks, cs).flags)
    decreases |cs|
  {
    if cs != [] {
      var t := Apply(f, AllCallbacks, cs[0]);
      ApplyKeepsAccount(obs, f, cs[0]);
      var o := Replay(obs, t.events).value;
      RunKeepsAccount(o, t.flags, cs[1..]);
      ReplayAppend(obs, t.events, Run(t.flags, AllCallbacks, cs[1..]).events);
    }
  }

  /** From a fresh handler, the callbacks alone tell whether the panel is presented. */
  lemma CallbacksTrackPresentation(cs: seq<Call>)
    ensures Replay(Initial, Run(Initial, AllCallbacks, cs).events).Some?
    ensures Replay(Initial, Run(Initial, AllCallbacks, cs).events).value.isPresented
            == Run(Initial, AllCallbacks, cs).flags.isPresented
  {
    RunKeepsAccount(Initial, Initial, cs);
  }

  // ---------------------------------------------------------------------------
  // Settings

  /** `MiniSettings`, without its two colour fields. */
  datatype MiniSettings = MiniSettings(minimizedHeight: real, bottomMargin: real, lateralMargin: real,
                                       expandedTopMargin: real, cornerRadius: real, shadowRadius: real)

  /** The `MiniSettings` initializer with its default arguments. */
  function NewMiniSettings(minimizedHeight: real := 44.0, bottomMargin: real := 48.0,
                           lateralMargin: real := 0.0, expandedTopMargin: real := 0.0,
                           cornerRadius: real := 10.0, shadowRadius: real := 5.0): MiniSettings
  {
    MiniSettings(minimizedHeight, bottomMargin, lateralMargin, expandedTopMargin, cornerRadius, shadowRadius)
  }

  /** The default settings. */
  lemma DefaultMiniSettings()
    ensures NewMiniSettings().minimizedHeight == 44.0 && NewMiniSettings().bottomMargin == 48.0
    ensures NewMiniSettings().lateralMargin == 0.0 && NewMiniSettings().expandedTopMargin == 0.0
    ensures NewMiniSettings().cornerRadius == 10.0 && NewMiniSettings().shadowRadius == 5.0
  {
  }

  // ---------------------------------------------------------------------------
  // The handler object

  class MinimizableViewHandler {
    var settings: MiniSettings
    var callbacks: Callbacks
    /** Offset of the panel's position, for gesture recognizers attached by clients. */
    var draggedOffset: Size
    var isPresented: bool
    var isMinimized: bool
    /** Every callback invocation so far, oldest first. */
    var trace: seq<Event>

    function State(): Flags
      reads this
    {
      Flags(isPresented, isMinimized)
    }

    /** `init(settings:)`: nil keeps the default settings. No callback is installed yet. */
    constructor (settings: Option<MiniSettings>)
      ensures this.settings == if settings.Some? then settings.value else NewMiniSettings()
      ensures settings.None? ==> this.settings.minimizedHeight == 44.0 && this.settings.bottomMargin == 48.0
      ensures settings.None? ==> this.settings.lateralMargin == 0.0 && this.settings.expandedTopMargin == 0.0
      ensures settings.None? ==> this.settings.cornerRadius == 10.0 && this.settings.shadowRadius == 5.0
      ensures State() == Initial && callbacks == NoCallbacks && draggedOffset == Zero && trace == []
    {
      this.settings := NewMiniSettings();
      callbacks := NoCallbacks;
      draggedOffset := Zero;
      isPresented := false;
      isMinimized := false;
      trace := [];
      new;
      if settings.Some? {
        this.settings := settings.value;
      }
    }

    /** Assigns `isPresented` and runs its `didSet` observer. */
    method SetPresented(v: bool)
      modifies this`isPresented, this`trace
      ensures State() == AssignPresented(old(State()), callbacks, v).flags
      ensures trace == old(trace) + AssignPresented(old(State()), callbacks, v).events
    {
      isPresented := v;
      if isPresented {
        if callbacks.onPresentation { trace := trace + [Presentation]; }
      } else {
        if callbacks.onDismissal { trace := trace + [Dismissal]; }
      }
    }

    /** Assigns `isMinimized` and runs its `didSet` observer. */
    method SetMinimized(v: bool)
      modifies this`isMinimized, this`trace
      ensures State() == AssignMinimized(old(State()), callbacks, v).flags
      ensures trace == old(trace) + AssignMinimized(old(State()), callbacks, v).events
    {
      isMinimized := v;
      if isMinimized {
        if callbacks.onMinimization { trace := trace + [Minimization]; }
      } else {
        if isPresented {
          if callbacks.onExpansion { trace := trace + [Expansion]; }
        }
      }
    }

    method Present()
      modifies this`isPresented, this`isMinimized, this`trace
      ensures State() == PresentStep(old(State()), callbacks).flags
      ensures trace == old(trace) + PresentStep(old(State()), callbacks).events
      ensures settings == old(settings) && draggedOffset == old(draggedOffset)
    {
      if !isPresented {
        SetPresented(true);
      }
    }

    method Dismiss()
      modifies this`isPresented, this`isMinimized, this`trace
      ensures State() == DismissStep(old(State()), callbacks).flags
      ensures trace == old(trace) + DismissStep(old(State()), callbacks).events
      ensures settings == old(settings) && draggedOffset == old(draggedOffset)
    {
      if isPresented {
        SetPresented(false);
        if isMinimized {
          SetMinimized(false);
        }
      }
    }

    method Minimize()
      modifies this`isPresented, this`isMinimized, this`trace
      ensures State() == MinimizeStep(old(State()), callbacks).flags
      ensures trace == old(trace) + MinimizeStep(old(State()), callbacks).events
      ensures settings == old(settings) && draggedOffset == old(draggedOffset)
    {
      if !isMinimized {
        SetMinimized(true);
      }
    }

    method Expand()
      modifies this`isPresented, this`isMinimized, this`trace
      ensures State() == ExpandStep(old(State()), callbacks).flags
      ensures trace == old(trace) + ExpandStep(old(State()), callbacks).events
      ensures settings == old(settings) && draggedOffset == old(draggedOffset)
    {
      if isMinimized {
        SetMinimized(false);
      }
    }

    method ToggleExpansionState()
      modifies this`isPresented, this`isMinimized, this`trace
      ensures State() == ToggleStep(old(State()), callbacks).flags
      ensures trace == old(trace) + ToggleStep(old(State()), callbacks).events
      ensures settings == old(settings) && draggedOffset == old(draggedOffset)
    {
      SetMinimized(!isMinimized);
    }
  }

  /**
    A client with every callback installed presents, minimizes and dismisses the panel:
    the dismissal resets the panel to expanded without reporting an expansion.
  */
  method PresentMinimizeDismiss() returns (flags: Flags, trace: seq<Event>)
    ensures flags == Initial
    ensures trace == [Presentation, Minimization, Dismissal]
  {
    var handler := new MinimizableViewHandler(None);
    handler.callbacks := AllCallbacks;
    handler.Present();
    handler.Minimize();
    handler.Dismiss();
    flags, trace := handler.State(), handler.trace;
  }
}
