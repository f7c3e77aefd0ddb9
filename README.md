# MinimizableView: presentation state machine and drag geometry

This project models the behaviour of the MinimizableView overlay panel, a SwiftUI component. The panel can be presented or dismissed. While presented it is either expanded, showing its full content, or minimized, showing a compact preview. It has two parts.

- **`MinimizableViewHandler`** (`handler.dfy`, module `Handler`). This is the presentation state machine. It has two flags, `isPresented` and `isMinimized`, and five transition methods: `present`, `dismiss`, `minimize`, `expand` and `toggleExpansionState`. In Swift, each assignment to a flag runs its `didSet` observer, and the observer calls one of four optional lifecycle callbacks.
  - The pure functions `PresentStep` … `ToggleStep` give each method's new flags and the callbacks it fires, in order.
  - The class `MinimizableViewHandler` has the mutable fields. Its methods are proved against those functions. Each callback call is recorded as an `Event` appended to `trace`. A callback that is not installed (`nil`) adds nothing to the trace.
  - `Run` composes calls into sequences. `Replay` reads a trace the way an observer who sees only the callbacks would.
  - The main lemma, `RunKeepsAccount`, covers the case where all four callbacks are installed. For any sequence of calls, the callbacks then give a consistent account of the flags:
    - presentations and dismissals strictly alternate;
    - an expansion is reported only while the panel is presented;
    - an expansion is reported only after a minimization has been reported.
- **The older `MinimizableView`** (`view.dfy`, module `View`).
  - `OffsetY`, `FrameHeight` and `PositionY` are the view's placement formulas. `Placement` combines them into the panel's vertical extent.
  - The `DragGesture` `onChanged`/`onEnded` closures and the capsule tap are methods of the class `MinimizableView`. They write its `draggedOffset` and the shared `MinimizableViewState`.
  - The drag thresholds are the fixed constants 80 and -100.

`CGFloat` is modelled as `real`, since the formulas use only additions, subtractions, halvings and comparisons. `CGSize` is the datatype `Graphics.Size`. Two platform values become plain parameters:

- `UIScreen.main.bounds.height` becomes `screenHeight`;
- `geometry.size.height` (from the `GeometryProxy`) becomes `height`.

Two behaviours of this version are worth noting:

- In this version, `minimize()` and `toggleExpansionState()` can leave the panel not presented but minimized. They set `isMinimized` whatever `isPresented` is, and `dismiss()` does nothing when the panel is not presented. An explicit `expand()` or toggle clears the flag there without firing a callback. `dismiss()` is the only method that resets `isMinimized` as a side effect of another change. See `Handler.MinimizedWhileDismissedIsReachable`.
- This version's `frameHeight` ignores the drag offset, so a minimized panel does not stretch while it is dragged upward. Its `offsetY` is the raw drag height while presented, with no clamping by direction.

## Model

| member | source | states |
|---|---|---|
| Handler.PresentStep | Sources/MinimizableView/MinimizableView_Model.swift:43-50 | from not presented: sets `isPresented`, keeps `isMinimized`, fires `onPresentation` exactly once if installed; when already presented: no change, no callback |
| Handler.DismissStep | Sources/MinimizableView/MinimizableView_Model.swift:55-63 | from presented: ends not presented and expanded, firing only `onDismissal` (if installed); when not presented: no change, no callback; never fires `onExpansion` |
| Handler.MinimizeStep | Sources/MinimizableView/MinimizableView_Model.swift:68-74 | from expanded: sets `isMinimized` whether or not presented, fires `onMinimization` once if installed; when minimized: no change, no callback |
| Handler.ExpandStep | Sources/MinimizableView/MinimizableView_Model.swift:79-83 | from minimized: clears `isMinimized`, fires `onExpansion` iff presented (and installed); when expanded: no change, no callback |
| Handler.ToggleStep | Sources/MinimizableView/MinimizableView_Model.swift:88-91 | negates `isMinimized`, keeps `isPresented`, fires at most one callback, the one matching the new value |
| Handler.ToggleIsMinimizeOrExpand | Sources/MinimizableView/MinimizableView_Model.swift:68-91 | toggling behaves exactly as `minimize()` when expanded and as `expand()` when minimized |
| Handler.ToggleTwiceRestores | Sources/MinimizableView/MinimizableView_Model.swift:88-91 | two toggles restore both flags |
| Handler.GuardedStepsIdempotent | Sources/MinimizableView/MinimizableView_Model.swift:43-83 | a second `present`, `dismiss`, `minimize` or `expand` changes nothing and fires nothing |
| Handler.MinimizedWhileDismissedIsReachable | Sources/MinimizableView/MinimizableView_Model.swift:55-91 | `minimize()` on a fresh handler reaches (not presented, minimized); `dismiss()` leaves that state unchanged; `expand()` and toggling clear `isMinimized` there with no callback |
| Handler.RunFiresOnlyInstalled | Sources/MinimizableView/MinimizableView_Model.swift:97-120 | over any sequence of calls, every recorded event belongs to an installed callback; with none installed nothing is recorded |
| Handler.ExpansionCallsKeepPresentation | Sources/MinimizableView/MinimizableView_Model.swift:68-91 | any sequence of `minimize`/`expand`/`toggleExpansionState` calls keeps `isPresented` and fires neither `onPresentation` nor `onDismissal` |
| Handler.ApplyKeepsAccount | Sources/MinimizableView/MinimizableView_Model.swift:43-120 | with all callbacks installed, each single call keeps the callbacks a consistent account of the flags |
| Handler.RunKeepsAccount | Sources/MinimizableView/MinimizableView_Model.swift:43-120 | with all callbacks installed, any sequence of calls fires a consistent account: no duplicate presentation or dismissal, no expansion while dismissed or without a minimization since the last expansion or dismissal |
| Handler.CallbacksTrackPresentation | Sources/MinimizableView/MinimizableView_Model.swift:97-105 | from a fresh handler, the presentation and dismissal callbacks alone determine the current `isPresented` |
| Handler.DefaultMiniSettings | Sources/MinimizableView/MinimizableView_Model.swift:139-149 | `NewMiniSettings`, the model of `MiniSettings.init` with its default arguments, gives the default settings: minimizedHeight 44, bottomMargin 48, lateralMargin 0, expandedTopMargin 0, cornerRadius 10, shadowRadius 5 |
| Handler.MinimizableViewHandler.constructor | Sources/MinimizableView/MinimizableView_Model.swift:20-26 | `init(settings: nil)` keeps the default settings, a given value replaces them; both flags false, offset zero, no callback installed, empty trace |
| Handler.MinimizableViewHandler.SetPresented | Sources/MinimizableView/MinimizableView_Model.swift:97-105 | assigning `isPresented` runs its observer, appending `onPresentation` or `onDismissal` per the new value when installed; the new flags and events are those of `AssignPresented`, which applies the observer `PresentedObserver` to the updated flags |
| Handler.MinimizableViewHandler.SetMinimized | Sources/MinimizableView/MinimizableView_Model.swift:110-120 | assigning `isMinimized` runs its observer, appending `onMinimization`, or `onExpansion` only while presented; the new flags and events are those of `AssignMinimized`, which applies the observer `MinimizedObserver` to the updated flags |
| Handler.MinimizableViewHandler.Present | Sources/MinimizableView/MinimizableView_Model.swift:43-50 | new flags and appended events are those of `PresentStep`; settings and dragged offset unchanged |
| Handler.MinimizableViewHandler.Dismiss | Sources/MinimizableView/MinimizableView_Model.swift:55-63 | new flags and appended events are those of `DismissStep`; settings and dragged offset unchanged |
| Handler.MinimizableViewHandler.Minimize | Sources/MinimizableView/MinimizableView_Model.swift:68-74 | new flags and appended events are those of `MinimizeStep`; settings and dragged offset unchanged |
| Handler.MinimizableViewHandler.Expand | Sources/MinimizableView/MinimizableView_Model.swift:79-83 | new flags and appended events are those of `ExpandStep`; settings and dragged offset unchanged |
| Handler.MinimizableViewHandler.ToggleExpansionState | Sources/MinimizableView/MinimizableView_Model.swift:88-91 | new flags and appended events are those of `ToggleStep`; settings and dragged offset unchanged |
| Handler.PresentMinimizeDismiss | Sources/MinimizableView/MinimizableView_Model.swift:43-120 | present, minimize, dismiss with all callbacks installed fires exactly presentation, minimization, dismissal and ends not presented and expanded |
| View.OffsetY | Sources/MinimizableView/MinimizableView.swift:37-47 | a hidden panel is offset by the screen height, a presented one by the drag height |
| View.FrameHeight | Sources/MinimizableView/MinimizableView.swift:49-56 | minimized: the minimized height; expanded: the geometry height less the top margin |
| View.PositionY | Sources/MinimizableView/MinimizableView.swift:58-60 | the centre puts a minimized frame's bottom edge `bottomMargin` above the geometry's bottom, and an expanded frame exactly between the top margin and the bottom |
| View.Placement | Sources/MinimizableView/MinimizableView.swift:91-95 | the placed panel's extent is as tall as its frame |
| View.PlacementFollowsDrag | Sources/MinimizableView/MinimizableView.swift:91-95 | a presented panel's extent is its resting extent moved by the drag height; the drag width has no effect |
| View.RestingPlacement | Sources/MinimizableView/MinimizableView.swift:37-60 | a presented panel with no drag spans [top margin, height] expanded, or sits with its minimized height `bottomMargin` above the bottom |
| View.HiddenPanelBelowScreen | Sources/MinimizableView/MinimizableView.swift:37-60 | a panel that is not presented lies wholly below the top screen height, given non-negative top margin and room for the minimized panel |
| View.MinimizableViewState.constructor | Sources/MinimizableView/MinimizableView.swift:12-18 | a new shared state is neither presented nor minimized |
| View.MinimizableView.constructor | Sources/MinimizableView/MinimizableView.swift:62-71 | keeps the state and the sizing parameters; no drag in progress |
| View.MinimizableView.OnDragChanged | Sources/MinimizableView/MinimizableView.swift:97-116 | expanded: a positive translation is stored and above 80 minimizes; minimized: a negative translation is stored and below -100 expands; the other direction changes nothing; `isPresented` never changes |
| View.MinimizableView.OnDragEnded | Sources/MinimizableView/MinimizableView.swift:117-120 | resets the dragged offset to zero whatever the translation; both flags unchanged |
| View.MinimizableView.OnCapsuleTap | Sources/MinimizableView/MinimizableView.swift:77-79 | negates `isMinimized`, keeps `isPresented` |
| View.DragDownToMinimize | Sources/MinimizableView/MinimizableView.swift:97-120 | pulling an expanded panel down past 80 and releasing leaves it minimized with no offset |

## Left out

- The `body` view composition is left out because it is rendering and framework bindings. This covers the `VStack`/`ZStack` layout, the compact view shown only while minimized, the rounded-rectangle background and shadow, `.animation(.spring())` and `.environmentObject` injection. Only the `.frame`/`.position`/`.offset` arithmetic is kept, as `View.Placement`.
- Combine's `@Published` change notifications to subscribers are framework machinery. Only the `didSet` side effects are modelled, as trace entries.
- Callbacks are modelled as "installed or not". What a callback does when it runs is code outside this component. A callback that re-enters the handler is not modelled.
- `UIScreen.main.bounds` and `GeometryProxy` become the real parameters `screenHeight` and `height`. The geometry's width, which only sets the frame width and horizontal centre, is not modelled.
- `MiniSettings`' colour fields (`backgroundColor`, `shadowColor`) are opaque SwiftUI values with no behavioural effect.
- IEEE floating-point behaviour of `CGFloat` is not modelled. Values are exact reals.
- `TabBarAccessor.swift` is a UIKit bridge with no logic of its own, so it is not part of this model.
- Gesture recognition itself is left out: when `onChanged` fires and the minimum drag distance. The handlers take the translation they are given.
