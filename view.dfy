/**
  The older `MinimizableView`: its placement formulas and its gesture handlers.

  The panel is laid out in the coordinate space of its enclosing geometry, whose height is
  `height` (`geometry.size.height`). It is placed by its centre (`positionY`), sized by
  `frameHeight` and then shifted by `offsetY`. `screenHeight` stands for
  `UIScreen.main.bounds.height`. The drag handlers write the view's own `draggedOffset` and
  the shared `MinimizableViewState.isMinimized`; that state has no observers.
*/
module View {
  import opened Graphics

  /** A downward drag beyond this distance, while expanded, minimizes the panel. */
  const MinimizeThreshold: real := 80.0
  /** An upward drag beyond this (negative) translation, while minimized, expands the panel. */
  const ExpandThreshold: real := -100.0

  /** The shared presentation state of this version: two plain flags. */
  class MinimizableViewState {
    var isPresented: bool
    var isMinimized: bool

    constructor ()
      ensures !isPresented && !isMinimized
    {
      isPresented := false;
      isMinimized := false;
    }
  }

  /** The sizing parameters the view is built with. */
  datatype Layout = Layout(minimizedHeight: real, bottomMargin: real, expandedTopMargin: real)

  /** The vertical extent of the placed panel, top edge above bottom edge. */
  datatype Extent = Extent(top: real, bottom: real)

  /** `offsetY()`: a hidden panel is pushed down by a screen height; a presented one follows the drag. */
  function OffsetY(isPresented: bool, draggedOffset: Size, screenHeight: real): (r: real)
    ensures !isPresented ==> r == screenHeight
    ensures isPresented ==> r == draggedOffset.height
  {
    if !isPresented then screenHeight else draggedOffset.height
  }

  /** `frameHeight()`: the minimized height, or the geometry's height below the top margin. */
  function FrameHeight(isMinimized: bool, layout: Layout, height: real): (r: real)
    ensures isMinimized ==> r == layout.minimizedHeight
    ensures !isMinimized ==> r == height - layout.expandedTopMargin
  {
    if isMinimized then layout.minimizedHeight else height - layout.expandedTopMargin
  }

  /**
    `positionY()`: the centre that puts a minimized frame `bottomMargin` above the bottom
    edge of the geometry, and an expanded frame between the top margin and the bottom edge.
  */
  function PositionY(isMinimized: bool, layout: Layout, height: real): (r: real)
    ensures isMinimized ==> r + FrameHeight(isMinimized, layout, height) / 2.0 == height - layout.bottomMargin
    ensures !isMinimized ==> r - FrameHeight(isMinimized, layout, height) / 2.0 == layout.expandedTopMargin
    ensures !isMinimized ==> r + FrameHeight(isMinimized, layout, height) / 2.0 == height
  {
    if isMinimized then height - layout.bottomMargin - (layout.minimizedHeight / 2.0)
    else (height + layout.expandedTopMargin) / 2.0
  }

  /** Where `.frame`, `.position` and `.offset` together put the panel. */
  function Placement(isPresented: bool, isMinimized: bool, draggedOffset: Size,
                     layout: Layout, height: real, screenHeight: real): (e: Extent)
    ensures e.bottom - e.top == FrameHeight(isMinimized, layout, height)
  {
    var centre := PositionY(isMinimized, layout, height) + OffsetY(isPresented, draggedOffset, screenHeight);
    var half := FrameHeight(isMinimized, layout, height) / 2.0;
    Extent(centre - half, centre + half)
  }

  /**
    A presented panel at rest (no drag in progress) spans from the top margin to the
    bottom of the geometry when expanded, and sits `bottomMargin` above the bottom with
    its minimized height when minimized.
  */
  lemma RestingPlacement(isMinimized: bool, layout: Layout, height: real, screenHeight: real)
    ensures !isMinimized ==> Placement(true, isMinimized, Zero, layout, height, screenHeight)
                             == Extent(layout.expandedTopMargin, height)
    ensures isMinimized ==> Placement(true, isMinimized, Zero, layout, height, screenHeight)
                            == Extent(height - layout.bottomMargin - layout.minimizedHeight, height - layout.bottomMargin)
  {
  }

  /**
    A presented panel follows the drag: its extent is the resting extent moved down by
    the drag's height (up, for a negative height). The drag's width has no effect.
  */
  lemma PlacementFollowsDrag(isMinimized: bool, draggedOffset: Size, layout: Layout,
                             height: real, screenHeight: real)
    ensures var rest := Placement(true, isMinimized, Zero, layout, height, screenHeight);
            Placement(true, isMinimized, draggedOffset, layout, height, screenHeight)
            == Extent(rest.top + draggedOffset.height, rest.bottom + draggedOffset.height)
  {
  }

  /**
    A panel that is not presented lies wholly below the top `screenHeight` of the view,
    provided the margins leave room for the minimized panel inside the geometry.
  */
  lemma HiddenPanelBelowScreen(isMinimized: bool, draggedOffset: Size, layout: Layout,
                               height: real, screenHeight: real)
    requires layout.expandedTopMargin >= 0.0
    requires height >= layout.bottomMargin + layout.minimizedHeight
    ensures Placement(false, isMinimized, draggedOffset, layout, height, screenHeight).top >= screenHeight
  {
  }

  class MinimizableView {
    const state: MinimizableViewState
    const layout: Layout
    /** The `@State` translation of the drag in progress. */
    var draggedOffset: Size

    constructor (state: MinimizableViewState, minimizedHeight: real, bottomMargin: real, expandedTopMargin: real)
      ensures this.state == state
      ensures layout == Layout(minimizedHeight, bottomMargin, expandedTopMargin)
      ensures draggedOffset == Zero
    {
      this.state := state;
      layout := Layout(minimizedHeight, bottomMargin, expandedTopMargin);
      draggedOffset := Zero;
    }

    /**
      `DragGesture.onChanged`. Expanded: a downward translation is stored, and one beyond
      `MinimizeThreshold` minimizes. Minimized: an upward translation is stored, and one
      beyond `ExpandThreshold` expands. A drag in the other direction changes nothing.
    */
    method OnDragChanged(translation: Size)
      modifies this`draggedOffset, state`isMinimized
      ensures state.isPresented == old(state.isPresented)
      ensures !old(state.isMinimized) && translation.height > 0.0 ==>
                draggedOffset == translation && state.isMinimized == (translation.height > MinimizeThreshold)
      ensures old(state.isMinimized) && translation.height < 0.0 ==>
                draggedOffset == translation && state.isMinimized == (translation.height >= ExpandThreshold)
      ensures (!old(state.isMinimized) && translation.height <= 0.0) || (old(state.isMinimized) && translation.height >= 0.0) ==>
                draggedOffset == old(draggedOffset) && state.isMinimized == old(state.isMinimized)
    {
      if !state.isMinimized {
        if translation.height > 0.0 {
          draggedOffset := translation;
          if translation.height > MinimizeThreshold {
            state.isMinimized := true;
          }
        }
      } else {
        if translation.height < 0.0 {
          draggedOffset := translation;
          if translation.height < ExpandThreshold {
            state.isMinimized := false;
          }
        }
      }
    }

    /**
      `DragGesture.onEnded`: the offset snaps back to zero whatever the translation, and the
      flags stay as the drag left them, so a presented panel comes to rest (`RestingPlacement`).
    */
    method OnDragEnded(translation: Size)
      modifies this`draggedOffset
      ensures draggedOffset == Zero
      ensures state.isPresented == old(state.isPresented) && state.isMinimized == old(state.isMinimized)
    {
      draggedOffset := Zero;
    }

    /** Tapping the drag-handle capsule toggles `isMinimized` and nothing else. */
    method OnCapsuleTap()
      modifies state`isMinimized
      ensures state.isMinimized == !old(state.isMinimized)
      ensures state.isPresented == old(state.isPresented)
    {
      state.isMinimized := !state.isMinimized;
    }
  }

  /**
    A whole gesture on a presented, expanded panel: pulling down by 50 only moves it,
    pulling on to 120 minimizes it, and releasing puts it to rest in the minimized state.
  */
  method DragDownToMinimize() returns (isMinimized: bool, draggedOffset: Size)
    ensures isMinimized && draggedOffset == Zero
  {
    var state := new MinimizableViewState();
    state.isPresented := true;
    var view := new MinimizableView(state, 44.0, 48.0, 0.0);
    view.OnDragChanged(Size(0.0, 50.0));
    assert !state.isMinimized && view.draggedOffset == Size(0.0, 50.0);
    view.OnDragChanged(Size(0.0, 120.0));
    assert state.isMinimized && view.draggedOffset == Size(0.0, 120.0);
    view.OnDragEnded(Size(0.0, 120.0));
    isMinimized, draggedOffset := state.isMinimized, view.draggedOffset;
  }
}
