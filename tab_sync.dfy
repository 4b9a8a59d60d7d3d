/**
 * The tabbed screen's scroll synchronisation: the tab bar on top and the
 * paged content below must agree on the active tab, and the underline under
 * the tab bar follows the fractional page `progress`.
 */
module TabSync {
  import opened Wrappers
  import opened Interpolation

  /** `TabModel.Tab`, with its raw value (the label shown in the tab bar). */
  datatype Tab = Artists | Albums | Tracks {
    function RawValue(): string {
      match this
      case Artists => "Artists"
      case Albums => "Albums"
      case Tracks => "Tracks"
    }
  }

  /** `TabModel`: a tab and the measured width and left edge of its label. */
  datatype TabModel = TabModel(id: Tab, width: real, minX: real)

  /** The tab bar's entries, in the order they are shown. */
  const TabOrder: seq<Tab> := [Artists, Albums, Tracks]

  /** The three tab slots the two scroll views keep in agreement. */
  datatype SyncState = SyncState(activeTab: Tab, tabBarScrollState: Option<Tab>, mainViewScrollState: Option<Tab>)

  /** The state a tap on tab `t` in the tab bar leaves: all three slots name `t`. */
  function Tapped(s: SyncState, t: Tab): (r: SyncState)
    ensures r.activeTab == t && r.mainViewScrollState == Some(t) && Synced(r)
  {
    SyncState(t, Some(t), Some(t))
  }

  /** The content view's `onChange(of: mainViewScrollState)`: a page change drags the tab bar along. */
  function PageChanged(s: SyncState, newValue: Option<Tab>): (r: SyncState)
    ensures r.mainViewScrollState == s.mainViewScrollState
    ensures newValue.None? ==> r == s
    ensures newValue.Some? ==> r.activeTab == newValue.value && Synced(r)
  {
    match newValue
    case None => s
    case Some(v) => s.(tabBarScrollState := Some(v), activeTab := v)
  }

  /** The tab bar shows the active tab. */
  predicate Synced(s: SyncState) {
    s.tabBarScrollState == Some(s.activeTab)
  }

  lemma RawValuesDistinct()
    ensures forall i, j :: 0 <= i < j < |TabOrder| ==> TabOrder[i].RawValue() != TabOrder[j].RawValue()
  {
  }

  /**
   * No feedback loop: the change handler that a tap on `t` triggers (the
   * content now shows page `t`) leaves the tapped state exactly as it is.
   */
  lemma TapIsFixedPoint(s: SyncState, t: Tab)
    ensures PageChanged(Tapped(s, t), Some(t)) == Tapped(s, t)
  {
  }

  /** A tap sets every slot to the tapped tab, whatever the state before. */
  lemma TapSetsAllSlots(s: SyncState, t: Tab)
    ensures Tapped(s, t).activeTab == t
    ensures Tapped(s, t).tabBarScrollState == Some(t) && Tapped(s, t).mainViewScrollState == Some(t)
    ensures Synced(Tapped(s, t))
  {
  }

  /**
   * A page change to `v` makes the tab bar and the active tab follow `v` and
   * leaves the content slot alone; a change to nil does nothing; handling the
   * same change twice is the same as once.
   */
  lemma PageChangeEffect(s: SyncState, newValue: Option<Tab>)
    ensures newValue.None? ==> PageChanged(s, newValue) == s
    ensures newValue.Some? ==> PageChanged(s, newValue).activeTab == newValue.value
    ensures newValue.Some? ==> Synced(PageChanged(s, newValue))
    ensures PageChanged(s, newValue).mainViewScrollState == s.mainViewScrollState
    ensures PageChanged(PageChanged(s, newValue), newValue) == PageChanged(s, newValue)
  {
  }

  /** Once in agreement, the tab bar and the active tab stay in agreement under every event. */
  lemma SyncedIsKept(s: SyncState, t: Tab, newValue: Option<Tab>)
    requires Synced(s)
    ensures Synced(Tapped(s, t)) && Synced(PageChanged(s, newValue))
  {
  }

  function Widths(tabs: seq<TabModel>): (r: seq<real>)
    ensures |r| == |tabs| && forall i :: 0 <= i < |tabs| ==> r[i] == tabs[i].width
  {
    seq(|tabs|, i requires 0 <= i < |tabs| => tabs[i].width)
  }

  function Offsets(tabs: seq<TabModel>): (r: seq<real>)
    ensures |r| == |tabs| && forall i :: 0 <= i < |tabs| ==> r[i] == tabs[i].minX
  {
    seq(|tabs|, i requires 0 <= i < |tabs| => tabs[i].minX)
  }

  /** The `@State` of the tabbed screen that the tab bar and the content pages share. */
  class TabBar {
    var tabs: seq<TabModel>
    var activeTab: Tab
    var tabBarScrollState: Option<Tab>
    var mainViewScrollState: Option<Tab>
    var progress: real

    /** Three tabs, in the tab bar's order. */
    predicate Valid()
      reads this
    {
      |tabs| == |TabOrder| && forall i :: 0 <= i < |tabs| ==> tabs[i].id == TabOrder[i]
    }

    function State(): SyncState
      reads this
    {
      SyncState(activeTab, tabBarScrollState, mainViewScrollState)
    }

    constructor ()
      ensures Valid()
      ensures tabs == [TabModel(Artists, 0.0, 0.0), TabModel(Albums, 0.0, 0.0), TabModel(Tracks, 0.0, 0.0)]
      ensures State() == SyncState(Artists, None, None) && progress == 0.0
    {
      tabs := [TabModel(Artists, 0.0, 0.0), TabModel(Albums, 0.0, 0.0), TabModel(Tracks, 0.0, 0.0)];
      activeTab := Artists;
      tabBarScrollState := None;
      mainViewScrollState := None;
      progress := 0.0;
    }

    /** The tab bar button of tab `t`. */
    method TapTab(t: Tab)
      modifies this
      ensures State() == Tapped(old(State()), t)
      ensures tabs == old(tabs) && progress == old(progress)
    {
      activeTab := t;
      tabBarScrollState := Some(t);
      mainViewScrollState := Some(t);
    }

    /** The content view's change handler, run with the new value of `mainViewScrollState`. */
    method OnMainViewScrollChange(newValue: Option<Tab>)
      modifies this
      ensures State() == PageChanged(old(State()), newValue)
      ensures tabs == old(tabs) && progress == old(progress)
    {
      if newValue.Some? {
        tabBarScrollState := newValue;
        activeTab := newValue.value;
      }
    }

    /** The user pages the content to `page`; the change handler runs when the value changed. */
    method ScrollContentTo(page: Option<Tab>)
      modifies this
      ensures State() == if page == old(mainViewScrollState) then old(State())
                         else PageChanged(old(State()).(mainViewScrollState := page), page)
      ensures tabs == old(tabs) && progress == old(progress)
    {
      var oldValue := mainViewScrollState;
      mainViewScrollState := page;
      if page != oldValue {
        OnMainViewScrollChange(page);
      }
    }

    /** The tab bar's scroll position binding: its setter discards every write. */
    method SetTabBarScrollPosition(newValue: Option<Tab>)
      ensures State() == old(State())
    {
    }

    /** The content view reports how far it is scrolled, in pages. */
    method UpdateProgress(p: real)
      modifies this
      ensures progress == p
      ensures State() == old(State()) && tabs == old(tabs)
    {
      progress := p;
    }

    /** The label of tab `i` reports its measured width and left edge. */
    method MeasureTab(i: nat, width: real, minX: real)
      requires Valid() && i < |tabs|
      modifies this
      ensures Valid()
      ensures tabs == old(tabs)[i := TabModel(old(tabs)[i].id, width, minX)]
      ensures State() == old(State()) && progress == old(progress)
    {
      tabs := tabs[i := TabModel(tabs[i].id, width, minX)];
    }

    /**
     * The underline's width: the tab label widths interpolated at `progress`
     * over the tab indices. It is the first label's width before the first
     * page, the label's own width on each page, and never outside the
     * range of the label widths.
     */
    function IndicatorWidth(): (w: real)
      reads this
      requires Valid()
      ensures progress <= 0.0 ==> w == tabs[0].width
      ensures progress.Floor as real == progress && 0 <= progress.Floor < |tabs| ==> w == tabs[progress.Floor].width
      ensures WithinOutputs(w, Widths(tabs), |tabs|)
    {
      IndexRangeIncreasing(|tabs|);
      WithinOutputRange(progress, IndexRange(|tabs|), Widths(tabs));
      KnotOfIndexRange(Widths(tabs), progress);
      Interpolate(progress, IndexRange(|tabs|), Widths(tabs))
    }

    /** The underline's offset: the tab labels' left edges interpolated the same way. */
    function IndicatorPosition(): (x: real)
      reads this
      requires Valid()
      ensures progress <= 0.0 ==> x == tabs[0].minX
      ensures progress.Floor as real == progress && 0 <= progress.Floor < |tabs| ==> x == tabs[progress.Floor].minX
      ensures WithinOutputs(x, Offsets(tabs), |tabs|)
    {
      IndexRangeIncreasing(|tabs|);
      WithinOutputRange(progress, IndexRange(|tabs|), Offsets(tabs));
      KnotOfIndexRange(Offsets(tabs), progress);
      Interpolate(progress, IndexRange(|tabs|), Offsets(tabs))
    }
  }

  /** A whole page number `p` of the tab indices gives output `p`. */
  lemma KnotOfIndexRange(ys: seq<real>, p: real)
    requires |ys| >= 1
    ensures p.Floor as real == p && 0 <= p.Floor < |ys| ==>
      CanInterpolate(p, IndexRange(|ys|), ys) && Interpolate(p, IndexRange(|ys|), ys) == ys[p.Floor]
  {
    if p.Floor as real == p && 0 <= p.Floor < |ys| {
      IndexRangeIncreasing(|ys|);
      Knot(IndexRange(|ys|), ys, p.Floor);
    }
  }
}
