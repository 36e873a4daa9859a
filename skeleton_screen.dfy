/** The list skeleton screen: swaps a list's adapter between the placeholder
    adapter and the real one, freezing the list's layout while placeholders
    show; and the builder that configures it. */
module ListScreen {
  import opened Layouts
  import opened Shimmers
  import opened ListHost
  import opened ListAdapter

  /** Generated resource ids of the library's default row layout and default
      shimmer colours. Their values are fixed by the build and left open. */
  const LayoutDefaultItemSkeleton: int
  const ShimmerBaseColorRes: int
  const ShimmerHighlightColorRes: int

  class RecyclerViewSkeletonScreen {
    const recyclerView: RecyclerView
    const actualAdapter: object?
    const skeletonAdapter: SkeletonAdapter
    const recyclerViewFrozen: bool

    /** The screen and its placeholder adapter carry the builder's
        configuration, with the builder's (generated or supplied) shimmer. */
    predicate ConfiguredBy(builder: Builder)
      reads this, skeletonAdapter, builder
    {
      && recyclerView == builder.recyclerView
      && actualAdapter == builder.actualAdapter
      && recyclerViewFrozen == builder.frozen
      && skeletonAdapter.itemCount == builder.itemCount
      && skeletonAdapter.layoutReference == builder.itemResId
      && skeletonAdapter.layoutArrayReferences == builder.itemsResIdArray
      && skeletonAdapter.shimmerAnimate == builder.shimmerAnimate
      && skeletonAdapter.shimmer == builder.shimmer != null
    }

    /** Builds a new placeholder adapter from the builder's settings; makes
        the builder generate its shimmer if it has none yet. */
    constructor (builder: Builder)
      modifies builder`shimmer
      ensures fresh(skeletonAdapter)
      ensures ConfiguredBy(builder)
      ensures builder.ShimmerGenerated(old(builder.shimmer))
    {
      var a := new SkeletonAdapter();
      a.SetItemCount(builder.itemCount);
      a.SetLayoutReference(builder.itemResId);
      a.SetArrayOfLayoutReferences(builder.itemsResIdArray);
      a.ShimmerAnimate(builder.shimmerAnimate);
      var s := builder.GenerateShimmer();
      a.SetShimmer(s);
      recyclerView := builder.recyclerView;
      actualAdapter := builder.actualAdapter;
      skeletonAdapter := a;
      recyclerViewFrozen := builder.frozen;
    }

    /** Installs the placeholder adapter; freezes the list only when it is not
        mid-layout and freezing is configured, and otherwise leaves the frozen
        flag as it was (there is no later retry). */
    method Show()
      modifies recyclerView`adapter, recyclerView`layoutFrozen
      ensures recyclerView.adapter == skeletonAdapter
      ensures recyclerView.layoutFrozen ==
        if !old(recyclerView.computingLayout) && recyclerViewFrozen then true
        else old(recyclerView.layoutFrozen)
    {
      recyclerView.SetAdapter(skeletonAdapter);
      if !recyclerView.IsComputingLayout() && recyclerViewFrozen {
        recyclerView.SetLayoutFrozen(true);
      }
    }

    /** Reinstalls the adapter handed to the builder (not whatever the list
        held before `Show`); the frozen flag is not touched. */
    method Hide()
      modifies recyclerView`adapter
      ensures recyclerView.adapter == actualAdapter
    {
      recyclerView.SetAdapter(actualAdapter);
    }
  }

  class Builder {
    const recyclerView: RecyclerView
    var actualAdapter: object?
    var itemCount: int
    var itemResId: int
    var itemsResIdArray: Option<seq<int>>
    var shimmerAnimate: bool
    var autoStart: bool
    var shimmerBaseColor: int
    var shimmerHighlightColor: int
    var shimmerColored: bool
    var duration: int
    var shimmerShape: int
    var direction: int
    var shimmer: Shimmer?
    var frozen: bool

    /** A fresh builder for `recyclerView`, optionally with a ready shimmer
        (the one-argument Java constructor passes null). */
    constructor (recyclerView: RecyclerView, shimmer: Shimmer?)
      ensures this.recyclerView == recyclerView && actualAdapter == null
      ensures itemCount == 10 && itemResId == LayoutDefaultItemSkeleton && itemsResIdArray == None
      ensures shimmerAnimate && autoStart && shimmerColored && frozen
      ensures shimmerBaseColor == recyclerView.colorOf(ShimmerBaseColorRes)
      ensures shimmerHighlightColor == recyclerView.colorOf(ShimmerHighlightColorRes)
      ensures duration == 1000 && shimmerShape == 0 && direction == 0
      ensures this.shimmer == shimmer
    {
      this.recyclerView := recyclerView;
      actualAdapter := null;
      itemCount := 10;
      itemResId := LayoutDefaultItemSkeleton;
      itemsResIdArray := None;
      shimmerAnimate := true;
      shimmerShape := 0;
      direction := 0;
      duration := 1000;
      frozen := true;
      shimmerHighlightColor := recyclerView.colorOf(ShimmerHighlightColorRes);
      shimmerBaseColor := recyclerView.colorOf(ShimmerBaseColorRes);
      shimmerColored := true;
      this.shimmer := shimmer;
      autoStart := true;
    }

    method Adapter(adapter: object?) returns (b: Builder)
      modifies this`actualAdapter
      ensures b == this && actualAdapter == adapter
    {
      actualAdapter := adapter;
      b := this;
    }

    method Count(itemCount: int) returns (b: Builder)
      modifies this`itemCount
      ensures b == this && this.itemCount == itemCount
    {
      this.itemCount := itemCount;
      b := this;
    }

    method Duration(duration: int) returns (b: Builder)
      modifies this`duration
      ensures b == this && this.duration == duration
    {
      this.duration := duration;
      b := this;
    }

    /** Sets the highlight colour to what the colour resource resolves to. */
    method Color(shimmerColor: int) returns (b: Builder)
      modifies this`shimmerHighlightColor
      ensures b == this && shimmerHighlightColor == recyclerView.colorOf(shimmerColor)
    {
      shimmerHighlightColor := recyclerView.colorOf(shimmerColor);
      b := this;
    }

    method ShimmerAnimate(shimmer: bool) returns (b: Builder)
      modifies this`shimmerAnimate
      ensures b == this && shimmerAnimate == shimmer
    {
      shimmerAnimate := shimmer;
      b := this;
    }

    method Shape(shape: int) returns (b: Builder)
      modifies this`shimmerShape
      ensures b == this && shimmerShape == shape
    {
      shimmerShape := shape;
      b := this;
    }

    method Direction(direction: int) returns (b: Builder)
      modifies this`direction
      ensures b == this && this.direction == direction
    {
      this.direction := direction;
      b := this;
    }

    method AutoStart(autoStart: bool) returns (b: Builder)
      modifies this`autoStart
      ensures b == this && this.autoStart == autoStart
    {
      this.autoStart := autoStart;
      b := this;
    }

    method ShimmerColored(shimmerColored: bool) returns (b: Builder)
      modifies this`shimmerColored
      ensures b == this && this.shimmerColored == shimmerColored
    {
      this.shimmerColored := shimmerColored;
      b := this;
    }

    /** Sets the base colour to what the colour resource resolves to. */
    method ShimmerBaseColor(shimmerBaseColor: int) returns (b: Builder)
      modifies this`shimmerBaseColor
      ensures b == this && this.shimmerBaseColor == recyclerView.colorOf(shimmerBaseColor)
    {
      this.shimmerBaseColor := recyclerView.colorOf(shimmerBaseColor);
      b := this;
    }

    method Load(skeletonLayoutResId: int) returns (b: Builder)
      modifies this`itemResId
      ensures b == this && itemResId == skeletonLayoutResId
    {
      itemResId := skeletonLayoutResId;
      b := this;
    }

    method LoadArrayOfLayouts(skeletonLayoutResIds: Option<seq<int>>) returns (b: Builder)
      modifies this`itemsResIdArray
      ensures b == this && itemsResIdArray == skeletonLayoutResIds
    {
      itemsResIdArray := skeletonLayoutResIds;
      b := this;
    }

    method Frozen(frozen: bool) returns (b: Builder)
      modifies this`frozen
      ensures b == this && this.frozen == frozen
    {
      this.frozen := frozen;
      b := this;
    }

    /** The settings a newly built shimmer receives: a colour highlight with
        the builder's two colours when coloured, an alpha highlight otherwise,
        and the builder's auto-start, shape, duration and direction. */
    function ShimmerSettings(): (p: ShimmerParams)
      reads this
      ensures p.highlight.ColorHighlight? <==> shimmerColored
      ensures p.highlight.ColorHighlight? ==>
        p.highlight.baseColor == shimmerBaseColor && p.highlight.highlightColor == shimmerHighlightColor
      ensures p.autoStart == autoStart && p.shape == shimmerShape
      ensures p.duration == duration && p.direction == direction
    {
      var highlight := if shimmerColored
        then ColorHighlight(shimmerBaseColor, shimmerHighlightColor)
        else AlphaHighlight;
      ShimmerParams(highlight, autoStart, shimmerShape, duration, direction)
    }

    /** The cache rule of `GenerateShimmer`, given the cached shimmer before
        the call: one already present stays; otherwise a new one built from
        the current settings is cached. */
    ghost predicate ShimmerGenerated(before: Shimmer?)
      reads this, shimmer
    {
      && shimmer != null
      && (before != null ==> shimmer == before)
      && (before == null ==> shimmer.params == ShimmerSettings())
    }

    method GenerateShimmer() returns (s: Shimmer)
      modifies this`shimmer
      ensures s == shimmer
      ensures ShimmerGenerated(old(shimmer))
      ensures old(shimmer) == null ==> fresh(s)
    {
      if shimmer == null {
        shimmer := new Shimmer(ShimmerSettings());
      }
      s := shimmer;
    }

    /** Builds a screen from this builder and shows it at once. */
    method Show() returns (screen: RecyclerViewSkeletonScreen)
      modifies this`shimmer, recyclerView`adapter, recyclerView`layoutFrozen
      ensures fresh(screen) && fresh(screen.skeletonAdapter)
      ensures screen.ConfiguredBy(this)
      ensures ShimmerGenerated(old(shimmer))
      ensures recyclerView.adapter == screen.skeletonAdapter
      ensures recyclerView.layoutFrozen ==
        if !old(recyclerView.computingLayout) && frozen then true
        else old(recyclerView.layoutFrozen)
    {
      screen := new RecyclerViewSkeletonScreen(this);
      screen.Show();
    }
  }

  /** A second `GenerateShimmer` hands out the very object the first one
      returned. */
  method GenerateShimmerTwice(builder: Builder) returns (first: Shimmer, second: Shimmer)
    modifies builder`shimmer
    ensures first == second == builder.shimmer
  {
    first := builder.GenerateShimmer();
    second := builder.GenerateShimmer();
  }

  /** Showing twice leaves the placeholder adapter installed, and one hide
      then brings back the builder's adapter. */
  method ShowTwiceThenHide(screen: RecyclerViewSkeletonScreen) returns (shown: object?)
    modifies screen.recyclerView`adapter, screen.recyclerView`layoutFrozen
    ensures shown == screen.skeletonAdapter
    ensures screen.recyclerView.adapter == screen.actualAdapter
  {
    screen.Show();
    screen.Show();
    shown := screen.recyclerView.adapter;
    screen.Hide();
  }

  /** A list with a real adapter, shown through a builder set to eight rows
      over two templates and then hidden: while shown, the list holds an
      adapter of eight rows alternating between the two templates
      (`installed`, the adapter in its slot then, is the new `shown`) and its
      layout is frozen; after `Hide` the real adapter is back. */
  method EightRowsThenHide(recyclerView: RecyclerView, actual: object?, x: int, y: int)
    returns (shown: SkeletonAdapter, installed: object?)
    requires !recyclerView.computingLayout
    modifies recyclerView
    ensures fresh(shown) && installed == shown
    ensures shown.GetItemCount() == 8
    ensures RowLayouts(shown.layoutReference, shown.layoutArrayReferences, 8) == [x, y, x, y, x, y, x, y]
    ensures shown.GetItemViewType(6) == x
    ensures recyclerView.layoutFrozen
    ensures recyclerView.adapter == actual
  {
    var builder := new Builder(recyclerView, null);
    builder := builder.Adapter(actual);
    builder := builder.Count(8);
    builder := builder.LoadArrayOfLayouts(Some([x, y]));
    var screen := builder.Show();
    shown := screen.skeletonAdapter;
    installed := recyclerView.adapter;
    EightRowsOverTwoTemplates(shown.layoutReference, x, y);
    screen.Hide();
  }
}
