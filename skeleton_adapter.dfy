/** The list placeholder adapter: a synthetic item count and, per row, the
    placeholder layout id chosen by the rule in `Layouts`. */
module ListAdapter {
  import opened Layouts
  import opened Shimmers

  /** The view type the base list adapter reports when this adapter does not
      override it. It belongs to the list library, so its value is left open;
      all that is used is that it does not depend on the position. */
  const SuperItemViewType: int

  /** The row a view holder wraps: a shimmer container around the inflated
      layout when shimmer is on, the bare inflated layout otherwise. */
  datatype ViewHolder = ShimmerViewHolder(layout: int) | PlainViewHolder(layout: int)

  class SkeletonAdapter {
    var itemCount: int
    var layoutReference: int
    /** The `int[]` of layout ids; `None` is a null array. */
    var layoutArrayReferences: Option<seq<int>>
    var shimmerAnimate: bool
    var shimmer: Shimmer?

    /** A new adapter has Java's field defaults. */
    constructor ()
      ensures itemCount == 0 && layoutReference == 0 && layoutArrayReferences == None
      ensures !shimmerAnimate && shimmer == null
    {
      itemCount := 0;
      layoutReference := 0;
      layoutArrayReferences := None;
      shimmerAnimate := false;
      shimmer := null;
    }

    /** True when the layout array is non-null and non-empty. */
    function DoesArrayOfLayoutsExist(): (present: bool)
      reads this
      ensures present <==> layoutArrayReferences != None && |layoutArrayReferences.value| != 0
    {
      HasArray(layoutArrayReferences)
    }

    /** The layout id of the row at `position`. With an array, a negative
        position that is not a multiple of the length is an out-of-bounds
        access in the source (Java's `%` truncates); negative positions are
        excluded only when an array is set. */
    function GetCorrectLayoutItem(position: int): (id: int)
      reads this
      requires DoesArrayOfLayoutsExist() ==> position >= 0
      ensures DoesArrayOfLayoutsExist() ==>
        id == layoutArrayReferences.value[position % |layoutArrayReferences.value|] &&
        id in layoutArrayReferences.value
      ensures !DoesArrayOfLayoutsExist() ==> id == layoutReference
    {
      Select(layoutReference, layoutArrayReferences, position)
    }

    /** With an array the layout id is the view type, so rows with different
        layouts are never recycled into each other; without one the base
        adapter's single view type is used. */
    function GetItemViewType(position: int): (viewType: int)
      reads this
      requires DoesArrayOfLayoutsExist() ==> position >= 0
      ensures DoesArrayOfLayoutsExist() ==> viewType == GetCorrectLayoutItem(position)
      ensures !DoesArrayOfLayoutsExist() ==> viewType == SuperItemViewType
    {
      if DoesArrayOfLayoutsExist() then GetCorrectLayoutItem(position) else SuperItemViewType
    }

    /** The stable id of a row is its position. */
    function GetItemId(position: int): (id: int)
      ensures id == position
    {
      position
    }

    /** The synthetic item count: the configured count, independent of any
        layout setting. */
    function GetItemCount(): (count: int)
      reads this
      ensures count == itemCount
    {
      itemCount
    }

    /** The layout id that `OnCreateViewHolder(viewType)` inflates in the
        current state. */
    function InflatedLayout(viewType: int): (id: int)
      reads this
    {
      if DoesArrayOfLayoutsExist() then viewType else layoutReference
    }

    /** Creates a row for a view type. With an array, the single-layout field
        is overwritten with the view type before it is inflated; this never
        changes which layout a position gets while the array stays set. */
    method OnCreateViewHolder(viewType: int) returns (holder: ViewHolder)
      modifies this`layoutReference
      ensures layoutReference == if old(DoesArrayOfLayoutsExist()) then viewType else old(layoutReference)
      ensures holder.layout == old(InflatedLayout(viewType))
      ensures holder.ShimmerViewHolder? <==> shimmerAnimate
      ensures old(DoesArrayOfLayoutsExist()) ==>
        forall p :: p >= 0 ==> GetCorrectLayoutItem(p) == old(GetCorrectLayoutItem(p))
    {
      if DoesArrayOfLayoutsExist() {
        layoutReference := viewType;
      }
      if shimmerAnimate {
        return ShimmerViewHolder(layoutReference);
      }
      return PlainViewHolder(layoutReference);
    }

    method SetLayoutReference(layoutReference: int)
      modifies this`layoutReference
      ensures this.layoutReference == layoutReference
    {
      this.layoutReference := layoutReference;
    }

    method SetArrayOfLayoutReferences(layoutReferences: Option<seq<int>>)
      modifies this`layoutArrayReferences
      ensures layoutArrayReferences == layoutReferences
    {
      layoutArrayReferences := layoutReferences;
    }

    method SetItemCount(itemCount: int)
      modifies this`itemCount
      ensures GetItemCount() == itemCount
    {
      this.itemCount := itemCount;
    }

    method SetShimmer(shimmer: Shimmer?)
      modifies this`shimmer
      ensures this.shimmer == shimmer
    {
      this.shimmer := shimmer;
    }

    method ShimmerAnimate(shimmer: bool)
      modifies this`shimmerAnimate
      ensures shimmerAnimate == shimmer
    {
      shimmerAnimate := shimmer;
    }
  }

  /** The row created for a position's view type shows that position's
      layout: view types and layouts pick out the same rows. */
  lemma ViewTypeInflatesRowLayout(a: SkeletonAdapter, position: int)
    requires a.DoesArrayOfLayoutsExist() ==> position >= 0
    ensures a.InflatedLayout(a.GetItemViewType(position)) == a.GetCorrectLayoutItem(position)
  {
  }

  /** Two rows share a view type exactly when they share a layout, so the
      list only recycles a row into another that shows the same layout. */
  lemma SameViewTypeIffSameLayout(a: SkeletonAdapter, p: int, q: int)
    requires a.DoesArrayOfLayoutsExist() ==> p >= 0 && q >= 0
    ensures a.GetItemViewType(p) == a.GetItemViewType(q) <==>
            a.GetCorrectLayoutItem(p) == a.GetCorrectLayoutItem(q)
  {
  }

  /** Distinct positions get distinct item ids. */
  lemma ItemIdsAreDistinct(a: SkeletonAdapter, p: int, q: int)
    ensures a.GetItemId(p) == a.GetItemId(q) <==> p == q
  {
  }

  /** The item count is whatever was last set, whatever the layout settings
      set after it. */
  method CountSurvivesLayoutSettings(a: SkeletonAdapter, n: int, single: int, layouts: Option<seq<int>>)
    modifies a
    ensures a.GetItemCount() == n
  {
    a.SetItemCount(n);
    a.SetLayoutReference(single);
    a.SetArrayOfLayoutReferences(layouts);
    a.ShimmerAnimate(true);
    a.SetShimmer(null);
  }
}
