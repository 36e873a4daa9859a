/** The scrollable list a list skeleton screen drives, reduced to the three
    pieces of state the screen touches and the colour lookup of its context.
    Setting an adapter or the frozen flag just updates the field here; what the
    real list does besides (a layout pass, unfreezing) belongs to the list,
    not to the skeleton code. */
module ListHost {

  class RecyclerView {
    /** The adapter slot; any adapter object, or null. */
    var adapter: object?
    /** Whether the list is in the middle of a layout pass. */
    var computingLayout: bool
    var layoutFrozen: bool
    /** Colour resolution in this view's context: resource id to colour. */
    const colorOf: int -> int

    constructor (adapter: object?, computingLayout: bool, layoutFrozen: bool, colorOf: int -> int)
      ensures this.adapter == adapter && this.computingLayout == computingLayout
      ensures this.layoutFrozen == layoutFrozen && this.colorOf == colorOf
    {
      this.adapter := adapter;
      this.computingLayout := computingLayout;
      this.layoutFrozen := layoutFrozen;
      this.colorOf := colorOf;
    }

    predicate IsComputingLayout()
      reads this
    {
      computingLayout
    }

    method SetAdapter(a: object?)
      modifies this`adapter
      ensures adapter == a
    {
      adapter := a;
    }

    method SetLayoutFrozen(frozen: bool)
      modifies this`layoutFrozen
      ensures layoutFrozen == frozen
    {
      layoutFrozen := frozen;
    }
  }
}
