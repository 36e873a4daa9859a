# Skeleton list placeholders, modelled in Dafny

This project models the list half of the Android skeleton-screen library
`com.ethanhua.skeleton`. It covers two parts:

- `SkeletonAdapter` is a list adapter. It reports a configured item count.
  For each row it picks a placeholder layout id. With a non-empty array of
  layout ids, row `p` gets `array[p % length]`. Otherwise every row gets the
  one configured id. That id also serves as the row's view type.
- `RecyclerViewSkeletonScreen` and its `Builder`. `show` installs the
  placeholder adapter in the list and freezes the list's layout when that is
  allowed. `hide` reinstalls the real adapter given to the builder. The
  builder holds the defaults, copies its settings into the adapter, and
  builds the shimmer once and caches it.

Files:

- `layouts.dfy` (module `Layouts`): the selection rule as pure functions.
  Lemmas prove it periodic, equal to a block-by-block reference definition,
  and the array repeated over the rows. They also prove the fallback rules.
- `skeleton_adapter.dfy` (module `ListAdapter`): class `SkeletonAdapter`
  with the source's fields, setters, query functions and `OnCreateViewHolder`.
- `skeleton_screen.dfy` (module `ListScreen`): classes
  `RecyclerViewSkeletonScreen` and `Builder`.
- `list_host.dfy` (module `ListHost`): the list the screen drives. It has
  an adapter slot, an "is computing layout" flag, a "layout frozen" flag
  and its context's colour lookup. Its setters only update fields.
- `shimmers.dfy` (module `Shimmers`): a shimmer as an immutable object.
  It records which highlight builder made it and the settings it got.

Modelling choices:

- A Java `int[]` that may be null is an `Option<seq<int>>`. `None` is null.
- An adapter slot holds any `object?`. Reference equality is Java's.
- Resource ids (`R.layout.layout_default_item_skeleton` and the two default
  shimmer colours) are module constants with no fixed value. The same goes
  for the base adapter's default view type (`super.getItemViewType`).
- Colour resolution through the list's context is the function
  `RecyclerView.colorOf`. It maps a colour resource id to a colour.
- `getCorrectLayoutItem` requires `position >= 0` only when an array is
  set. With an array, Java's truncating `%` makes a negative position that
  is not a multiple of the length an out-of-bounds access in the source.
  Without an array, the source returns the single id for any position.
  For non-negative operands Java's `%` and Dafny's `%` agree.
- The Java `Builder(recyclerView)` constructor delegates with a null
  shimmer. It is the model's `Builder` constructor called with `null`.

Two behaviours of the code worth noting:

- `hide` does not check for an earlier `show`. It always installs the
  builder's adapter, which is null if `adapter(...)` was never called.
- `hide` never touches the frozen flag. Any unfreezing comes from the list
  itself when an adapter is set, and the model does not attribute it here.

## Model

| member | source | states |
|---|---|---|
| `Layouts.Select` | library/src/main/java/com/ethanhua/skeleton/SkeletonAdapter.java:85-94 | with a non-empty array the chosen id is one of the array's ids; with a null or empty array it is the single layout id |
| `Layouts.HasArray` | library/src/main/java/com/ethanhua/skeleton/SkeletonAdapter.java:92-94 | an array is in use exactly when it is non-null and non-empty |
| `Layouts.RowLayouts` | library/src/main/java/com/ethanhua/skeleton/SkeletonAdapter.java:85-90 | the layout ids of the first `count` rows: exactly `count` of them, row `p` getting the id chosen for position `p` |
| `Layouts.SelectPeriodic` | library/src/main/java/com/ethanhua/skeleton/SkeletonAdapter.java:87 | the choice repeats with period `array.length`: position `p + length` gets the same id as `p` |
| `Layouts.SelectIsTile` | library/src/main/java/com/ethanhua/skeleton/SkeletonAdapter.java:85-88 | `array[p % length]` equals the reference choice that walks the rows in blocks of `length` and uses `array[i]` at offset `i` of a block |
| `Layouts.RowsRepeatArray` | library/src/main/java/com/ethanhua/skeleton/SkeletonAdapter.java:85-88 | the first `k * length` rows are the array written out `k` times, in order |
| `Layouts.FirstRowsAreTheArray` | library/src/main/java/com/ethanhua/skeleton/SkeletonAdapter.java:85-88 | the first `length` rows are exactly the array |
| `Layouts.EightRowsOverTwoTemplates` | library/src/main/java/com/ethanhua/skeleton/SkeletonAdapter.java:85-88 | with two templates A, B, eight rows are A, B, A, B, A, B, A, B |
| `Layouts.FallbackIsConstant` | library/src/main/java/com/ethanhua/skeleton/SkeletonAdapter.java:89-94 | with no usable array every position gets the single id, the same for all positions, and the result equals the null-array result |
| `Layouts.EmptyArrayIsNoArray` | library/src/main/java/com/ethanhua/skeleton/SkeletonAdapter.java:92-94 | an empty array selects exactly as a null array does: the single id |
| `Layouts.SingletonArrayIsConstant` | library/src/main/java/com/ethanhua/skeleton/SkeletonAdapter.java:85-88 | a one-element array gives every position that element |
| `Layouts.SingleIgnoredWithArray` | library/src/main/java/com/ethanhua/skeleton/SkeletonAdapter.java:85-89 | with a non-empty array the single layout id has no influence on the choice |
| `Layouts.RowsWithoutArray` | library/src/main/java/com/ethanhua/skeleton/SkeletonAdapter.java:89 | with no usable array every row shows the single layout id |
| `ListAdapter.SkeletonAdapter.constructor` | library/src/main/java/com/ethanhua/skeleton/SkeletonAdapter.java:16-19 | a new adapter has Java's field defaults: count 0, layout 0, null array, shimmer off, no shimmer |
| `ListAdapter.SkeletonAdapter.DoesArrayOfLayoutsExist` | library/src/main/java/com/ethanhua/skeleton/SkeletonAdapter.java:92-94 | true exactly when the adapter's layout array is non-null and non-empty |
| `ListAdapter.SkeletonAdapter.GetItemCount` | library/src/main/java/com/ethanhua/skeleton/SkeletonAdapter.java:58-61 | the reported count is the configured item count, whatever the layout settings |
| `ListAdapter.SkeletonAdapter.GetCorrectLayoutItem` | library/src/main/java/com/ethanhua/skeleton/SkeletonAdapter.java:85-90 | with an array, the id is `array[p % length]` and an element of the array; otherwise it is the single layout id; a negative position is excluded only when an array is set |
| `ListAdapter.SkeletonAdapter.GetItemViewType` | library/src/main/java/com/ethanhua/skeleton/SkeletonAdapter.java:45-51 | with an array the view type is the row's layout id; otherwise it is the base adapter's position-independent default |
| `ListAdapter.SkeletonAdapter.GetItemId` | library/src/main/java/com/ethanhua/skeleton/SkeletonAdapter.java:53-56 | a row's id is its position |
| `ListAdapter.SkeletonAdapter.OnCreateViewHolder` | library/src/main/java/com/ethanhua/skeleton/SkeletonAdapter.java:21-33 | with an array the single-layout field becomes the view type, else it is unchanged; the holder inflates that field's new value (the view type with an array, the configured id without), as a shimmer row exactly when shimmer is on; while the array exists no position's layout changes |
| `ListAdapter.SkeletonAdapter.SetLayoutReference` | library/src/main/java/com/ethanhua/skeleton/SkeletonAdapter.java:63-65 | sets the single layout id and changes no other field |
| `ListAdapter.SkeletonAdapter.SetArrayOfLayoutReferences` | library/src/main/java/com/ethanhua/skeleton/SkeletonAdapter.java:67-69 | sets the layout array (null allowed) and changes no other field |
| `ListAdapter.SkeletonAdapter.SetItemCount` | library/src/main/java/com/ethanhua/skeleton/SkeletonAdapter.java:71-73 | afterwards `GetItemCount` returns the value passed; no other field changes |
| `ListAdapter.SkeletonAdapter.SetShimmer` | library/src/main/java/com/ethanhua/skeleton/SkeletonAdapter.java:75-78 | sets the shimmer and changes no other field |
| `ListAdapter.SkeletonAdapter.ShimmerAnimate` | library/src/main/java/com/ethanhua/skeleton/SkeletonAdapter.java:80-82 | sets the shimmer-animate flag and changes no other field |
| `ListAdapter.ViewTypeInflatesRowLayout` | library/src/main/java/com/ethanhua/skeleton/SkeletonAdapter.java:22-51 | the row created for position `p`'s view type inflates exactly `p`'s layout, with or without an array |
| `ListAdapter.SameViewTypeIffSameLayout` | library/src/main/java/com/ethanhua/skeleton/SkeletonAdapter.java:46-51 | two positions share a view type if and only if they share a layout id |
| `ListAdapter.ItemIdsAreDistinct` | library/src/main/java/com/ethanhua/skeleton/SkeletonAdapter.java:54-56 | two positions have the same item id if and only if they are the same position |
| `ListAdapter.CountSurvivesLayoutSettings` | library/src/main/java/com/ethanhua/skeleton/SkeletonAdapter.java:58-82 | after setting the count, then the layout id, the array and the shimmer settings, `GetItemCount` still returns that count |
| `ListScreen.RecyclerViewSkeletonScreen.constructor` | library/src/main/java/com/ethanhua/skeleton/RecyclerViewSkeletonScreen.java:22-32 | the screen keeps the builder's list, real adapter and frozen option; a new adapter gets the builder's count, layout id, layout array, shimmer-animate flag and the builder's generated shimmer |
| `ListScreen.RecyclerViewSkeletonScreen.Show` | library/src/main/java/com/ethanhua/skeleton/RecyclerViewSkeletonScreen.java:34-40 | the list's adapter slot holds the placeholder adapter; the frozen flag becomes true if the list was not computing layout and freezing is on, and is otherwise left as it was |
| `ListScreen.RecyclerViewSkeletonScreen.Hide` | library/src/main/java/com/ethanhua/skeleton/RecyclerViewSkeletonScreen.java:42-45 | the adapter slot holds the builder's adapter; the frozen flag is not touched |
| `ListScreen.ShowTwiceThenHide` | library/src/main/java/com/ethanhua/skeleton/RecyclerViewSkeletonScreen.java:35-45 | after two shows the placeholder adapter is installed, and one hide then installs the builder's adapter |
| `ListScreen.EightRowsThenHide` | library/src/main/java/com/ethanhua/skeleton/RecyclerViewSkeletonScreen.java:22-199 | a builder given a real adapter, count 8 and two templates installs a new adapter in the list's slot with 8 rows alternating between the templates, with view type of row 6 the first template and the list frozen; hiding then puts the real adapter back |
| `ListScreen.Builder.constructor` | library/src/main/java/com/ethanhua/skeleton/RecyclerViewSkeletonScreen.java:48-76 | a fresh builder has count 10, the default skeleton layout, no array, shimmer on, auto-start on, coloured, frozen, duration 1000, shape 0, direction 0, default colours resolved in the list's context, the given shimmer and a null real adapter |
| `ListScreen.Builder.Adapter` | library/src/main/java/com/ethanhua/skeleton/RecyclerViewSkeletonScreen.java:81-84 | records the real adapter, returns the same builder, changes nothing else |
| `ListScreen.Builder.Count` | library/src/main/java/com/ethanhua/skeleton/RecyclerViewSkeletonScreen.java:89-92 | records the item count, returns the same builder, changes nothing else |
| `ListScreen.Builder.Duration` | library/src/main/java/com/ethanhua/skeleton/RecyclerViewSkeletonScreen.java:100-103 | records the duration, returns the same builder, changes nothing else |
| `ListScreen.Builder.Color` | library/src/main/java/com/ethanhua/skeleton/RecyclerViewSkeletonScreen.java:108-111 | sets the highlight colour to the colour the resource resolves to, returns the same builder |
| `ListScreen.Builder.ShimmerAnimate` | library/src/main/java/com/ethanhua/skeleton/RecyclerViewSkeletonScreen.java:116-119 | records the shimmer-animate flag, returns the same builder |
| `ListScreen.Builder.Shape` | library/src/main/java/com/ethanhua/skeleton/RecyclerViewSkeletonScreen.java:121-124 | records the shimmer shape, returns the same builder |
| `ListScreen.Builder.Direction` | library/src/main/java/com/ethanhua/skeleton/RecyclerViewSkeletonScreen.java:126-129 | records the shimmer direction, returns the same builder |
| `ListScreen.Builder.AutoStart` | library/src/main/java/com/ethanhua/skeleton/RecyclerViewSkeletonScreen.java:131-134 | records the auto-start flag, returns the same builder |
| `ListScreen.Builder.ShimmerColored` | library/src/main/java/com/ethanhua/skeleton/RecyclerViewSkeletonScreen.java:136-139 | records the coloured flag, returns the same builder |
| `ListScreen.Builder.ShimmerBaseColor` | library/src/main/java/com/ethanhua/skeleton/RecyclerViewSkeletonScreen.java:141-144 | sets the base colour to the colour the resource resolves to, returns the same builder |
| `ListScreen.Builder.Load` | library/src/main/java/com/ethanhua/skeleton/RecyclerViewSkeletonScreen.java:173-176 | records the single row layout id, returns the same builder |
| `ListScreen.Builder.LoadArrayOfLayouts` | library/src/main/java/com/ethanhua/skeleton/RecyclerViewSkeletonScreen.java:181-184 | records the layout array (null allowed), returns the same builder |
| `ListScreen.Builder.Frozen` | library/src/main/java/com/ethanhua/skeleton/RecyclerViewSkeletonScreen.java:190-193 | records the freeze option, returns the same builder |
| `ListScreen.Builder.ShimmerSettings` | library/src/main/java/com/ethanhua/skeleton/RecyclerViewSkeletonScreen.java:148-159 | a new shimmer is a colour highlight with the builder's base and highlight colours exactly when the coloured flag is on, an alpha highlight otherwise, and takes the builder's auto-start, shape, duration and direction |
| `ListScreen.Builder.GenerateShimmer` | library/src/main/java/com/ethanhua/skeleton/RecyclerViewSkeletonScreen.java:146-166 | returns the cached shimmer unchanged when there is one; otherwise returns a new shimmer built from the current settings and caches it |
| `ListScreen.GenerateShimmerTwice` | library/src/main/java/com/ethanhua/skeleton/RecyclerViewSkeletonScreen.java:146-166 | two calls in a row return the same object, which is the cached one |
| `ListScreen.Builder.Show` | library/src/main/java/com/ethanhua/skeleton/RecyclerViewSkeletonScreen.java:195-199 | returns a new screen configured from this builder, on which `Show` has run once: the placeholder adapter is installed and the freeze rule applied |

## Left out

- Layouts.Select: negative positions are excluded when an array is set, although the source returns `array[0]` for a negative multiple of the length (Java's `%` gives 0 there) and throws only for other negative positions.
- ListAdapter.SkeletonAdapter.GetCorrectLayoutItem: negative positions are excluded when an array is set, although the source returns `array[0]` for a negative multiple of the length and throws only for other negative positions.
- ListAdapter.SkeletonAdapter.GetItemViewType: the same exclusion of negative positions applies, since with an array it returns the row's layout id.
- `ViewSkeletonScreen` and the view replacer it relies on. The replacer's swap and restore code is not part of this model. The rest of that class is inflation, attach listeners and logging.
- `onBindViewHolder`: giving each bound row the shared shimmer and starting its animation is work of the shimmer library, which is opaque here.
- Layout inflation and view-holder construction: the model records only which layout id a new row inflates and whether it is wrapped in a shimmer container.
- The shimmer library itself: a `Shimmer` is an opaque object carrying the settings it was built with.
- Colour resources: `ContextCompat.getColor` is the list's `colorOf` function, with no logic of its own.
- List internals: setting an adapter does not unfreeze the layout, and `isComputingLayout` is a plain field. These behaviours belong to the list, not to this library.
- Aliasing of the layout array: the Java adapter and builder share one `int[]`, which could be changed after configuration. The model copies its contents as a sequence, and nothing in this code writes to it.
- Java `int` width: counts, ids and positions are unbounded integers. The source never does arithmetic on them beyond `position % length`.
