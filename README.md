# MB_Placeholder_View in Dafny

`MB_Placeholder_View` is a UIKit view that shows a placeholder for a loading, error or empty screen. It stacks an optional image, a spinner, a title, a body text and two buttons vertically inside a scroll view. That scroll view can center content that is smaller than it. Its public properties are `didSet` observers. The content properties (`image`, `title` and `attributedTitle`, `content` and `attributedContent`, and the button titles and images) hand the new value to their child view and recompute that child's `isHidden`. `spacing` is copied to the stack view. `isLoading` starts or stops the spinner. `isCentered` is forwarded to the scroll view. The styling properties only copy a value into a child, and `imageHeightRatio` updates a layout constraint.

This project models only the bookkeeping of that class that can be observed:

- `optional.dfy`: `Option`, standing for Swift's `T?`.
- `stack_arrangement.dfy` (module `StackArrangement`): views as opaque ids and the stack's initial order. It defines `firstIndex(of:)`, the stack view's `insertArrangedSubview(_:at:)` for a view that is not yet arranged, and the index arithmetic of `insert(_:after:)`, `insert(_:before:)` and `set(spacing:before:)`. Each of these is a function, with lemmas about where the new view lands and about the other views keeping their relative order.
- `scroll_centering.dfy` (module `ScrollCentering`): the centering inset as a function of bounds and content size (`CGFloat` is `real`). It also holds the class `CenteringScrollView`, the private `MB_Placeholder_ScrollView`. Its invariant is that, while centering is on, the inset is the centering inset of the current geometry.
- `placeholder_view.dfy` (module `Placeholder`): the class `PlaceholderView`. Its fields are the stored properties, the hidden and animating flags of the child views, the arranged ids, the global and custom spacings, and the owned scroll view. Images are reduced to present or absent. Attributed strings are reduced to their `.string`. `Valid()` says that every hidden flag equals the predicate of the current content that the setters compute. Every setter keeps `Valid()`. Each setter's frame names exactly the fields it changes, so a setter of one button leaves the other button untouched.

The widget has no `style` or `error` property: the spinner follows `isLoading` only. `insert(_:before:)` is modelled as written, at `index - 1`, and its doc comment's intent is modelled beside it: see "Findings".

## Model

| member | source | states |
|---|---|---|
| `Placeholder.IsBlank` | Sources/MB_Placeholder_View/MB_Placeholder_View.swift:150 | Swift's `s?.isEmpty ?? true`: the text is nil or has no characters. |
| `Placeholder.LabelHidden` | Sources/MB_Placeholder_View/MB_Placeholder_View.swift:150-161 | A label is hidden exactly when its plain text and its attributed text are both nil or empty. The same rule holds for the content label at lines 205, 216 and 497 and for the title at line 485. |
| `Placeholder.ButtonHidden` | Sources/MB_Placeholder_View/MB_Placeholder_View.swift:281-292 | A button is hidden exactly when its title is nil or empty and it has no image. The same rule holds for the secondary button at lines 334 and 345 and in the builders at lines 504 and 511. |
| `Placeholder.PlaceholderView.Valid` | Sources/MB_Placeholder_View/MB_Placeholder_View.swift:466-511 | The object invariant. Each hidden flag equals its rule applied to the current content: image absent, `LabelHidden`, `ButtonHidden`. The spinner animates exactly while loading and is hidden while stopped. The arranged views are distinct and include the six children. The stack spacing equals `spacing`. The scroll view centers exactly when `isCentered` is set, and its inset is current. |
| `ScrollCentering.AxisMargin` | Sources/MB_Placeholder_View/MB_Placeholder_View.swift:47-58 | The margin on one axis is never negative. When the content is smaller, two margins plus the content equal the viewport. Otherwise the margin is 0. |
| `ScrollCentering.CenteringScrollView.Valid` | Sources/MB_Placeholder_View/MB_Placeholder_View.swift:43-62 | While centering is on, the inset is `CenteringInset` of the current bounds and content size. |
| `StackArrangement.FirstIndex` | Sources/MB_Placeholder_View/MB_Placeholder_View.swift:365 | `firstIndex(of:)` is absent exactly when the view is not arranged. Otherwise it is an index holding the view with no earlier occurrence. |
| `StackArrangement.InitialArrangementDistinct` | Sources/MB_Placeholder_View/MB_Placeholder_View.swift:449 | The six children are arranged in the order image, spinner, title, content, primary button, secondary button, with no repetition. |
| `StackArrangement.InsertAt` | Sources/MB_Placeholder_View/MB_Placeholder_View.swift:367 | Inserting a fresh view at `k` puts it at `k`, keeps the views before `k` in place and shifts the rest by one. |
| `StackArrangement.RemoveInsertAt` | Sources/MB_Placeholder_View/MB_Placeholder_View.swift:397 | Taking the inserted view out again gives back the old arrangement, so all other views keep their relative order. |
| `StackArrangement.DistinctInsertAt` | Sources/MB_Placeholder_View/MB_Placeholder_View.swift:384 | Inserting a fresh view keeps every arranged view, adds only the new one and keeps the arrangement free of repetition. |
| `StackArrangement.AppendKeepsDistinct` | Sources/MB_Placeholder_View/MB_Placeholder_View.swift:404 | Appending a fresh view keeps the arrangement free of repetition and adds only that view. |
| `StackArrangement.InsertedAfter` | Sources/MB_Placeholder_View/MB_Placeholder_View.swift:361-374 | Nil target: the view is appended. Arranged target at i: the target stays at i, the view is at i+1, the length grows by one and the other views keep their order. Target not arranged: nothing changes. |
| `StackArrangement.InsertedBefore` | Sources/MB_Placeholder_View/MB_Placeholder_View.swift:378-391 | As written. Nil target: append (not prepend). Target first or not arranged: nothing changes. Target at i > 0: the view lands at i-1, the old predecessor moves to i and the target to i+1. |
| `StackArrangement.InsertBeforeMissesTarget` | Sources/MB_Placeholder_View/MB_Placeholder_View.swift:384 | For every target with a predecessor, the view directly in front of the target after the insertion is the old predecessor, never the inserted view. |
| `StackArrangement.InsertBeforeTitleExample` | Sources/MB_Placeholder_View/MB_Placeholder_View.swift:382-384 | On the initial arrangement, inserting before the title lands between image and spinner. Inserting before the image drops the view. |
| `StackArrangement.InsertedDirectlyBefore` | Sources/MB_Placeholder_View/MB_Placeholder_View.swift:376-378 | Corrected insert before: for an arranged target at i, the view is at i and the target at i+1, and the other views keep their order. |
| `StackArrangement.InsertDirectlyBeforeHitsTarget` | Sources/MB_Placeholder_View/MB_Placeholder_View.swift:376 | With the corrected index, the view directly in front of the target is the inserted one, also when the target was first. |
| `StackArrangement.InsertBeforeFirstDropsView` | Sources/MB_Placeholder_View/MB_Placeholder_View.swift:382 | As written, when the target is the first arranged view, the new view is not in the result. |
| `StackArrangement.InsertDirectlyBeforeFirstPrepends` | Sources/MB_Placeholder_View/MB_Placeholder_View.swift:376 | With the corrected index, when the target is the first arranged view, the new view goes in front of the whole arrangement. |
| `StackArrangement.Predecessor` | Sources/MB_Placeholder_View/MB_Placeholder_View.swift:89-91 | `set(spacing:before:)` finds a view exactly when the target is arranged and not first. That view is arranged and differs from the target. |
| `StackArrangement.PredecessorPrecedes` | Sources/MB_Placeholder_View/MB_Placeholder_View.swift:87-94 | In an arrangement without repetition, the view found sits directly before the target, so the gap after it is the gap before the target. |
| `ScrollCentering.CenteringInset` | Sources/MB_Placeholder_View/MB_Placeholder_View.swift:47-60 | The inset is symmetric (bottom = top, right = left) and never negative. On an axis where the content is smaller, margins plus content fill the bounds exactly. Otherwise the margin on that axis is 0. |
| `ScrollCentering.CenteringExamples` | Sources/MB_Placeholder_View/MB_Placeholder_View.swift:43-62 | A 100x100 content in a 300x300 viewport gets insets of 100 on every side. A 400x400 content gets none. |
| `ScrollCentering.CenteringScrollView.constructor` | Sources/MB_Placeholder_View/MB_Placeholder_View.swift:433-438 | A new scroll view centers, has zero size and zero inset, and satisfies the inset invariant. |
| `ScrollCentering.CenteringScrollView.UpdateContentInset` | Sources/MB_Placeholder_View/MB_Placeholder_View.swift:43-62 | While centering, the inset becomes the centering inset of the current geometry. Otherwise it is left unchanged. An inset that is already up to date stays unchanged, so recomputing is idempotent. |
| `ScrollCentering.CenteringScrollView.SetCentered` | Sources/MB_Placeholder_View/MB_Placeholder_View.swift:19-25 | Stores the flag and re-establishes the inset invariant. Turning centering off keeps the inset. |
| `ScrollCentering.CenteringScrollView.SetBounds` | Sources/MB_Placeholder_View/MB_Placeholder_View.swift:27-33 | Stores the bounds and re-establishes the inset invariant. The inset is untouched while not centering. |
| `ScrollCentering.CenteringScrollView.SetContentSize` | Sources/MB_Placeholder_View/MB_Placeholder_View.swift:35-41 | Stores the content size and re-establishes the inset invariant. The inset is untouched while not centering. |
| `Placeholder.PlaceholderView.constructor` | Sources/MB_Placeholder_View/MB_Placeholder_View.swift:447-513 | Every property starts at its default: spacing 15, not loading, centered, no content. Every child is built hidden with the spinner stopped. The arrangement is exactly the initial order, with no custom spacing. |
| `Placeholder.PlaceholderView.SetSpacing` | Sources/MB_Placeholder_View/MB_Placeholder_View.swift:70-76 | `spacing` and the stack view's spacing both become the new value. Nothing else changes. |
| `Placeholder.PlaceholderView.SetSpacingAfter` | Sources/MB_Placeholder_View/MB_Placeholder_View.swift:80-83 | Records the custom spacing for that view and leaves the other entries as they were. |
| `Placeholder.PlaceholderView.SetSpacingBefore` | Sources/MB_Placeholder_View/MB_Placeholder_View.swift:87-94 | Records the custom spacing for the target's predecessor. Nothing changes when the target is first or not arranged. |
| `Placeholder.PlaceholderView.SetImage` | Sources/MB_Placeholder_View/MB_Placeholder_View.swift:100-107 | The image view is hidden exactly when there is no image. |
| `Placeholder.PlaceholderView.SetTitle` | Sources/MB_Placeholder_View/MB_Placeholder_View.swift:145-152 | The title label is hidden exactly when the title and the attributed title are both nil or empty. |
| `Placeholder.PlaceholderView.SetAttributedTitle` | Sources/MB_Placeholder_View/MB_Placeholder_View.swift:156-163 | Same rule as `SetTitle`, established from the other side. |
| `Placeholder.PlaceholderView.SetContent` | Sources/MB_Placeholder_View/MB_Placeholder_View.swift:200-207 | The content label is hidden exactly when the content and the attributed content are both nil or empty. |
| `Placeholder.PlaceholderView.SetAttributedContent` | Sources/MB_Placeholder_View/MB_Placeholder_View.swift:211-218 | Same rule as `SetContent`, established from the other side. |
| `Placeholder.PlaceholderView.SetPrimaryButtonTitle` | Sources/MB_Placeholder_View/MB_Placeholder_View.swift:276-283 | The primary button is hidden exactly when its title is nil or empty and it has no image. The secondary button is untouched. |
| `Placeholder.PlaceholderView.SetPrimaryButtonImage` | Sources/MB_Placeholder_View/MB_Placeholder_View.swift:287-294 | Same rule as the primary title setter, after the image changes. |
| `Placeholder.PlaceholderView.SetSecondaryButtonTitle` | Sources/MB_Placeholder_View/MB_Placeholder_View.swift:329-336 | The secondary button is hidden exactly when its title is nil or empty and it has no image. The primary button is untouched. |
| `Placeholder.PlaceholderView.SetSecondaryButtonImage` | Sources/MB_Placeholder_View/MB_Placeholder_View.swift:340-347 | Same rule as the secondary title setter, after the image changes. |
| `Placeholder.PlaceholderView.SetLoading` | Sources/MB_Placeholder_View/MB_Placeholder_View.swift:412-418 | The spinner animates exactly while loading and is hidden exactly while stopped. |
| `Placeholder.PlaceholderView.SetCentered` | Sources/MB_Placeholder_View/MB_Placeholder_View.swift:423-429 | The scroll view takes the flag and keeps its geometry. Its inset becomes the centering inset when the flag is on and is kept when it is off. |
| `Placeholder.PlaceholderView.InsertAfter` | Sources/MB_Placeholder_View/MB_Placeholder_View.swift:361-374 | The arrangement becomes `InsertedAfter` of the old one and stays free of repetition. |
| `Placeholder.PlaceholderView.InsertBefore` | Sources/MB_Placeholder_View/MB_Placeholder_View.swift:378-391 | The arrangement becomes `InsertedBefore` (as written) of the old one and stays free of repetition. |
| `Placeholder.PlaceholderView.Prepend` | Sources/MB_Placeholder_View/MB_Placeholder_View.swift:395-398 | The view becomes the first arranged view, followed by the old arrangement. |
| `Placeholder.PlaceholderView.Append` | Sources/MB_Placeholder_View/MB_Placeholder_View.swift:402-405 | The view becomes the last arranged view, after the old arrangement. |

## Findings

| source | as written | input that shows it | evidently intended | confidence | as-written member | corrected member |
|---|---|---|---|---|---|---|
| Sources/MB_Placeholder_View/MB_Placeholder_View.swift:384 | `insert(_:before:)` inserts at `index - 1`, ahead of the target's predecessor. | Initial arrangement, insert `X` before the title: the result is [image, X, spinner, title, …]. | Insert at `index`, directly before the target, as its doc comment at line 376 says | high; not executed | `StackArrangement.InsertBeforeMissesTarget` | `StackArrangement.InsertedDirectlyBefore` |
| Sources/MB_Placeholder_View/MB_Placeholder_View.swift:382 | The guard `index != 0` skips the insertion when the target is the first arranged view, so the view is not inserted at all. | Initial arrangement, insert `X` before the image: the arrangement is unchanged and `X` is not in it. | Put the view in front of the first view, as "insert a view before another" at line 376 suggests. The guard may instead be intended to protect the `index - 1` above. | medium; not executed | `StackArrangement.InsertBeforeFirstDropsView` | `StackArrangement.InsertDirectlyBeforeFirstPrepends` |

`PlaceholderView.InsertBefore` keeps the behaviour as written, because the class models the widget as shipped. `InsertedDirectlyBefore` and `InsertDirectlyBeforeHitsTarget` state the intended behaviour. `set(spacing:before:)` (lines 89-92) targets the predecessor correctly (`PredecessorPrecedes`).

## Left out

- Pass-through styling (`imageColor`, `loadingColor`, fonts, colors, alignments, button styles, tint colors): each only copies a value into a UIKit object, so there is nothing to state. The default font size constant (14) belongs to these and is not modelled.
- `imageHeightRatio` and every SnapKit layout constraint: these are calls into a layout engine with no result that can be stated here.
- The button actions and `MB_Button` itself: an external library whose code is not part of this model. A button is only its title, image presence and hidden flag.
- The text a `UILabel` renders when both `text` and `attributedText` are set: that is UIKit behaviour. Only the stored properties and the hidden flags are modelled.
- Inserting a view that is already arranged: UIKit would move it. Every insert method requires a fresh id, and `Valid()` keeps the arranged ids distinct.
- `setCustomSpacing(_:after:)` for a view that is not arranged: the model records the value anyway, and what UIKit does with it is not modelled.
- UIKit's layout passes, which set the scroll view's `bounds` and `contentSize`: they appear only as the methods `SetBounds` and `SetContentSize` of the scroll view.
- Lazy initialisation order: all children are built during `init(frame:)`, which the constructor models directly.
- `init(coder:)` (it always ends in `fatalError`), the empty `setUp()` hook, rendering and animation frames.
- Floating-point rounding in the inset formula: `CGFloat` is an exact `real`.
