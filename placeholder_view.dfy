/**
 * `MB_Placeholder_View`: the stored properties a host sets, the visibility of
 * the child views each setter maintains, the stack view's arrangement and
 * spacing, and the centering scroll view. Images are reduced to present or
 * absent and attributed strings to their plain `string`.
 */
module Placeholder {
  import opened Optional
  import opened StackArrangement
  import opened ScrollCentering

  /** `UI.Margins`, the default spacing between arranged views. */
  const Margins: real := 15.0

  /** Swift's `s?.isEmpty ?? true`: no text, or empty text. */
  predicate IsBlank(s: Option<string>) {
    s.None? || |s.value| == 0
  }

  /** A label is hidden when neither its plain nor its attributed text has characters. */
  predicate LabelHidden(text: Option<string>, attributedText: Option<string>) {
    IsBlank(text) && IsBlank(attributedText)
  }

  /** A button is hidden when it has neither a non-empty title nor an image. */
  predicate ButtonHidden(title: Option<string>, hasImage: bool) {
    IsBlank(title) && !hasImage
  }

  class PlaceholderView {
    // The stack view: its arranged subviews, its spacing and its custom spacings.
    var arranged: seq<ViewId>
    var stackSpacing: real
    var customSpacing: map<ViewId, real>
    const scrollView: CenteringScrollView

    // Stored public properties.
    var spacing: real
    var hasImage: bool
    var title: Option<string>
    var attributedTitle: Option<string>
    var content: Option<string>
    var attributedContent: Option<string>
    var primaryButtonTitle: Option<string>
    var hasPrimaryButtonImage: bool
    var secondaryButtonTitle: Option<string>
    var hasSecondaryButtonImage: bool
    var isLoading: bool
    var isCentered: bool

    // State of the owned child views.
    var imageHidden: bool
    var titleHidden: bool
    var contentHidden: bool
    var primaryButtonHidden: bool
    var secondaryButtonHidden: bool
    var spinnerAnimating: bool
    var spinnerHidden: bool

    /** The image view shows exactly when there is an image. */
    ghost predicate ImageInSync()
      reads this`hasImage, this`imageHidden
    {
      imageHidden == !hasImage
    }

    /** The title label is hidden exactly when neither title text has characters. */
    ghost predicate TitleInSync()
      reads this`title, this`attributedTitle, this`titleHidden
    {
      titleHidden == LabelHidden(title, attributedTitle)
    }

    /** The content label is hidden exactly when neither content text has characters. */
    ghost predicate ContentInSync()
      reads this`content, this`attributedContent, this`contentHidden
    {
      contentHidden == LabelHidden(content, attributedContent)
    }

    /** The primary button is hidden exactly when it has neither a title nor an image. */
    ghost predicate PrimaryButtonInSync()
      reads this`primaryButtonTitle, this`hasPrimaryButtonImage, this`primaryButtonHidden
    {
      primaryButtonHidden == ButtonHidden(primaryButtonTitle, hasPrimaryButtonImage)
    }

    /** The secondary button is hidden exactly when it has neither a title nor an image. */
    ghost predicate SecondaryButtonInSync()
      reads this`secondaryButtonTitle, this`hasSecondaryButtonImage, this`secondaryButtonHidden
    {
      secondaryButtonHidden == ButtonHidden(secondaryButtonTitle, hasSecondaryButtonImage)
    }

    /** The spinner animates exactly while loading, and is hidden exactly while stopped. */
    ghost predicate SpinnerInSync()
      reads this`isLoading, this`spinnerAnimating, this`spinnerHidden
    {
      spinnerAnimating == isLoading && spinnerHidden == !spinnerAnimating
    }

    /**
     * Each view is arranged at most once, the six built-in children stay
     * arranged, and the stack view's spacing is `spacing`.
     */
    ghost predicate StackInSync()
      reads this`arranged, this`spacing, this`stackSpacing
    {
      && Distinct(arranged)
      && (forall i :: 0 <= i < |InitialArrangement| ==> InitialArrangement[i] in arranged)
      && stackSpacing == spacing
    }

    /** The scroll view centers exactly when `isCentered` says, and its inset is up to date. */
    ghost predicate ScrollInSync()
      reads this`isCentered, scrollView
    {
      scrollView.isCentered == isCentered && scrollView.Valid()
    }

    /** The object invariant: every child is in sync with the properties that drive it. */
    ghost predicate Valid()
      reads this, scrollView
    {
      && ImageInSync() && TitleInSync() && ContentInSync()
      && PrimaryButtonInSync() && SecondaryButtonInSync()
      && SpinnerInSync() && StackInSync() && ScrollInSync()
    }

    /**
     * `init(frame:)`: every property at its default, the children built from
     * them (so all hidden), arranged in their fixed initial order.
     */
    constructor ()
      ensures Valid() && fresh(scrollView)
      ensures arranged == InitialArrangement && customSpacing == map[]
      ensures spacing == Margins && !isLoading && isCentered
      ensures !hasImage && title == None && attributedTitle == None
      ensures content == None && attributedContent == None
      ensures primaryButtonTitle == None && !hasPrimaryButtonImage
      ensures secondaryButtonTitle == None && !hasSecondaryButtonImage
      ensures imageHidden && titleHidden && contentHidden
      ensures primaryButtonHidden && secondaryButtonHidden
      ensures !spinnerAnimating && spinnerHidden
      ensures scrollView.contentInset == ZeroInsets
    {
      // Stored properties at their defaults.
      var noText: Option<string> := None;
      var noImage, loading := false, false;
      spacing := Margins;
      hasImage := noImage;
      title, attributedTitle := noText, noText;
      content, attributedContent := noText, noText;
      primaryButtonTitle, hasPrimaryButtonImage := noText, noImage;
      secondaryButtonTitle, hasSecondaryButtonImage := noText, noImage;
      isLoading := loading;
      isCentered := true;

      // Children built from those properties; a stopped spinner hides itself.
      imageHidden := !noImage;
      spinnerAnimating, spinnerHidden := loading, !loading;
      titleHidden := LabelHidden(noText, noText);
      contentHidden := LabelHidden(noText, noText);
      primaryButtonHidden := ButtonHidden(noText, noImage);
      secondaryButtonHidden := ButtonHidden(noText, noImage);

      // The stack view and the scroll view that hosts it.
      arranged := InitialArrangement;
      stackSpacing := Margins;
      customSpacing := map[];
      scrollView := new CenteringScrollView();
      InitialArrangementDistinct();
    }

    /** `spacing`: also becomes the stack view's spacing. */
    method SetSpacing(newSpacing: real)
      requires Valid()
      modifies this`spacing, this`stackSpacing
      ensures Valid() && spacing == newSpacing && stackSpacing == newSpacing
    {
      spacing := newSpacing;
      stackSpacing := spacing;
    }

    /** `set(spacing:after:)`: records a custom spacing after `view`. */
    method SetSpacingAfter(newSpacing: real, view: ViewId)
      requires Valid()
      modifies this`customSpacing
      ensures Valid() && customSpacing == old(customSpacing)[view := newSpacing]
    {
      customSpacing := customSpacing[view := newSpacing];
    }

    /**
     * `set(spacing:before:)`: records a custom spacing after the predecessor
     * of `view`; nothing when `view` is first or not arranged.
     */
    method SetSpacingBefore(newSpacing: real, view: ViewId)
      requires Valid()
      modifies this`customSpacing
      ensures Valid()
      ensures Predecessor(arranged, view).None? ==> customSpacing == old(customSpacing)
      ensures Predecessor(arranged, view).Some? ==>
        customSpacing == old(customSpacing)[Predecessor(arranged, view).value := newSpacing]
    {
      var index := FirstIndex(arranged, view);
      if index.Some? && index.value != 0 {
        var previous := arranged[index.value - 1];
        customSpacing := customSpacing[previous := newSpacing];
      }
    }

    /** `image`: the image view shows exactly when there is an image. */
    method SetImage(present: bool)
      requires Valid()
      modifies this`hasImage, this`imageHidden
      ensures Valid() && hasImage == present && imageHidden == !present
    {
      hasImage := present;
      imageHidden := !hasImage;
    }

    /** `title`: the title label is hidden when neither title text has characters. */
    method SetTitle(newTitle: Option<string>)
      requires Valid()
      modifies this`title, this`titleHidden
      ensures Valid() && title == newTitle
      ensures titleHidden <==> IsBlank(newTitle) && IsBlank(attributedTitle)
    {
      title := newTitle;
      titleHidden := IsBlank(title) && IsBlank(attributedTitle);
    }

    /** `attributedTitle`, by its plain string. */
    method SetAttributedTitle(newTitle: Option<string>)
      requires Valid()
      modifies this`attributedTitle, this`titleHidden
      ensures Valid() && attributedTitle == newTitle
      ensures titleHidden <==> IsBlank(title) && IsBlank(newTitle)
    {
      attributedTitle := newTitle;
      titleHidden := IsBlank(attributedTitle) && IsBlank(title);
    }

    /** `content`: the content label is hidden when neither content text has characters. */
    method SetContent(newContent: Option<string>)
      requires Valid()
      modifies this`content, this`contentHidden
      ensures Valid() && content == newContent
      ensures contentHidden <==> IsBlank(newContent) && IsBlank(attributedContent)
    {
      content := newContent;
      contentHidden := IsBlank(content) && IsBlank(attributedContent);
    }

    /** `attributedContent`, by its plain string. */
    method SetAttributedContent(newContent: Option<string>)
      requires Valid()
      modifies this`attributedContent, this`contentHidden
      ensures Valid() && attributedContent == newContent
      ensures contentHidden <==> IsBlank(content) && IsBlank(newContent)
    {
      attributedContent := newContent;
      contentHidden := IsBlank(attributedContent) && IsBlank(content);
    }

    /** `primaryButtonTitle`: the primary button is hidden when it has neither title nor image. */
    method SetPrimaryButtonTitle(newTitle: Option<string>)
      requires Valid()
      modifies this`primaryButtonTitle, this`primaryButtonHidden
      ensures Valid() && primaryButtonTitle == newTitle
      ensures primaryButtonHidden <==> IsBlank(newTitle) && !hasPrimaryButtonImage
    {
      primaryButtonTitle := newTitle;
      primaryButtonHidden := IsBlank(primaryButtonTitle) && !hasPrimaryButtonImage;
    }

    /** `primaryButtonImage`, as present or absent. */
    method SetPrimaryButtonImage(present: bool)
      requires Valid()
      modifies this`hasPrimaryButtonImage, this`primaryButtonHidden
      ensures Valid() && hasPrimaryButtonImage == present
      ensures primaryButtonHidden <==> IsBlank(primaryButtonTitle) && !present
    {
      hasPrimaryButtonImage := present;
      primaryButtonHidden := IsBlank(primaryButtonTitle) && !hasPrimaryButtonImage;
    }

    /** `secondaryButtonTitle`: the secondary button is hidden when it has neither title nor image. */
    method SetSecondaryButtonTitle(newTitle: Option<string>)
      requires Valid()
      modifies this`secondaryButtonTitle, this`secondaryButtonHidden
      ensures Valid() && secondaryButtonTitle == newTitle
      ensures secondaryButtonHidden <==> IsBlank(newTitle) && !hasSecondaryButtonImage
    {
      secondaryButtonTitle := newTitle;
      secondaryButtonHidden := IsBlank(secondaryButtonTitle) && !hasSecondaryButtonImage;
    }

    /** `secondaryButtonImage`, as present or absent. */
    method SetSecondaryButtonImage(present: bool)
      requires Valid()
      modifies this`hasSecondaryButtonImage, this`secondaryButtonHidden
      ensures Valid() && hasSecondaryButtonImage == present
      ensures secondaryButtonHidden <==> IsBlank(secondaryButtonTitle) && !present
    {
      hasSecondaryButtonImage := present;
      secondaryButtonHidden := IsBlank(secondaryButtonTitle) && !hasSecondaryButtonImage;
    }

    /**
     * `isLoading`: starts or stops the spinner, which shows while it animates
     * and hides when stopped.
     */
    method SetLoading(loading: bool)
      requires Valid()
      modifies this`isLoading, this`spinnerAnimating, this`spinnerHidden
      ensures Valid() && isLoading == loading
      ensures spinnerAnimating == loading && spinnerHidden == !loading
    {
      isLoading := loading;
      if isLoading {
        spinnerAnimating, spinnerHidden := true, false;
      } else {
        spinnerAnimating, spinnerHidden := false, true;
      }
    }

    /** `isCentered`: passed on to the scroll view, which recomputes its inset. */
    method SetCentered(centered: bool)
      requires Valid()
      modifies this`isCentered, scrollView
      ensures Valid() && isCentered == centered
      ensures scrollView.bounds == old(scrollView.bounds)
      ensures scrollView.contentSize == old(scrollView.contentSize)
      ensures centered ==> scrollView.contentInset == CenteringInset(scrollView.bounds, scrollView.contentSize)
      ensures !centered ==> scrollView.contentInset == old(scrollView.contentInset)
    {
      isCentered := centered;
      scrollView.SetCentered(isCentered);
    }

    /** `insert(_:after:)`, for a view that is not yet arranged. */
    method InsertAfter(view: ViewId, after: Option<ViewId>)
      requires Valid() && view !in arranged
      modifies this`arranged
      ensures Valid() && arranged == InsertedAfter(old(arranged), view, after)
    {
      if after.Some? {
        var index := FirstIndex(arranged, after.value);
        if index.Some? {
          DistinctInsertAt(arranged, view, index.value + 1);
          arranged := InsertAt(arranged, view, index.value + 1);
        }
      } else {
        AppendKeepsDistinct(arranged, view);
        arranged := arranged + [view];
      }
    }

    /** `insert(_:before:)` as the source has it, for a view that is not yet arranged. */
    method InsertBefore(view: ViewId, before: Option<ViewId>)
      requires Valid() && view !in arranged
      modifies this`arranged
      ensures Valid() && arranged == InsertedBefore(old(arranged), view, before)
    {
      if before.Some? {
        var index := FirstIndex(arranged, before.value);
        if index.Some? && index.value != 0 {
          DistinctInsertAt(arranged, view, index.value - 1);
          arranged := InsertAt(arranged, view, index.value - 1);
        }
      } else {
        AppendKeepsDistinct(arranged, view);
        arranged := arranged + [view];
      }
    }

    /** `prepend(_:)`: the view becomes the first arranged one. */
    method Prepend(view: ViewId)
      requires Valid() && view !in arranged
      modifies this`arranged
      ensures Valid() && arranged == [view] + old(arranged)
    {
      DistinctInsertAt(arranged, view, 0);
      assert InsertAt(arranged, view, 0) == [view] + arranged;
      arranged := InsertAt(arranged, view, 0);
    }

    /** `append(_:)`: the view becomes the last arranged one. */
    method Append(view: ViewId)
      requires Valid() && view !in arranged
      modifies this`arranged
      ensures Valid() && arranged == old(arranged) + [view]
    {
      AppendKeepsDistinct(arranged, view);
      arranged := arranged + [view];
    }
  }

}
