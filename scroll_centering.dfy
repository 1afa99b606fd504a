/**
 * The scroll view that hosts the placeholder's stack and, while centering is
 * on, pads content smaller than its bounds so that it sits in the middle.
 * `CGFloat` is modelled as `real`.
 */
module ScrollCentering {

  datatype Size = Size(width: real, height: real)

  datatype EdgeInsets = EdgeInsets(top: real, left: real, bottom: real, right: real)

  const ZeroSize := Size(0.0, 0.0)
  const ZeroInsets := EdgeInsets(0.0, 0.0, 0.0, 0.0)

  /** Margin on one side of one axis: half the room left over, or none when the content fills the viewport. */
  function AxisMargin(viewport: real, content: real): (m: real)
    ensures m >= 0.0
    ensures content < viewport ==> m + content + m == viewport
    ensures viewport <= content ==> m == 0.0
  {
    if content < viewport then (viewport - content) / 2.0 else 0.0
  }

  /**
   * The inset that centers `content` inside `bounds`: on each axis where the
   * content is smaller, equal margins that make content and margins fill the
   * bounds exactly; no margin on an axis where the content is not smaller.
   */
  function CenteringInset(bounds: Size, content: Size): (r: EdgeInsets)
    ensures r.bottom == r.top && r.right == r.left
    ensures r.top >= 0.0 && r.left >= 0.0
    ensures content.width < bounds.width ==> r.left + content.width + r.right == bounds.width
    ensures bounds.width <= content.width ==> r.left == 0.0
    ensures content.height < bounds.height ==> r.top + content.height + r.bottom == bounds.height
    ensures bounds.height <= content.height ==> r.top == 0.0
  {
    var top := AxisMargin(bounds.height, content.height);
    var left := AxisMargin(bounds.width, content.width);
    EdgeInsets(top, left, top, left)
  }

  /** Two worked cases: a 100x100 content in a 300x300 viewport, and a 400x400 content in the same viewport. */
  lemma CenteringExamples()
    ensures CenteringInset(Size(300.0, 300.0), Size(100.0, 100.0)) == EdgeInsets(100.0, 100.0, 100.0, 100.0)
    ensures CenteringInset(Size(300.0, 300.0), Size(400.0, 400.0)) == ZeroInsets
  {
  }

  /** `MB_Placeholder_ScrollView`: the centering state and the geometry its inset is computed from. */
  class CenteringScrollView {
    var isCentered: bool
    var bounds: Size
    var contentSize: Size
    var contentInset: EdgeInsets

    /** While centering is on, the inset is the centering inset of the current geometry. */
    ghost predicate Valid()
      reads this
    {
      isCentered ==> contentInset == CenteringInset(bounds, contentSize)
    }

    /** A fresh scroll view has no size and no inset; the placeholder then turns centering on. */
    constructor ()
      ensures Valid()
      ensures isCentered && bounds == ZeroSize && contentSize == ZeroSize && contentInset == ZeroInsets
    {
      isCentered := true;
      bounds := ZeroSize;
      contentSize := ZeroSize;
      contentInset := ZeroInsets;
    }

    /**
     * `updateContentInset()`: recomputes the inset from the geometry when
     * centering is on and leaves it alone otherwise. When the inset was
     * already up to date, it stays as it is, so recomputing is idempotent.
     */
    method UpdateContentInset()
      modifies this`contentInset
      ensures Valid()
      ensures !isCentered ==> contentInset == old(contentInset)
      ensures old(Valid()) ==> contentInset == old(contentInset)
    {
      if isCentered {
        var top := 0.0;
        var left := 0.0;
        if contentSize.width < bounds.width {
          left := (bounds.width - contentSize.width) / 2.0;
        }
        if contentSize.height < bounds.height {
          top := (bounds.height - contentSize.height) / 2.0;
        }
        contentInset := EdgeInsets(top, left, top, left);
      }
    }

    /** Setting `isCentered` recomputes the inset. */
    method SetCentered(centered: bool)
      modifies this`isCentered, this`contentInset
      ensures Valid() && isCentered == centered
      ensures !centered ==> contentInset == old(contentInset)
    {
      isCentered := centered;
      UpdateContentInset();
    }

    /** A new `bounds` (set by layout) recomputes the inset. */
    method SetBounds(newBounds: Size)
      modifies this`bounds, this`contentInset
      ensures Valid() && bounds == newBounds
      ensures !isCentered ==> contentInset == old(contentInset)
    {
      bounds := newBounds;
      UpdateContentInset();
    }

    /** A new `contentSize` (set by layout) recomputes the inset. */
    method SetContentSize(newSize: Size)
      modifies this`contentSize, this`contentInset
      ensures Valid() && contentSize == newSize
      ensures !isCentered ==> contentInset == old(contentInset)
    {
      contentSize := newSize;
      UpdateContentInset();
    }
  }
}
