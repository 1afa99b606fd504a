/**
 * The ordered list of arranged subviews of the placeholder's vertical stack
 * view, and the index arithmetic the placeholder performs on it when a host
 * inserts a view or asks for custom spacing next to one.
 */
module StackArrangement {
  import opened Optional

  /**
   * Identity of a view. The six children the placeholder builds for itself
   * are named; every view a host supplies is `Custom`.
   */
  datatype ViewId =
    | ImageView
    | ActivityIndicator
    | TitleLabel
    | ContentLabel
    | PrimaryButton
    | SecondaryButton
    | Custom(id: nat)

  /** The order the stack view is created with. */
  const InitialArrangement: seq<ViewId> :=
    [ImageView, ActivityIndicator, TitleLabel, ContentLabel, PrimaryButton, SecondaryButton]

  /** No view is arranged twice. */
  predicate Distinct(s: seq<ViewId>) {
    forall i, j :: 0 <= i < j < |s| ==> s[i] != s[j]
  }

  lemma InitialArrangementDistinct()
    ensures Distinct(InitialArrangement)
  {
  }

  /** Swift's `firstIndex(of:)`: the position of the first occurrence of `v`, if any. */
  function FirstIndex(s: seq<ViewId>, v: ViewId): (r: Option<nat>)
    ensures r.None? <==> v !in s
    ensures r.Some? ==> r.value < |s| && s[r.value] == v && v !in s[..r.value]
  {
    if s == [] then None
    else if s[0] == v then Some(0)
    else match FirstIndex(s[1..], v)
      case None => None
      case Some(i) =>
        assert s[..i + 1] == [s[0]] + s[1..][..i];
        Some(i + 1)
  }

  /** In a list without repetition, the first occurrence of an element is its only one. */
  lemma {:induction false} FirstIndexOfDistinct(s: seq<ViewId>, k: nat)
    requires Distinct(s) && k < |s|
    ensures FirstIndex(s, s[k]) == Some(k)
  {
    assert s[k] in s;
  }

  /** An index holding `v` with no earlier occurrence is the one `FirstIndex` finds. */
  lemma FirstIndexAt(s: seq<ViewId>, v: ViewId, k: nat)
    requires k < |s| && s[k] == v && v !in s[..k]
    ensures FirstIndex(s, v) == Some(k)
  {
  }

  /** The list with every occurrence of `v` taken out, the others in their order. */
  function Remove(s: seq<ViewId>, v: ViewId): (r: seq<ViewId>)
    ensures forall x :: x in r <==> x in s && x != v
    ensures |r| <= |s|
  {
    if s == [] then []
    else (if s[0] == v then [] else [s[0]]) + Remove(s[1..], v)
  }

  /** One step of `Remove`: the head is dropped when it is `v` and kept otherwise. */
  lemma RemoveCons(x: ViewId, t: seq<ViewId>, v: ViewId)
    ensures Remove([x] + t, v) == (if x == v then [] else [x]) + Remove(t, v)
  {
    assert ([x] + t)[1..] == t;
  }

  lemma {:induction false} RemoveAppend(a: seq<ViewId>, b: seq<ViewId>, v: ViewId)
    ensures Remove(a + b, v) == Remove(a, v) + Remove(b, v)
  {
    if a == [] {
      assert a + b == b;
    } else {
      var x, t := a[0], a[1..];
      var head := if x == v then [] else [x];
      calc {
        Remove(a + b, v);
        { assert a + b == [x] + (t + b); RemoveCons(x, t + b, v); }
        head + Remove(t + b, v);
        { RemoveAppend(t, b, v); }
        head + (Remove(t, v) + Remove(b, v));
        (head + Remove(t, v)) + Remove(b, v);
        { assert a == [x] + t; RemoveCons(x, t, v); }
        Remove(a, v) + Remove(b, v);
      }
    }
  }

  lemma {:induction false} RemoveAbsent(s: seq<ViewId>, v: ViewId)
    requires v !in s
    ensures Remove(s, v) == s
  {
    if s != [] {
      RemoveAbsent(s[1..], v);
    }
  }

  /**
   * `insertArrangedSubview(_:at:)` of the stack view, for a view that is not
   * yet arranged: the view lands at `k`, the others keep their places around it.
   */
  function InsertAt(s: seq<ViewId>, v: ViewId, k: nat): (r: seq<ViewId>)
    requires k <= |s|
    ensures |r| == |s| + 1 && r[k] == v
    ensures forall j :: 0 <= j < k ==> r[j] == s[j]
    ensures forall j :: k < j < |r| ==> r[j] == s[j - 1]
  {
    s[..k] + [v] + s[k..]
  }

  /** Inserting a fresh view and taking it out again gives back the list: the others keep their relative order. */
  lemma {:induction false} RemoveInsertAt(s: seq<ViewId>, v: ViewId, k: nat)
    requires v !in s && k <= |s|
    ensures Remove(InsertAt(s, v, k), v) == s
  {
    var front, back := s[..k], s[k..];
    assert s == front + back;
    assert v !in front && v !in back;
    var r := InsertAt(s, v, k);
    assert r == front + ([v] + back);
    calc {
      Remove(r, v);
      { RemoveAppend(front, [v] + back, v); }
      Remove(front, v) + Remove([v] + back, v);
      { RemoveAppend([v], back, v); assert Remove([v], v) == []; }
      Remove(front, v) + Remove(back, v);
      { RemoveAbsent(front, v); RemoveAbsent(back, v); }
      front + back;
    }
  }

  /** Inserting a fresh view keeps every arranged view, adds only that one, and keeps the list free of repetition. */
  lemma DistinctInsertAt(s: seq<ViewId>, v: ViewId, k: nat)
    requires Distinct(s) && v !in s && k <= |s|
    ensures Distinct(InsertAt(s, v, k))
    ensures forall x :: x in InsertAt(s, v, k) <==> x == v || x in s
  {
  }

  /** Appending is inserting at the end. */
  lemma AppendKeepsDistinct(s: seq<ViewId>, v: ViewId)
    requires Distinct(s) && v !in s
    ensures Distinct(s + [v]) && forall x :: x in s + [v] <==> x == v || x in s
  {
    assert InsertAt(s, v, |s|) == s + [v];
    DistinctInsertAt(s, v, |s|);
  }

  /**
   * `insert(_:after:)`: a nil target appends; an arranged target gets the new
   * view directly after it; a target that is not arranged changes nothing.
   */
  function InsertedAfter(s: seq<ViewId>, v: ViewId, after: Option<ViewId>): (r: seq<ViewId>)
    requires v !in s
    ensures after.None? ==> r == s + [v]
    ensures after.Some? && after.value !in s ==> r == s
    ensures after.Some? && after.value in s ==>
      var i := FirstIndex(s, after.value).value;
      |r| == |s| + 1 && r[i] == after.value && r[i + 1] == v && Remove(r, v) == s
  {
    match after
    case None => s + [v]
    case Some(target) =>
      match FirstIndex(s, target)
      case None => s
      case Some(i) =>
        RemoveInsertAt(s, v, i + 1);
        InsertAt(s, v, i + 1)
  }

  /**
   * `insert(_:before:)` as the source has it: the view goes to `index - 1`,
   * that is ahead of the target's predecessor; a target that is first or not
   * arranged changes nothing; a nil target appends.
   */
  function InsertedBefore(s: seq<ViewId>, v: ViewId, before: Option<ViewId>): (r: seq<ViewId>)
    requires v !in s
    ensures before.None? ==> r == s + [v]
    ensures before.Some? && (before.value !in s || s[0] == before.value) ==> r == s
    ensures before.Some? && before.value in s && s[0] != before.value ==>
      var i := FirstIndex(s, before.value).value;
      && 0 < i && |r| == |s| + 1
      && r[i - 1] == v && r[i] == s[i - 1] && r[i + 1] == before.value
      && Remove(r, v) == s
  {
    match before
    case None => s + [v]
    case Some(target) =>
      match FirstIndex(s, target)
      case None => s
      case Some(i) =>
        if i == 0 then s
        else
          RemoveInsertAt(s, v, i - 1);
          InsertAt(s, v, i - 1)
  }

  /**
   * As written, `insert(_:before:)` never puts the new view directly in front
   * of a target that has a predecessor: in the result the target is still
   * preceded by its old predecessor.
   */
  lemma InsertBeforeMissesTarget(s: seq<ViewId>, v: ViewId, t: ViewId)
    requires v !in s && t in s && s[0] != t
    ensures var r := InsertedBefore(s, v, Some(t));
            var j := FirstIndex(r, t).value;
            0 < j && r[j - 1] != v && r[j - 1] == s[FirstIndex(s, t).value - 1]
  {
    // The target moves from i to i + 1, and nothing in front of it is the target.
    var r := InsertedBefore(s, v, Some(t));
    var i := FirstIndex(s, t).value;
    assert t !in r[..i + 1] by {
      forall m | 0 <= m < i + 1 ensures r[m] != t {
        if m < i - 1 { assert r[m] == s[..i][m]; }
        else if m == i { assert r[m] == s[..i][i - 1]; }
      }
    }
    FirstIndexAt(r, t, i + 1);
  }

  /** The same gap on the initial arrangement: asked to go before the title, a view lands between image and spinner. */
  lemma InsertBeforeTitleExample()
    ensures InsertedBefore(InitialArrangement, Custom(0), Some(TitleLabel))
         == [ImageView, Custom(0), ActivityIndicator, TitleLabel, ContentLabel, PrimaryButton, SecondaryButton]
    ensures InsertedBefore(InitialArrangement, Custom(0), Some(ImageView)) == InitialArrangement
  {
    assert FirstIndex(InitialArrangement, TitleLabel) == Some(2);
    assert FirstIndex(InitialArrangement, ImageView) == Some(0);
  }

  /**
   * `insert(_:before:)` as its doc comment describes it: the view goes to the
   * target's own index, so directly before it, also when the target is first.
   */
  function InsertedDirectlyBefore(s: seq<ViewId>, v: ViewId, before: Option<ViewId>): (r: seq<ViewId>)
    requires v !in s
    ensures before.None? ==> r == s + [v]
    ensures before.Some? && before.value !in s ==> r == s
    ensures before.Some? && before.value in s ==>
      var i := FirstIndex(s, before.value).value;
      |r| == |s| + 1 && r[i] == v && r[i + 1] == before.value && Remove(r, v) == s
  {
    match before
    case None => s + [v]
    case Some(target) =>
      match FirstIndex(s, target)
      case None => s
      case Some(i) =>
        RemoveInsertAt(s, v, i);
        InsertAt(s, v, i)
  }

  /** With the corrected index, the view found directly in front of the target is the new one. */
  lemma InsertDirectlyBeforeHitsTarget(s: seq<ViewId>, v: ViewId, t: ViewId)
    requires v !in s && t in s
    ensures var r := InsertedDirectlyBefore(s, v, Some(t));
            var j := FirstIndex(r, t).value;
            0 < j && r[j - 1] == v
  {
  }

  /** As written, asking for a place before the first arranged view drops the new view. */
  lemma InsertBeforeFirstDropsView(s: seq<ViewId>, v: ViewId)
    requires v !in s && s != []
    ensures v !in InsertedBefore(s, v, Some(s[0]))
  {
  }

  /** With the corrected index, a place before the first arranged view puts the new view in front of all others. */
  lemma InsertDirectlyBeforeFirstPrepends(s: seq<ViewId>, v: ViewId)
    requires v !in s && s != []
    ensures InsertedDirectlyBefore(s, v, Some(s[0])) == [v] + s
  {
    assert FirstIndex(s, s[0]) == Some(0);
    assert s[..0] == [] && s[0..] == s;
  }

  /**
   * The view after which `set(spacing:before:)` records its spacing: the
   * predecessor of `v`, when `v` is arranged and not first.
   */
  function Predecessor(s: seq<ViewId>, v: ViewId): (r: Option<ViewId>)
    ensures r.Some? <==> v in s && s[0] != v
    ensures r.Some? ==> r.value in s && r.value != v
  {
    match FirstIndex(s, v)
    case None => None
    case Some(i) => if i == 0 then None else Some(s[i - 1])
  }

  /**
   * The gap after the predecessor is the gap before the target: in a list
   * without repetition the target comes right after it.
   */
  lemma PredecessorPrecedes(s: seq<ViewId>, v: ViewId)
    requires Distinct(s) && Predecessor(s, v).Some?
    ensures var p := Predecessor(s, v).value;
            FirstIndex(s, p).value + 1 == FirstIndex(s, v).value
  {
  }
}
