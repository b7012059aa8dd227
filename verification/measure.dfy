/** onMeasure of the four lock skins (identical in all four): each dimension is the
    suggested minimum (ring plus halo) clamped by an AT_MOST spec, the spec size under EXACTLY,
    and the suggested minimum when unspecified. */
module Measure {

  /** MeasureSpec: a mode with its size. */
  datatype Spec = AtMost(size: nat) | Exactly(size: nat) | Unspecified(size: nat)

  datatype Size = Size(width: nat, height: nat)

  function Min(a: nat, b: nat): nat {
    if a < b then a else b
  }

  /** One dimension, measured against the minimum meant for it. */
  function Dimension(spec: Spec, minimum: nat): (d: nat)
    ensures spec.AtMost? ==> d <= spec.size && d <= minimum && (d == spec.size || d == minimum)
    ensures spec.Exactly? ==> d == spec.size
    ensures spec.Unspecified? ==> d == minimum
  {
    match spec
    case AtMost(size) => Min(size, minimum)
    case Exactly(size) => size
    case Unspecified(_) => minimum
  }

  /** onMeasure as written: the height's AT_MOST branch clamps getSuggestedMinimumWidth
      instead of getSuggestedMinimumHeight. */
  function OnMeasureAsWritten(w: Spec, h: Spec, minWidth: nat, minHeight: nat): (s: Size)
    ensures s.width == Dimension(w, minWidth)
    ensures h.AtMost? ==> s.height == Dimension(h, minWidth)
    ensures !h.AtMost? ==> s.height == Dimension(h, minHeight)
  {
    Size(Dimension(w, minWidth),
         match h
         case AtMost(size) => Min(size, minWidth)
         case Exactly(size) => size
         case Unspecified(_) => minHeight)
  }

  /** onMeasure as evidently intended: each dimension uses its own minimum. It agrees with the
      code as written on the width always, and on the height unless the height is AT_MOST; each
      dimension is its spec size or its own minimum, and an AT_MOST bound is never exceeded. */
  function OnMeasure(w: Spec, h: Spec, minWidth: nat, minHeight: nat): (s: Size)
    ensures s.width == Dimension(w, minWidth) && s.height == Dimension(h, minHeight)
    ensures s.width == OnMeasureAsWritten(w, h, minWidth, minHeight).width
    ensures !h.AtMost? ==> s == OnMeasureAsWritten(w, h, minWidth, minHeight)
    ensures (s.width == w.size || s.width == minWidth) && (s.height == h.size || s.height == minHeight)
    ensures (w.AtMost? ==> s.width <= w.size) && (h.AtMost? ==> s.height <= h.size)
  {
    Size(Dimension(w, minWidth), Dimension(h, minHeight))
  }

  /** The corrected measurement treats width and height alike: measuring a transposed view
      gives the transposed size. */
  lemma OnMeasureTransposes(w: Spec, h: Spec, minWidth: nat, minHeight: nat)
    ensures var s := OnMeasure(w, h, minWidth, minHeight);
      OnMeasure(h, w, minHeight, minWidth) == Size(s.height, s.width)
  {
  }

  /** The corrected measurement never goes below what an unconstrained parent would grant,
      except where the parent's AT_MOST bound forces it, and then it takes the whole bound. */
  lemma OnMeasureHonoursMinimum(w: Spec, h: Spec, minWidth: nat, minHeight: nat)
    ensures var s := OnMeasure(w, h, minWidth, minHeight);
      (h.AtMost? ==> (s.height < minHeight <==> h.size < minHeight) && (s.height < minHeight ==> s.height == h.size))
      && (w.AtMost? ==> (s.width < minWidth <==> w.size < minWidth) && (s.width < minWidth ==> s.width == w.size))
  {
  }

  /** As written, an AT_MOST height of 2000 with a 300 x 500 minimum measures 300 high,
      cutting off the ring; the corrected measurement gives 500, and transposition fails. */
  lemma AsWrittenCutsHeight()
    ensures OnMeasureAsWritten(Exactly(300), AtMost(2000), 300, 500) == Size(300, 300)
    ensures OnMeasure(Exactly(300), AtMost(2000), 300, 500) == Size(300, 500)
    ensures OnMeasureAsWritten(AtMost(2000), Exactly(300), 500, 300) == Size(500, 300)
  {
  }

  /** The two agree exactly when the height is not AT_MOST, or both minimums clamp alike. */
  lemma AsWrittenAgreesWhen(w: Spec, h: Spec, minWidth: nat, minHeight: nat)
    ensures OnMeasureAsWritten(w, h, minWidth, minHeight) == OnMeasure(w, h, minWidth, minHeight)
      <==> !h.AtMost? || Min(h.size, minWidth) == Min(h.size, minHeight)
  {
  }
}
