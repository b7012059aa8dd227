/** The four lock-screen skins (AcerView, BB10View, ElugaView, SenseView): their lock states,
    density-dependent parameters, grab radius and "past the unlock threshold" test. */
module LockSkins {

  datatype Skin = Acer | BB10 | Eluga | Sense

  /** The six states of the unlock machine (STATE_RESET_LOCK = 0 .. STATE_UNLOCK_SUCCESS = 5). */
  datatype LockState = ResetLock | Ready | StartAttempt | Attempting | UnlockAttempt | UnlockSuccess

  /** Density tiers read from ro.sf.lcd_density: at most 120, 121..180, and anything above. */
  datatype Tier = Low | Medium | High

  function TierOf(dpi: int): (t: Tier)
    ensures t == Low <==> dpi <= 120
    ensures t == High <==> dpi > 180
  {
    if dpi <= 120 then Low
    else if dpi <= 180 && dpi > 120 then Medium
    else High
  }

  /** Per-skin geometry, one variant per skin (all lengths in pixels). */
  datatype Metrics =
    | BB10Metrics(ringRadius: int, snapRadius: int, pos1: int, pos2: int, pos3: int, pos4: int)
    | ElugaMetrics(ringRadius: int, snapRadius: int)
    | SenseMetrics(ringRadius: int, plusY: int, unlockPos: int)
    | AcerMetrics(ringRadius: int, snapRadius: int, unlockPos: int)

  function SkinOf(m: Metrics): Skin {
    match m
    case BB10Metrics(_, _, _, _, _, _) => BB10
    case ElugaMetrics(_, _) => Eluga
    case SenseMetrics(_, _, _) => Sense
    case AcerMetrics(_, _, _) => Acer
  }

  /** The geometric sanity every table row satisfies: a positive ring, with the unlock
      offsets and snap radius strictly inside it. */
  predicate WellShaped(m: Metrics) {
    match m
    case BB10Metrics(ring, snap, p1, p2, p3, p4) =>
      0 < snap && 0 < p4 < p3 < p2 < p1 < ring
    case ElugaMetrics(ring, snap) => 0 < snap < ring
    case SenseMetrics(ring, plusY, unlockPos) => 0 < unlockPos < plusY < ring
    case AcerMetrics(ring, snap, unlockPos) => 0 < unlockPos < snap < ring
  }

  /** Component-wise "no larger than" between two rows of the same skin. */
  predicate NoLarger(a: Metrics, b: Metrics) {
    match (a, b)
    case (BB10Metrics(r, s, p1, p2, p3, p4), BB10Metrics(r', s', p1', p2', p3', p4')) =>
      r <= r' && s <= s' && p1 <= p1' && p2 <= p2' && p3 <= p3' && p4 <= p4'
    case (ElugaMetrics(r, s), ElugaMetrics(r', s')) => r <= r' && s <= s'
    case (SenseMetrics(r, y, u), SenseMetrics(r', y', u')) => r <= r' && y <= y' && u <= u'
    case (AcerMetrics(r, s, u), AcerMetrics(r', s', u')) => r <= r' && s <= s' && u <= u'
    case _ => false
  }

  /** BB10View.initDrawables: ring / snap / pos1..pos4 per density; the field
      initialisers are the values kept above 180 dpi. */
  function BB10Table(dpi: int): (m: Metrics)
    ensures m.BB10Metrics? && WellShaped(m)
    ensures dpi > 180 ==> m.ringRadius == 1280
  {
    match TierOf(dpi)
    case Low => BB10Metrics(320, 50, 240, 220, 160, 14)
    case Medium => BB10Metrics(480, 75, 360, 330, 240, 21)
    case High => BB10Metrics(1280, 200, 960, 880, 640, 55)
  }

  /** ElugaView.initDrawables: ring / snap per density. */
  function ElugaTable(dpi: int): (m: Metrics)
    ensures m.ElugaMetrics? && WellShaped(m)
    ensures dpi > 180 ==> m.ringRadius == 320 && m.snapRadius == 180
  {
    match TierOf(dpi)
    case Low => ElugaMetrics(160, 90)
    case Medium => ElugaMetrics(213, 120)
    case High => ElugaMetrics(320, 180)
  }

  /** SenseView.initDrawables: ring / plusY / unlockpos per density. */
  function SenseTable(dpi: int): (m: Metrics)
    ensures m.SenseMetrics? && WellShaped(m)
    ensures dpi > 180 ==> m.ringRadius == 1280 && m.plusY == 580 && m.unlockPos == 100
  {
    match TierOf(dpi)
    case Low => SenseMetrics(320, 145, 55)
    case Medium => SenseMetrics(480, 220, 80)
    case High => SenseMetrics(1280, 580, 100)
  }

  /** AcerView.initDrawables: ring / snap / unlockpos per density. */
  function AcerTable(dpi: int): (m: Metrics)
    ensures m.AcerMetrics? && WellShaped(m)
    ensures dpi > 180 ==> m.ringRadius == 520 && m.snapRadius == 255 && m.unlockPos == 240
  {
    match TierOf(dpi)
    case Low => AcerMetrics(130, 85, 80)
    case Medium => AcerMetrics(195, 113, 107)
    case High => AcerMetrics(520, 255, 240)
  }

  /** The parameter record a skin reads at construction for a given density. */
  function MetricsFor(skin: Skin, dpi: int): (m: Metrics)
    ensures SkinOf(m) == skin && WellShaped(m)
  {
    match skin
    case Acer => AcerTable(dpi)
    case BB10 => BB10Table(dpi)
    case Eluga => ElugaTable(dpi)
    case Sense => SenseTable(dpi)
  }

  /** A denser screen never gets a smaller parameter, for any skin. */
  lemma MetricsGrowWithDensity(skin: Skin, dpi: int, dpi': int)
    requires dpi <= dpi'
    ensures NoLarger(MetricsFor(skin, dpi), MetricsFor(skin, dpi'))
  {
    assert TierOf(dpi) == High ==> TierOf(dpi') == High;
    assert TierOf(dpi') == Low ==> TierOf(dpi) == Low;
  }

  /** The unlock threshold of each skin, evaluated in ATTEMPTING and again in UNLOCK_ATTEMPT:
      BB10 wants the finger above centerY - pos4, Sense above centerY + unlockpos,
      Eluga and Acer a drag distance beyond the snap radius. */
  predicate PastThreshold(m: Metrics, mouseY: real, centerY: real, dragDistance: int) {
    match m
    case BB10Metrics(_, _, _, _, _, pos4) => mouseY < centerY - pos4 as real
    case SenseMetrics(_, _, unlockPos) => mouseY < centerY + unlockPos as real
    case ElugaMetrics(_, snap) => dragDistance > snap
    case AcerMetrics(_, snap, _) => dragDistance > snap
  }

  /** The unlock test is monotone: a finger further up the screen and further from the centre
      is past the threshold whenever the original one was. */
  lemma PastThresholdMonotone(m: Metrics, mouseY: real, mouseY': real, centerY: real, d: int, d': int)
    requires mouseY' <= mouseY && d <= d'
    ensures PastThreshold(m, mouseY, centerY, d) ==> PastThreshold(m, mouseY', centerY, d')
  {
  }

  /** Where a RESET_LOCK frame sends the halo back to (its y coordinate): below the centre
      by pos3 on BB10 and by plusY on Sense, the centre itself on Eluga and Acer. A halo at
      rest is never past the unlock threshold. */
  function HaloRestY(m: Metrics, centerY: real): (y: real)
    requires WellShaped(m)
    ensures y >= centerY
    ensures !PastThreshold(m, y, centerY, 0)
  {
    match m
    case BB10Metrics(_, _, _, _, pos3, _) => centerY + pos3 as real
    case SenseMetrics(_, plusY, _) => centerY + plusY as real
    case ElugaMetrics(_, _) => centerY
    case AcerMetrics(_, _, _) => centerY
  }

  /** GRAB_HANDLE_RADIUS_SCALE_ACCESSIBILITY_{ENABLED,DISABLED}: 1.0 / 0.5, except Acer (1.0 / 1.0). */
  function GrabScale(skin: Skin, accessibility: bool): (s: real)
    ensures 0.0 < s <= 1.0
    ensures accessibility ==> s == 1.0
    ensures s < 1.0 <==> !accessibility && skin != Acer
  {
    if accessibility || skin == Acer then 1.0 else 0.5
  }

  /** getScaledGrabHandleRadius: the halo width scaled by the accessibility-dependent factor. */
  function GrabRadius(skin: Skin, accessibility: bool, haloWidth: nat): (r: real)
    ensures 0.0 <= r <= haloWidth as real
    ensures accessibility ==> r == haloWidth as real
    ensures !accessibility && skin != Acer ==> 2.0 * r == haloWidth as real
  {
    GrabScale(skin, accessibility) * haloWidth as real
  }

  /** On Acer the grab radius is the halo width whether accessibility is on or off. */
  lemma AcerGrabRadiusIgnoresAccessibility(haloWidth: nat)
    ensures GrabRadius(Acer, true, haloWidth) == GrabRadius(Acer, false, haloWidth) == haloWidth as real
  {
  }

  /** Which states the lock timer (mLockTimerActions) sends back to RESET_LOCK:
      ATTEMPTING always, UNLOCK_SUCCESS only on Eluga. */
  predicate TimerResets(skin: Skin, s: LockState): (b: bool)
    ensures b ==> s == Attempting || s == UnlockSuccess
    ensures s == Attempting ==> b
    ensures s == UnlockSuccess ==> (b <==> skin == Eluga)
  {
    s == Attempting || (skin == Eluga && s == UnlockSuccess)
  }

  /** VIBRATE_LONG, used when the trigger is dispatched (0 on BB10, 40 ms elsewhere). */
  function VibrateLong(skin: Skin): (ms: int)
    ensures 0 <= ms <= 40
    ensures ms == 0 <==> skin == BB10
  {
    if skin == BB10 then 0 else 40
  }

  /** Acer's shadescale: dragDistance * 2 / ringRadius, clamped at 1. */
  function ShadeScale(dragDistance: nat, ringRadius: int): (s: real)
    requires ringRadius > 0
    ensures 0.0 <= s <= 1.0
    ensures s == 1.0 <==> 2 * dragDistance >= ringRadius
    ensures s < 1.0 ==> s * ringRadius as real == 2.0 * dragDistance as real
  {
    var raw := dragDistance as real * 2.0 / ringRadius as real;
    ScaledQuotient(dragDistance as real * 2.0, ringRadius as real);
    if raw >= 1.0 then 1.0 else raw
  }

  /** The quotient of a non-negative numerator by a positive ring, undone by multiplying back,
      reaches 1 exactly when the numerator reaches the ring. */
  lemma ScaledQuotient(n: real, r: real)
    requires 0.0 <= n && 0.0 < r
    ensures (n / r) * r == n && 0.0 <= n / r
    ensures n / r >= 1.0 <==> n >= r
  {
  }
}
