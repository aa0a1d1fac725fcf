/** The flash / cooldown state machine of a growth unit, one tick per frame,
    and the master fade of VoiceTree. */
module Lifecycle {
  import opened Arith
  import opened Audio
  import opened Random

  /** opacity, isFlashing and cooldownTimer. */
  datatype Life = Life(opacity: real, flashing: bool, cooldown: real)

  const Dt := 0.016
  const DecayRate := 2.5
  /** The opacity lost per flashing tick. */
  const FadePerTick := Dt * DecayRate

  /** The states the machine can reach: opacity in [0,1], positive exactly
      while flashing, and a cooldown below 2 that has overshot zero by less
      than one tick. */
  predicate Ok(l: Life)
  {
    && 0.0 <= l.opacity <= 1.0
    && (l.flashing <==> l.opacity > 0.0)
    && -Dt < l.cooldown < 2.0
  }

  /** The state at construction: dark, with a cooldown of r * 2. */
  function Initial(r: real): (l: Life)
    requires 0.0 <= r < 1.0
    ensures Ok(l) && !l.flashing && l.opacity == 0.0
  {
    Life(0.0, false, r * 2.0)
  }

  /** A flash that has just been lit. */
  function Ignited(l: Life): (m: Life)
    ensures m.opacity == 1.0 && m.flashing && m.cooldown == l.cooldown
  {
    Life(1.0, true, l.cooldown)
  }

  /** Leaving the territory darkens the unit and keeps its cooldown. */
  function Evicted(l: Life): (m: Life)
    ensures Ok(l) ==> Ok(m)
    ensures m.opacity == 0.0 && !m.flashing && m.cooldown == l.cooldown
  {
    Life(0.0, false, l.cooldown)
  }

  /** Whether a tick from l reaches the trigger test. */
  predicate Armed(l: Life)
  {
    !l.flashing && l.cooldown <= 0.0
  }

  /** Whether a tick from l ends the flash (and so draws a new cooldown). */
  predicate Expires(l: Life)
  {
    l.flashing && l.opacity - FadePerTick <= 0.0
  }

  /** One in-territory tick. r is the next random draw: it sets the new
      cooldown when the flash expires; ignite says whether the trigger test,
      if reached, fires. */
  function Tick(l: Life, ignite: bool, r: real): (m: Life)
    requires 0.0 <= r < 1.0
    ensures Ok(l) ==> Ok(m)
    ensures Expires(l) ==> !m.flashing && m.opacity == 0.0 && 0.2 <= m.cooldown < 1.7
    ensures l.flashing && !Expires(l) ==> m == l.(opacity := l.opacity - FadePerTick)
    ensures !l.flashing && l.cooldown > 0.0 ==> m == l.(cooldown := l.cooldown - Dt)
    ensures Armed(l) ==> (m.flashing <==> ignite)
    ensures Armed(l) && ignite ==> m == Ignited(l)
    ensures Armed(l) && !ignite ==> m == l
  {
    if l.flashing then
      var o := l.opacity - Dt * DecayRate;
      if o <= 0.0 then Life(0.0, false, 0.2 + r * 1.5)
      else l.(opacity := o)
    else if l.cooldown > 0.0 then
      l.(cooldown := l.cooldown - Dt)
    else if ignite then Ignited(l)
    else l
  }

  /** The draws a tick consumes: one for an expiring flash, and for Tree one
      for the flux of the trigger test. */
  function TickDraws(l: Life, drawsFlux: bool): (n: nat)
    ensures n <= 1
    ensures Expires(l) ==> n == 1
    ensures Armed(l) ==> (n == 1 <==> drawsFlux)
    ensures !Expires(l) && !Armed(l) ==> n == 0
  {
    if l.flashing then (if l.opacity - FadePerTick <= 0.0 then 1 else 0)
    else if l.cooldown > 0.0 then 0
    else if drawsFlux then 1 else 0
  }

  // -------------------------------------------------------------- Tree's trigger

  /** bass * 0.6 + mid * 0.8 + treble * 1.5. */
  function TreeEnergy(b: Bands): real
  {
    b.bass * 0.6 + b.mid * 0.8 + b.treble * 1.5
  }

  /** The energy is zero for silence, and in [0, 2.9] for bands in [0, 1]. */
  lemma TreeEnergyRange(b: Bands)
    ensures b == Silence ==> TreeEnergy(b) == 0.0
    ensures NonNegative(b) ==> TreeEnergy(b) >= 0.0
    ensures b.bass <= 1.0 && b.mid <= 1.0 && b.treble <= 1.0 ==> TreeEnergy(b) <= 2.9
  {
  }

  /** The random flux added to the threshold, (r - 0.5) * 0.15. */
  function Flux(r: real): (f: real)
    requires 0.0 <= r < 1.0
    ensures -0.075 <= f < 0.075
  {
    (r - 0.5) * 0.15
  }

  /** The trigger fires when the energy beats the threshold moved by the flux. */
  predicate TreeIgnites(energy: real, threshold: real, r: real)
    requires 0.0 <= r < 1.0
  {
    energy > threshold + Flux(r)
  }

  /** The flux moves the threshold by less than 0.075 either way: an energy
      above threshold + 0.075 always fires, one at or below threshold - 0.075
      never does. */
  lemma IgnitionBand(energy: real, threshold: real, r: real)
    requires 0.0 <= r < 1.0
    ensures energy >= threshold + 0.075 ==> TreeIgnites(energy, threshold, r)
    ensures energy <= threshold - 0.075 ==> !TreeIgnites(energy, threshold, r)
  {
  }

  /** Silence never lights a Tree: threshold + flux is at least 0.075. */
  lemma SilenceNeverIgnitesTree(threshold: real, r: real)
    requires 0.15 <= threshold && 0.0 <= r < 1.0
    ensures !TreeIgnites(TreeEnergy(Silence), threshold, r)
  {
  }

  /** n in-territory Tree ticks fed the same bands, reading draws from d at c. */
  function TreeRun(l: Life, threshold: real, b: Bands, d: nat -> real, c: nat, n: nat): (m: Life)
    requires UnitDraws(d)
    ensures Ok(l) ==> Ok(m)
    decreases n, c
  {
    if n == 0 then l
    else
      var next := Tick(l, TreeIgnites(TreeEnergy(b), threshold, d(c)), d(c));
      TreeRun(next, threshold, b, d, c + TickDraws(l, true), n - 1)
  }

  /** A tick whose trigger does not fire leaves a dark unit dark. */
  lemma QuietTickStaysDark(l: Life, r: real)
    requires Ok(l) && !l.flashing && 0.0 <= r < 1.0
    ensures Ok(Tick(l, false, r)) && !Tick(l, false, r).flashing
  {
  }

  /** A dark Tree fed silence stays dark, whatever the draws and however long. */
  lemma {:induction false} SilentTreeStaysDark(l: Life, threshold: real, d: nat -> real, c: nat, n: nat)
    requires UnitDraws(d) && Ok(l) && !l.flashing && 0.15 <= threshold
    ensures !TreeRun(l, threshold, Silence, d, c, n).flashing
    ensures TreeRun(l, threshold, Silence, d, c, n).opacity == 0.0
    decreases n
  {
    if n > 0 {
      var c' := c + TickDraws(l, true);
      var next := Tick(l, TreeIgnites(TreeEnergy(Silence), threshold, d(c)), d(c));
      SilenceNeverIgnitesTree(threshold, d(c));
      QuietTickStaysDark(l, d(c));
      assert next == Tick(l, false, d(c));
      SilentTreeStaysDark(next, threshold, d, c', n - 1);
    }
  }

  /** A flash decays linearly: after k < 25 ticks it is still lit at 1 - 0.04 k. */
  lemma {:induction false} FlashDecaysLinearly(l: Life, threshold: real, b: Bands, d: nat -> real, c: nat, k: nat)
    requires UnitDraws(d) && l.flashing && l.opacity == 1.0 && k < 25
    ensures TreeRun(l, threshold, b, d, c, k) == l.(opacity := 1.0 - FadePerTick * k as real)
    decreases k
  {
    if k > 0 {
      FlashDecaysLinearly(l, threshold, b, d, c, k - 1);
      TreeRunLast(l, threshold, b, d, c, k - 1);
    }
  }

  /** ... and the 25th tick puts it out and starts a cooldown in [0.2, 1.7). */
  lemma {:induction false} FlashLasts25Ticks(l: Life, threshold: real, b: Bands, d: nat -> real, c: nat)
    requires UnitDraws(d) && l.flashing && l.opacity == 1.0
    ensures TreeRun(l, threshold, b, d, c, 24).flashing
    ensures !TreeRun(l, threshold, b, d, c, 25).flashing
    ensures TreeRun(l, threshold, b, d, c, 25).opacity == 0.0
    ensures 0.2 <= TreeRun(l, threshold, b, d, c, 25).cooldown < 1.7
  {
    assert FadePerTick == 0.04;
    FlashDecaysLinearly(l, threshold, b, d, c, 24);
    TreeRunLast(l, threshold, b, d, c, 24);
    assert Expires(TreeRun(l, threshold, b, d, c, 24));
  }

  /** The last tick of a run: TreeRun(l, k + 1) is one Tick after TreeRun(l, k). */
  lemma {:induction false} TreeRunLast(l: Life, threshold: real, b: Bands, d: nat -> real, c: nat, k: nat)
    requires UnitDraws(d)
    ensures exists c' :: (TreeRun(l, threshold, b, d, c, k + 1)
      == Tick(TreeRun(l, threshold, b, d, c, k), TreeIgnites(TreeEnergy(b), threshold, d(c')), d(c')))
    decreases k
  {
    if k == 0 {
      assert TreeRun(l, threshold, b, d, c, 1)
        == Tick(l, TreeIgnites(TreeEnergy(b), threshold, d(c)), d(c));
    } else {
      var next := Tick(l, TreeIgnites(TreeEnergy(b), threshold, d(c)), d(c));
      TreeRunLast(next, threshold, b, d, c + TickDraws(l, true), k - 1);
    }
  }

  // --------------------------------------------------------- VoiceTree's gate

  const VoiceGate := 0.35
  const VoiceThreshold := 0.3

  /** The noise gate: mids below 0.35 count as silence; the rest are squared
      and tripled. */
  function VoiceEnergy(mid: real): (e: real)
    ensures mid < VoiceGate ==> e == 0.0
    ensures mid >= VoiceGate ==> e == 3.0 * Sq(mid)
  {
    var raw := if mid < VoiceGate then 0.0 else mid;
    3.0 * Sq(raw)
  }

  /** An armed VoiceTree fires exactly when mid reaches the gate: below it
      the energy is 0, at it 3 * 0.35^2 = 0.3675 already beats 0.3. */
  lemma {:induction false} VoiceTriggerIff(mid: real)
    ensures VoiceEnergy(mid) > VoiceThreshold <==> mid >= VoiceGate
  {
    if mid >= VoiceGate {
      SqMonotone(VoiceGate, mid);
      assert Sq(VoiceGate) == 0.1225;
    }
  }

  // ------------------------------------------------------------- master fade

  /** masterAlpha moves 5% of the way to 1 (active) or 0 (inactive). */
  function Fade(alpha: real, active: bool): (a: real)
    ensures active ==> 1.0 - a == 0.95 * (1.0 - alpha)
    ensures !active ==> a == 0.95 * alpha
    ensures 0.0 <= alpha <= 1.0 ==> 0.0 <= a <= 1.0
    ensures 0.0 <= alpha <= 1.0 && active ==> alpha <= a
    ensures 0.0 <= alpha <= 1.0 && !active ==> a <= alpha
  {
    var target := if active then 1.0 else 0.0;
    alpha + (target - alpha) * 0.05
  }

  /** n frames of fading in the same direction. */
  function FadeRun(alpha: real, active: bool, n: nat): (a: real)
    ensures 0.0 <= alpha <= 1.0 ==> 0.0 <= a <= 1.0
    decreases n
  {
    if n == 0 then alpha else FadeRun(Fade(alpha, active), active, n - 1)
  }

  /** Fading keeps the distance to the target positive: an inactive unit fed
      frames never reaches 0 exactly, it only drops under the 0.01 cut-off. */
  lemma {:induction false} FadeNeverOvershoots(alpha: real, active: bool, n: nat)
    requires 0.0 <= alpha <= 1.0
    ensures active ==> alpha <= FadeRun(alpha, active, n) <= 1.0
    ensures !active ==> 0.0 <= FadeRun(alpha, active, n) <= alpha
    ensures !active && alpha > 0.0 ==> FadeRun(alpha, active, n) > 0.0
    decreases n
  {
    if n > 0 {
      FadeNeverOvershoots(Fade(alpha, active), active, n - 1);
    }
  }
}
