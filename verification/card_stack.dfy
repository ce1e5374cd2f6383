/**
 * The pinned card stack (src/components/sections/apple/CardStack.tsx): each card's
 * scroll-scrubbed target scale, y offset and opacity, its initial inline transform,
 * and the length of the pinned scroll range, all closed-form in the card index.
 */
module CardStack {

  /** The number of project cards in the section's table. */
  const PROJECT_COUNT: nat := 4

  /** The values handed to the tween of one card. */
  datatype Target = Target(scale: real, y: real, opacity: real)

  /** The inline style a card is rendered with before the tween takes over. */
  datatype Initial = Initial(translateY: real, scale: real, zIndex: nat)

  /** How many places card `i` of `n` sits behind the top card. */
  function Depth(n: nat, i: nat): int { n - 1 - i }

  /** The tween target of card `i` of `n`. */
  function CardTarget(n: nat, i: nat): (t: Target)
    ensures t.opacity == 0.8 || t.opacity == 1.0
    ensures i <= n - 1 ==> t.scale <= 1.0 && t.y <= 0.0
  {
    var d := Depth(n, i) as real;
    Target(1.0 - d * 0.05, -d * 20.0, if i < n - 1 then 0.8 else 1.0)
  }

  /** All tween targets, in card order. */
  function CardTargets(n: nat): (ts: seq<Target>)
    ensures |ts| == n
    ensures forall i :: 0 <= i < n ==> ts[i] == CardTarget(n, i)
  {
    seq(n, i requires 0 <= i < n => CardTarget(n, i))
  }

  /** The inline `translateY(10i px) scale(1 - 0.05i)` with `zIndex` i. */
  function InitialStyle(i: nat): (s: Initial)
    ensures s.zIndex == i && s.translateY >= 0.0 && s.scale <= 1.0
    ensures s.translateY == 10.0 * i as real && s.scale == 1.0 - 0.05 * i as real
  {
    Initial(i as real * 10.0, 1.0 - i as real * 0.05, i)
  }

  /** The pin lasts `n * 100` percent of the viewport. */
  function PinLengthPercent(n: nat): (p: nat)
    ensures p / 100 == n && p % 100 == 0
  {
    n * 100
  }

  /** The top card (the last one) ends at full size, in place, fully opaque. */
  lemma TopCard(n: nat)
    requires n > 0
    ensures CardTarget(n, n - 1) == Target(1.0, 0.0, 1.0)
  {
  }

  /** Every card below the top one fades to 0.8. */
  lemma BehindCardsFade(n: nat, i: nat)
    requires i < n - 1
    ensures CardTarget(n, i).opacity == 0.8
  {
  }

  /** Each step toward the top adds 0.05 to the scale and 20 to the y offset. */
  lemma StepBetweenCards(n: nat, i: nat)
    ensures CardTarget(n, i + 1).scale - CardTarget(n, i).scale == 0.05
    ensures CardTarget(n, i + 1).y - CardTarget(n, i).y == 20.0
  {
  }

  /** Scale and y offset strictly increase with the card index. */
  lemma {:induction false} TargetsIncrease(n: nat, i: nat, j: nat)
    requires i < j
    ensures CardTarget(n, i).scale < CardTarget(n, j).scale
    ensures CardTarget(n, i).y < CardTarget(n, j).y
  {
    StepBetweenCards(n, j - 1);
    if i < j - 1 {
      TargetsIncrease(n, i, j - 1);
    }
  }

  /** The initial stacking scales cards the other way round: card `i` starts at the size card `n-1-i` ends at. */
  lemma InitialIsReversedTarget(n: nat, i: nat)
    requires i < n
    ensures InitialStyle(i).scale == CardTarget(n, n - 1 - i).scale
  {
  }

  /** The section's four cards: their tween targets, from the back card to the top one, and a 400% pin. */
  lemma SiteStack()
    ensures CardTargets(PROJECT_COUNT) == [
      Target(0.85, -60.0, 0.8), Target(0.9, -40.0, 0.8), Target(0.95, -20.0, 0.8), Target(1.0, 0.0, 1.0)]
    ensures PinLengthPercent(PROJECT_COUNT) == 400
  {
    var ts := CardTargets(PROJECT_COUNT);
    assert ts[0] == CardTarget(4, 0) && ts[1] == CardTarget(4, 1) && ts[2] == CardTarget(4, 2) && ts[3] == CardTarget(4, 3);
  }
}
