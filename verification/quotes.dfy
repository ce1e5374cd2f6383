/**
 * The quote widgets (src/components/ui/OnePieceQuotes.tsx): the quote table, the
 * rotating quote index, the random-quote hook, and the easter-egg click counter.
 */
module OnePieceQuotes {

  datatype Quote = Quote(quote: string, character: string, context: string)

  /** The quote table, in display order. */
  const QUOTES: seq<Quote> := [
    Quote("I don't want to conquer anything. I just think the guy with the most freedom in this entire ocean is the Pirate King!",
      "Monkey D. Luffy", "freedom"),
    Quote("Power isn't determined by your size, but the size of your heart and dreams!",
      "Monkey D. Luffy", "determination"),
    Quote("If you don't take risks, you can't create a future!",
      "Monkey D. Luffy", "courage"),
    Quote("When do you think people die? When they are shot through the heart by the bullet of a pistol? No. When they are ravaged by an incurable disease? No. When they drink a soup made from a poisonous mushroom!? No! It's when... they are forgotten.",
      "Dr. Hiluluk", "legacy"),
    Quote("Being alone is more painful than getting hurt.",
      "Monkey D. Luffy", "friendship"),
    Quote("I don't care what the society says. I've never regretted doing anything for my friends.",
      "Roronoa Zoro", "loyalty"),
    Quote("Scars on the back are a swordsman's shame.",
      "Roronoa Zoro", "honor"),
    Quote("Forgetting is like a wound. The wound may heal but it has already left a scar.",
      "Monkey D. Luffy", "memory"),
    Quote("I want to live!",
      "Nico Robin", "hope"),
    Quote("Miracles only happen to those who never give up.",
      "Usopp", "perseverance"),
    Quote("The world isn't perfect, but it's there for us trying the best it can. That's what makes it so beautiful.",
      "Roy Mustang", "acceptance"),
    Quote("When the world shoves you around, you just gotta stand up and shove back. It's not like somebody's gonna save you if you start babbling excuses.",
      "Roronoa Zoro", "resilience")
  ]

  /** The table's length, the modulus of the rotation. */
  const QUOTE_COUNT: nat := 12

  lemma QuoteCount()
    ensures |QUOTES| == QUOTE_COUNT
  {
  }

  /** The default rotation period in milliseconds. */
  const ROTATION_INTERVAL: nat := 10000

  /** Interval callbacks that have fired `elapsed` ms after the interval was set, at the default period. */
  function Ticks(elapsed: nat): (k: nat)
    ensures k * ROTATION_INTERVAL <= elapsed < (k + 1) * ROTATION_INTERVAL
  {
    elapsed / ROTATION_INTERVAL
  }
  /** Clicks needed to discover the easter egg. */
  const CLICKS_TO_DISCOVER: nat := 5

  /** `Math.floor(random * length)`: a valid index for any draw in [0, 1). */
  function InitialIndex(random: real): (i: nat)
    requires 0.0 <= random < 1.0
    ensures i < |QUOTES|
    ensures i as real <= random * |QUOTES| as real < i as real + 1.0
  {
    (random * |QUOTES| as real).Floor
  }

  /** The interval callback's updater: the next quote, wrapping from the last to the first. */
  function Next(prev: nat): (r: nat)
    requires prev < QUOTE_COUNT
    ensures r < QUOTE_COUNT
    ensures prev + 1 < QUOTE_COUNT ==> r == prev + 1
    ensures prev + 1 == QUOTE_COUNT ==> r == 0
  {
    (prev + 1) % QUOTE_COUNT
  }

  /** The index after `k` interval ticks. */
  function Rotate(i: nat, k: nat): (r: nat)
    requires i < QUOTE_COUNT
    ensures r < QUOTE_COUNT
  {
    if k == 0 then i else Next(Rotate(i, k - 1))
  }

  /** `k` ticks advance the index by `k` places around the table. */
  lemma {:induction false} RotateIsModular(i: nat, k: nat)
    requires i < QUOTE_COUNT
    ensures Rotate(i, k) == (i + k) % QUOTE_COUNT
  {
    if k > 0 {
      RotateIsModular(i, k - 1);
      NextOfRemainder(i + k - 1);
    }
  }

  /** Advancing from the remainder of `a` lands on the remainder of `a + 1`. */
  lemma NextOfRemainder(a: nat)
    ensures Next(a % QUOTE_COUNT) == (a + 1) % QUOTE_COUNT
  {
    ModSuccessor(a);
  }

  /** Adding one to a number moves its remainder modulo the table size one place on, wrapping to 0. */
  lemma ModSuccessor(a: nat)
    ensures a % 12 + 1 < 12 ==> (a + 1) % 12 == a % 12 + 1
    ensures a % 12 + 1 == 12 ==> (a + 1) % 12 == 0
  {
  }

  /** After one tick per quote the widget shows the quote it started with. */
  lemma FullCycle(i: nat)
    requires i < |QUOTES|
    ensures Rotate(i, |QUOTES|) == i
  {
    QuoteCount();
    RotateIsModular(i, |QUOTES|);
  }

  /** `useRandomQuote`: the quote at a random index, always one of the table's. */
  function RandomQuote(random: real): (q: Quote)
    requires 0.0 <= random < 1.0
    ensures q in QUOTES
  {
    QUOTES[InitialIndex(random)]
  }

  /** The quote widget's index cell and its auto-rotate prop. */
  class QuoteRotator {
    var index: nat
    const autoRotate: bool

    ghost predicate Valid()
      reads this
    {
      index < |QUOTES|
    }

    /** The first render: a random starting quote. */
    constructor (random: real, autoRotate: bool)
      requires 0.0 <= random < 1.0
      ensures Valid() && index == InitialIndex(random) && this.autoRotate == autoRotate
    {
      index := InitialIndex(random);
      this.autoRotate := autoRotate;
    }

    /** The quote on screen. */
    function Current(): (q: Quote)
      requires Valid()
      reads this
      ensures q in QUOTES
    {
      QUOTES[index]
    }

    /**
     * `ticks` periods of the interval: with auto-rotation off no interval exists and
     * the index stays; otherwise each tick moves to the next quote.
     */
    method Elapse(ticks: nat)
      requires Valid()
      modifies this
      ensures Valid()
      ensures !autoRotate ==> index == old(index)
      ensures autoRotate ==> index == Rotate(old(index), ticks) == (old(index) + ticks) % |QUOTES|
    {
      QuoteCount();
      if !autoRotate {
        return;
      }
      for k := 0 to ticks
        invariant index == Rotate(old(index), k)
      {
        index := Next(index);
      }
      RotateIsModular(old(index), ticks);
    }
  }

  /** The easter egg's two state cells. */
  datatype Egg = Egg(discovered: bool, clickCount: nat)

  /** One click: the count goes up by one; the flag is left to the effect. */
  function Clicked(e: Egg): (r: Egg)
    ensures r.clickCount == e.clickCount + 1 && r.discovered == e.discovered
  {
    e.(clickCount := e.clickCount + 1)
  }

  /** "Hide treasure": the flag drops; the count is kept. */
  function Hidden(e: Egg): (r: Egg)
    ensures !r.discovered && r.clickCount == e.clickCount
  {
    e.(discovered := false)
  }

  /** The effect that runs after each change: five or more clicks reveal the treasure. */
  function Settled(e: Egg): (r: Egg)
    ensures r.clickCount == e.clickCount
    ensures r.discovered <==> e.discovered || e.clickCount >= CLICKS_TO_DISCOVER
  {
    if e.clickCount >= CLICKS_TO_DISCOVER && !e.discovered then e.(discovered := true) else e
  }

  /** Once at least five clicks happened, hiding is undone by the effect that follows it. */
  lemma HideIsUndone(e: Egg)
    requires e.clickCount >= CLICKS_TO_DISCOVER
    ensures Settled(Hidden(e)) == Settled(e)
    ensures Settled(Hidden(e)).discovered
  {
  }

  /** Clicking and settling `n` times from the initial state. */
  function ClickTimes(n: nat): Egg
  {
    if n == 0 then Egg(false, 0) else Settled(Clicked(ClickTimes(n - 1)))
  }

  /** After `n` clicks the count is `n` and the treasure is shown exactly when `n >= 5`. */
  lemma {:induction false} ClickTimesState(n: nat)
    ensures ClickTimes(n).clickCount == n
    ensures ClickTimes(n).discovered <==> n >= CLICKS_TO_DISCOVER
  {
    if n > 0 {
      ClickTimesState(n - 1);
    }
  }

  /** The easter-egg component's state, kept by its methods in agreement with the effect. */
  class EasterEgg {
    var discovered: bool
    var clickCount: nat

    function State(): Egg
      reads this
    {
      Egg(discovered, clickCount)
    }

    /** The flag is only ever set by the effect, so it implies five clicks. */
    ghost predicate Valid()
      reads this
    {
      discovered ==> clickCount >= CLICKS_TO_DISCOVER
    }

    constructor ()
      ensures Valid() && State() == Egg(false, 0)
    {
      discovered := false;
      clickCount := 0;
    }

    method Click()
      requires Valid()
      modifies this
      ensures Valid() && State() == Clicked(old(State()))
    {
      clickCount := clickCount + 1;
    }

    method Hide()
      requires Valid()
      modifies this
      ensures Valid() && State() == Hidden(old(State()))
    {
      discovered := false;
    }

    /** The effect over `[clickCount, discovered]`. */
    method RunEffect()
      requires Valid()
      modifies this
      ensures Valid() && State() == Settled(old(State()))
      ensures discovered <==> clickCount >= CLICKS_TO_DISCOVER
    {
      if clickCount >= CLICKS_TO_DISCOVER && !discovered {
        discovered := true;
      }
    }
  }
}
