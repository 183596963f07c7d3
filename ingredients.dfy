/**
 * The PREP phase's ingredients (class Ingredient of sprites.py): where a new one is placed and
 * the alpha its blinking warning gives it.
 *
 * The random draws are arbitrary integers reduced into the range the source's `randrange` asks for;
 * the size of the rotated image, which pygame computes, is an input.
 */
module Ingredients {
  import opened Settings
  import opened Geometry

  /** An ingredient: its bounding rectangle, its rotation in degrees and the tick it was made at. */
  datatype Ingredient = Ingredient(rect: Rect, angle: int, creationTime: int)

  /**
   * What spawning one ingredient draws from the outside: three random draws (angle, x, y) and the
   * size of the 64-pixel square after pygame has rotated it by the angle.
   */
  datatype SpawnDraws = SpawnDraws(angleSeed: int, xSeed: int, ySeed: int, width: int, height: int)

  /** Python's `randrange(lo, hi)` fed with the draw `seed`: a value of [lo, hi). */
  function RandRange(lo: int, hi: int, seed: int): (r: int)
    requires lo < hi
    ensures lo <= r < hi
  {
    lo + seed % (hi - lo)
  }

  /** Every value of [lo, hi) can come out of RandRange. */
  lemma RandRangeCovers(lo: int, hi: int, v: int)
    requires lo <= v < hi
    ensures RandRange(lo, hi, v - lo) == v
  {
  }

  /** The ingredient spawned by the draws `sd` at tick `now` (Ingredient.__init__). */
  function NewIngredient(sd: SpawnDraws, now: int): (ing: Ingredient)
    requires sd.width < ScreenWidth
    ensures 0 <= ing.angle <= 360
    ensures 0 <= ing.rect.x < ScreenWidth - ing.rect.width
    ensures 0 <= ing.rect.y < Max(1, ScreenHeight / 3 - ing.rect.height)
    ensures ing.rect.width == sd.width && ing.rect.height == sd.height
    ensures ing.creationTime == now
  {
    var angle := RandRange(0, 360 + 1, sd.angleSeed);
    var x := RandRange(0, ScreenWidth - sd.width, sd.xSeed);
    var maxY := ScreenHeight / 3 - sd.height;
    var y := RandRange(0, Max(1, maxY), sd.ySeed);
    Ingredient(Rect(x, y, sd.width, sd.height), angle, now)
  }

  /** A spawned ingredient lies wholly inside the screen's width and, when it fits, above its top third's lower edge. */
  lemma SpawnOnScreen(sd: SpawnDraws, now: int)
    requires 0 <= sd.width < ScreenWidth && 0 <= sd.height < ScreenHeight / 3
    ensures var r := NewIngredient(sd, now).rect;
            0 <= r.x && r.x + r.width < ScreenWidth && 0 <= r.y && r.y + r.height < ScreenHeight / 3
  {
  }

  const BlinkInterval: int := 200
  const DimAlpha: int := 50
  const FullAlpha: int := 255

  /**
   * Ingredient.update: the alpha the ingredient is drawn with at tick `now`. Once it is older than
   * the warning time it is dimmed during every other 200 ms window of the clock.
   */
  function Alpha(ing: Ingredient, now: int): (alpha: int)
    ensures alpha == DimAlpha || alpha == FullAlpha
    ensures now - ing.creationTime <= IngredientWarningTime ==> alpha == FullAlpha
  {
    var elapsed := now - ing.creationTime;
    if elapsed > IngredientWarningTime then
      if (now / BlinkInterval) % 2 == 0 then DimAlpha else FullAlpha
    else
      FullAlpha
  }

  /** Past the warning time the alpha is dim exactly in the even 200 ms windows of the clock. */
  lemma DimExactlyInEvenWindows(ing: Ingredient, now: int)
    requires now - ing.creationTime > IngredientWarningTime
    ensures Alpha(ing, now) == DimAlpha <==> (now / BlinkInterval) % 2 == 0
  {
  }

  /** Past the warning time the alpha flips every 200 ms. */
  lemma BlinkAlternates(ing: Ingredient, now: int)
    requires now - ing.creationTime > IngredientWarningTime
    ensures Alpha(ing, now + BlinkInterval) != Alpha(ing, now)
  {
    assert (now + BlinkInterval) / BlinkInterval == now / BlinkInterval + 1;
  }
}
