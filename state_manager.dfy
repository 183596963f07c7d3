/**
 * The game's state machine (class StateManager of state_manager.py): the PREP phase, where
 * ingredients spawn and are clicked, and the TRAUMA phase, where the pointer must follow a nerve path.
 *
 * The class keeps the source's fields and its methods change them in place; each method is proved
 * to leave the fields as a pure step function of the old ones (AfterInput, AfterUpdate), and the
 * game's rules are proved as lemmas about those functions. The clock, the pointer and the random
 * draws are parameters.
 */
module StateMachine {
  import opened Wrappers
  import opened Settings
  import opened Geometry
  import opened Nerve
  import opened Ingredients

  datatype Phase = Prep | Trauma

  /** The input events the state machine looks at: a mouse-button press, or anything else. */
  datatype Event = MouseButtonDown(pos: Point) | OtherEvent

  const SpawnInterval: int := 2000
  /** Sanity restored when the pointer reaches the end zone of the nerve path. */
  const RecoveredSanity: int := 50
  /** The pointer's x must exceed this for the TRAUMA phase to succeed. */
  const SuccessX: int := ScreenWidth - 100

  /** The game state the state machine's fields hold. */
  datatype Game = Game(
    state: Phase,
    sanity: int,
    score: int,
    ingredients: seq<Ingredient>,
    spawnTimer: int,
    nervePath: Option<NervePath>,
    deviated: bool)

  /** The state of a fresh StateManager. */
  function Initial(): Game {
    Game(Prep, InitialSanity, 0, [], 0, None, false)
  }

  /** The first ingredient, in collection order, whose rectangle contains pos. */
  function FirstClicked(ings: seq<Ingredient>, pos: Point): (r: Option<nat>)
    ensures r.Some? ==> r.value < |ings| && ings[r.value].rect.CollidePoint(pos)
    ensures forall j | 0 <= j < (if r.Some? then r.value else |ings|) :: !ings[j].rect.CollidePoint(pos)
  {
    if |ings| == 0 then None
    else if ings[0].rect.CollidePoint(pos) then Some(0)
    else
      match FirstClicked(ings[1..], pos)
      case None => None
      case Some(k) => Some(k + 1)
  }

  /** The collection without its element k, the others kept in order. */
  function RemoveAt(ings: seq<Ingredient>, k: nat): (r: seq<Ingredient>)
    requires k < |ings|
    ensures |r| == |ings| - 1
    ensures forall j | 0 <= j < k :: r[j] == ings[j]
    ensures forall j | k <= j < |r| :: r[j] == ings[j + 1]
    ensures multiset(r) + multiset{ings[k]} == multiset(ings)
  {
    assert ings == ings[..k] + [ings[k]] + ings[k + 1..];
    ings[..k] + ings[k + 1..]
  }

  /** reset_trauma: install a fresh nerve path and clear the deviation flag. */
  function TraumaReset(g: Game, ds: seq<Draw>): Game
    requires PathDraws(ds)
  {
    g.(nervePath := Some(PathOf(ds)), deviated := false)
  }

  /**
   * handle_input: in PREP a mouse press on an ingredient scores one point and removes that
   * ingredient; a press on nothing costs the miss penalty. Every other case changes nothing.
   */
  function AfterInput(g: Game, e: Event): Game {
    if g.state == Prep && e.MouseButtonDown? then
      match FirstClicked(g.ingredients, e.pos)
      case Some(k) => g.(score := g.score + 1, ingredients := RemoveAt(g.ingredients, k))
      case None => g.(sanity := g.sanity - SanityPenaltyMiss)
    else
      g
  }

  /** The random draws an update may consume: a nerve path's steps and one ingredient's placement. */
  predicate UpdateDraws(ds: seq<Draw>, sd: SpawnDraws) {
    PathDraws(ds) && sd.width < ScreenWidth
  }

  /**
   * update, for the clock reading `now` and the pointer position `mouse`.
   * PREP: at or below the trauma threshold, switch to TRAUMA with a fresh path and do nothing else;
   * otherwise spawn one ingredient when more than the spawn interval has passed since the last.
   * TRAUMA: too far from the path drains one point of sanity; close enough clears the deviation
   * flag and, past the success line, restores sanity and returns to PREP with no ingredients.
   */
  function AfterUpdate(g: Game, now: int, mouse: Point, ds: seq<Draw>, sd: SpawnDraws): Game
    requires UpdateDraws(ds, sd)
  {
    match g.state
    case Prep => PrepFrame(g, now, ds, sd)
    case Trauma =>
      var g1 := if g.nervePath.None? then TraumaReset(g, ds) else g;
      TraumaFrame(g1, Deviation(g1.nervePath.value.points, mouse), mouse)
  }

  /** The PREP branch of update. */
  function PrepFrame(g: Game, now: int, ds: seq<Draw>, sd: SpawnDraws): Game
    requires UpdateDraws(ds, sd)
  {
    if g.sanity <= TraumaThreshold then
      TraumaReset(g.(state := Trauma), ds)
    else if now - g.spawnTimer > SpawnInterval then
      g.(ingredients := g.ingredients + [NewIngredient(sd, now)], spawnTimer := now)
    else
      g
  }

  /** The TRAUMA branch of update, once the pointer's deviation from the path is known. */
  function TraumaFrame(g: Game, distance: Distance, mouse: Point): Game {
    if TooFar(distance) then
      g.(deviated := true, sanity := g.sanity - 1)
    else if mouse.x > SuccessX then
      g.(deviated := false, sanity := RecoveredSanity, state := Prep, ingredients := [])
    else
      g.(deviated := false)
  }

  class StateManager {
    var state: Phase
    var sanity: int
    var score: int
    var ingredients: seq<Ingredient>
    var spawnTimer: int
    const spawnInterval: int := SpawnInterval
    var nervePath: Option<NervePath>
    var deviated: bool
    /** Set at construction and never read or changed afterwards. */
    const deviationStartTime: int := 0

    /** The game state the fields hold. */
    function Model(): Game
      reads this
    {
      Game(state, sanity, score, ingredients, spawnTimer, nervePath, deviated)
    }

    constructor ()
      ensures state == Prep && sanity == InitialSanity && score == 0
      ensures ingredients == [] && spawnTimer == 0 && spawnInterval == 2000
      ensures nervePath == None && !deviated
      ensures Model() == Initial()
    {
      state := Prep;
      sanity := InitialSanity;
      score := 0;
      ingredients := [];
      spawnTimer := 0;
      nervePath := None;
      deviated := false;
    }

    method ResetTrauma(ds: seq<Draw>)
      requires PathDraws(ds)
      modifies this
      ensures Model() == TraumaReset(old(Model()), ds)
    {
      var np := NewNervePath(ds);
      nervePath := Some(np);
      deviated := false;
    }

    method HandleInput(event: Event)
      modifies this
      ensures Model() == AfterInput(old(Model()), event)
    {
      if state == Prep {
        if event.MouseButtonDown? {
          var clicked: Option<nat> := None;
          var i := 0;
          while i < |ingredients|
            invariant 0 <= i <= |ingredients|
            invariant clicked == None
            invariant forall j | 0 <= j < i :: !ingredients[j].rect.CollidePoint(event.pos)
          {
            if ingredients[i].rect.CollidePoint(event.pos) {
              clicked := Some(i);
              break;
            }
            i := i + 1;
          }
          assert clicked == FirstClicked(ingredients, event.pos);

          if clicked.Some? {
            score := score + 1;
            ingredients := ingredients[..clicked.value] + ingredients[clicked.value + 1..];
          } else {
            sanity := sanity - SanityPenaltyMiss;
          }
        }
      } else {
        // Input in TRAUMA is read in Update through the pointer position.
      }
    }

    method Update(now: int, mouse: Point, ds: seq<Draw>, sd: SpawnDraws)
      requires UpdateDraws(ds, sd)
      modifies this
      ensures Model() == AfterUpdate(old(Model()), now, mouse, ds, sd)
    {
      if state == Prep {
        if sanity <= TraumaThreshold {
          state := Trauma;
          ResetTrauma(ds);
          return;
        }
        if now - spawnTimer > spawnInterval {
          ingredients := ingredients + [NewIngredient(sd, now)];
          spawnTimer := now;
        }
      } else {
        if nervePath.None? {
          ResetTrauma(ds);
        }
        var distance := CheckDeviation(nervePath.value.points, mouse);
        if TooFar(distance) {
          deviated := true;
          sanity := sanity - 1;
        } else {
          deviated := false;
          if mouse.x > SuccessX {
            sanity := RecoveredSanity;
            state := Prep;
            ingredients := [];
          }
        }
      }
    }
  }

  // ---------------------------------------------------------------------------
  // The rules of one step
  // ---------------------------------------------------------------------------

  /** PREP at or below the threshold: the next update enters TRAUMA and does nothing else. */
  lemma ThresholdEntersTrauma(g: Game, now: int, mouse: Point, ds: seq<Draw>, sd: SpawnDraws)
    requires UpdateDraws(ds, sd)
    requires g.state == Prep && g.sanity <= TraumaThreshold
    ensures var g' := AfterUpdate(g, now, mouse, ds, sd);
            && g'.state == Trauma
            && g'.nervePath == Some(PathOf(ds)) && !g'.deviated
            && g'.ingredients == g.ingredients && g'.spawnTimer == g.spawnTimer
            && g'.sanity == g.sanity && g'.score == g.score
  {
  }

  /** From PREP the update enters TRAUMA exactly when sanity is at or below the threshold. */
  lemma EntersTraumaIff(g: Game, now: int, mouse: Point, ds: seq<Draw>, sd: SpawnDraws)
    requires UpdateDraws(ds, sd)
    requires g.state == Prep
    ensures AfterUpdate(g, now, mouse, ds, sd).state == Trauma <==> g.sanity <= TraumaThreshold
  {
  }

  /**
   * PREP above the threshold: one ingredient is appended and the spawn timer restarts exactly when
   * strictly more than the spawn interval has passed; otherwise nothing changes.
   */
  lemma SpawnCadence(g: Game, now: int, mouse: Point, ds: seq<Draw>, sd: SpawnDraws)
    requires UpdateDraws(ds, sd)
    requires g.state == Prep && g.sanity > TraumaThreshold
    ensures var g' := AfterUpdate(g, now, mouse, ds, sd);
            if now - g.spawnTimer > SpawnInterval then
              g' == g.(ingredients := g.ingredients + [NewIngredient(sd, now)], spawnTimer := now)
            else
              g' == g
  {
  }

  /** A PREP click on an ingredient scores one and removes exactly the first ingredient under the pointer. */
  lemma ClickHit(g: Game, pos: Point, k: nat)
    requires g.state == Prep && k < |g.ingredients|
    requires g.ingredients[k].rect.CollidePoint(pos)
    requires forall j | 0 <= j < k :: !g.ingredients[j].rect.CollidePoint(pos)
    ensures AfterInput(g, MouseButtonDown(pos))
              == g.(score := g.score + 1, ingredients := g.ingredients[..k] + g.ingredients[k + 1..])
  {
  }

  /** A PREP click on no ingredient costs exactly the miss penalty and changes nothing else. */
  lemma ClickMiss(g: Game, pos: Point)
    requires g.state == Prep
    requires forall j | 0 <= j < |g.ingredients| :: !g.ingredients[j].rect.CollidePoint(pos)
    ensures AfterInput(g, MouseButtonDown(pos)) == g.(sanity := g.sanity - SanityPenaltyMiss)
  {
  }

  /** In TRAUMA, input events change nothing. */
  lemma TraumaIgnoresInput(g: Game, e: Event)
    requires g.state == Trauma
    ensures AfterInput(g, e) == g
  {
  }

  /** With a path present, a TRAUMA update is the TRAUMA branch applied to the path's deviation. */
  lemma TraumaFrameIs(g: Game, now: int, mouse: Point, ds: seq<Draw>, sd: SpawnDraws)
    requires UpdateDraws(ds, sd)
    requires g.state == Trauma && g.nervePath.Some?
    ensures AfterUpdate(g, now, mouse, ds, sd) == TraumaFrame(g, Deviation(g.nervePath.value.points, mouse), mouse)
  {
  }

  /** In TRAUMA, a pointer too far from the path marks the deviation and drains one point of sanity. */
  lemma DeviationDrains(g: Game, now: int, mouse: Point, ds: seq<Draw>, sd: SpawnDraws)
    requires UpdateDraws(ds, sd)
    requires g.state == Trauma && g.nervePath.Some?
    requires TooFar(Deviation(g.nervePath.value.points, mouse))
    ensures AfterUpdate(g, now, mouse, ds, sd) == g.(deviated := true, sanity := g.sanity - 1)
  {
    TraumaFrameIs(g, now, mouse, ds, sd);
  }

  /** In TRAUMA, a pointer close enough to the path short of the success line only clears the deviation flag. */
  lemma OnPathClearsDeviation(g: Game, now: int, mouse: Point, ds: seq<Draw>, sd: SpawnDraws)
    requires UpdateDraws(ds, sd)
    requires g.state == Trauma && g.nervePath.Some?
    requires !TooFar(Deviation(g.nervePath.value.points, mouse))
    requires mouse.x <= SuccessX
    ensures AfterUpdate(g, now, mouse, ds, sd) == g.(deviated := false)
  {
    TraumaFrameIs(g, now, mouse, ds, sd);
  }

  /**
   * In TRAUMA, a pointer close enough to the path and past the success line clears the deviation
   * flag, restores sanity to 50, returns to PREP and empties the ingredients.
   */
  lemma ReachingEndReturnsToPrep(g: Game, now: int, mouse: Point, ds: seq<Draw>, sd: SpawnDraws)
    requires UpdateDraws(ds, sd)
    requires g.state == Trauma && g.nervePath.Some?
    requires !TooFar(Deviation(g.nervePath.value.points, mouse))
    requires mouse.x > SuccessX
    ensures AfterUpdate(g, now, mouse, ds, sd)
            == g.(deviated := false, sanity := RecoveredSanity, state := Prep, ingredients := [])
  {
    TraumaFrameIs(g, now, mouse, ds, sd);
  }

  // ---------------------------------------------------------------------------
  // Runs of many steps
  // ---------------------------------------------------------------------------

  /** One frame's worth of work: an input event, or an update with its clock, pointer and draws. */
  datatype Step =
    | Input(event: Event)
    | Tick(now: int, mouse: Point, draws: seq<Draw>, spawn: SpawnDraws)

  predicate ValidStep(s: Step) {
    s.Tick? ==> UpdateDraws(s.draws, s.spawn)
  }

  function Apply(g: Game, s: Step): Game
    requires ValidStep(s)
  {
    match s
    case Input(e) => AfterInput(g, e)
    case Tick(now, mouse, ds, sd) => AfterUpdate(g, now, mouse, ds, sd)
  }

  function Run(g: Game, steps: seq<Step>): Game
    requires forall i | 0 <= i < |steps| :: ValidStep(steps[i])
    decreases |steps|
  {
    if steps == [] then g else Run(Apply(g, steps[0]), steps[1..])
  }

  /** The score changes only by a PREP hit, which adds one. */
  lemma ScoreStep(g: Game, s: Step)
    requires ValidStep(s)
    ensures Apply(g, s).score == g.score || Apply(g, s).score == g.score + 1
    ensures Apply(g, s).score == g.score + 1 <==>
              g.state == Prep && s.Input? && s.event.MouseButtonDown?
              && FirstClicked(g.ingredients, s.event.pos).Some?
  {
  }

  /** Over any run the score never decreases. */
  lemma {:induction false} ScoreNeverDecreases(g: Game, steps: seq<Step>)
    requires forall i | 0 <= i < |steps| :: ValidStep(steps[i])
    ensures Run(g, steps).score >= g.score
    decreases |steps|
  {
    if steps != [] {
      ScoreStep(g, steps[0]);
      ScoreNeverDecreases(Apply(g, steps[0]), steps[1..]);
    }
  }

  /** Sanity only drops, by the miss penalty or by one, except on TRAUMA's success, which sets it to 50. */
  lemma SanityStep(g: Game, s: Step)
    requires ValidStep(s)
    ensures var g' := Apply(g, s);
            || g'.sanity == g.sanity
            || g'.sanity == g.sanity - SanityPenaltyMiss
            || g'.sanity == g.sanity - 1
            || (g.state == Trauma && g'.state == Prep && g'.sanity == RecoveredSanity)
  {
  }

  /**
   * What holds of every reachable state: TRAUMA always has a path, and every installed path has
   * the shape of a generated one (start, band, steps, edge, recorded ends).
   */
  predicate Inv(g: Game) {
    && (g.state == Trauma ==> g.nervePath.Some?)
    && (g.nervePath.Some? ==> ValidNervePath(g.nervePath.value))
  }

  lemma InitialInv()
    ensures Inv(Initial())
  {
  }

  lemma InvStep(g: Game, s: Step)
    requires Inv(g) && ValidStep(s)
    ensures Inv(Apply(g, s))
  {
    if s.Tick? {
      PathOfValid(s.draws);
    }
  }

  lemma {:induction false} InvRun(g: Game, steps: seq<Step>)
    requires Inv(g)
    requires forall i | 0 <= i < |steps| :: ValidStep(steps[i])
    ensures Inv(Run(g, steps))
    decreases |steps|
  {
    if steps != [] {
      InvStep(g, steps[0]);
      InvRun(Apply(g, steps[0]), steps[1..]);
    }
  }

  /**
   * In every reachable TRAUMA state the deviation is a real distance, so the comparison with the
   * limit never meets the infinity the minimum starts from.
   */
  lemma ReachableTraumaDeviationFinite(steps: seq<Step>, mouse: Point)
    requires forall i | 0 <= i < |steps| :: ValidStep(steps[i])
    requires Run(Initial(), steps).state == Trauma
    ensures Run(Initial(), steps).nervePath.Some?
    ensures Deviation(Run(Initial(), steps).nervePath.value.points, mouse).Finite?
  {
    InvRun(Initial(), steps);
    DeviationFiniteOnPath(Run(Initial(), steps).nervePath.value, mouse);
  }
}
