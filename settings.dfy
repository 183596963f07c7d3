/** The gameplay constants of settings.py that the core logic reads. */
module Settings {
  const ScreenWidth: int := 1280
  const ScreenHeight: int := 720

  const InitialSanity: int := 100
  const TraumaThreshold: int := 20
  const SanityPenaltyMiss: int := 15
  const NerveDeviationLimit: int := 22
  const IngredientWarningTime: int := 6000

  /** Distances are compared squared, so the deviation limit is compared as 22 * 22. */
  const NerveDeviationLimitSq: int := NerveDeviationLimit * NerveDeviationLimit
}
