/** The level and experience the header shows, derived from the user's points. */
module Progress {

  const PointsPerLevel := 100

  /** `Math.floor(points / 100) + 1`. */
  function Level(points: int): (level: int)
    ensures (level - 1) * PointsPerLevel <= points < level * PointsPerLevel
  {
    points / PointsPerLevel + 1
  }

  /**
   * `points % 100` with JavaScript's `%`: the remainder of division
   * truncated toward zero, so its sign follows the points.
   */
  function Xp(points: int): (xp: int)
    ensures -PointsPerLevel < xp < PointsPerLevel
    ensures points >= 0 ==> xp >= 0
    ensures points < 0 ==> xp <= 0
    ensures (points - xp) % PointsPerLevel == 0
  {
    if points >= 0 then points % PointsPerLevel else -((-points) % PointsPerLevel)
  }

  /**
   * For points of zero or more, the level starts at 1,
   * the experience is the progress within the level, and together they give
   * the points back.
   */
  lemma LevelAndXp(points: int)
    requires points >= 0
    ensures Level(points) >= 1
    ensures 0 <= Xp(points) < PointsPerLevel
    ensures points == (Level(points) - 1) * PointsPerLevel + Xp(points)
  {
  }

  /**
   * The header does not guard against negative points; there the two
   * roundings part: the level is floored but the experience is truncated,
   * so the pair no longer adds up to the points.
   */
  lemma NegativePoints()
    ensures Level(-50) == 0 && Xp(-50) == -50
    ensures (Level(-50) - 1) * PointsPerLevel + Xp(-50) != -50
  {
  }
}
