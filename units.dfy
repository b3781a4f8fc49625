/**
 * Unit levelling: a unit collects firepoints and spends them to climb an
 * ordered list of levels, each with a cost and four stat multipliers.
 */
module Units {
  import opened Wrappers
  import opened Numeric

  /** `UnitLevel`: one rung of the ladder, its cost and its multipliers. */
  datatype UnitLevel = UnitLevel(level: int, firepointsCost: int,
                                 moveSpeedMult: real, waterCapacityMult: real,
                                 suppressionSpeedMult: real, cutSpeedMult: real)

  /** A freshly constructed `UnitLevel`: level 1, free, every multiplier 1. */
  const DefaultLevel: UnitLevel := UnitLevel(1, 0, 1.0, 1.0, 1.0, 1.0)

  /**
   * `UnitLeveling`. A missing level list behaves exactly like an empty one
   * (both guards treat them alike), so the list is a plain sequence here.
   * Firepoints and the level index are C# `int`s.
   */
  class UnitLeveling {
    var levels: seq<UnitLevel>
    var currentLevelIndex: int
    var firepoints: int

    constructor ()
      ensures levels == [] && currentLevelIndex == 0 && firepoints == 0
    {
      levels := [];
      currentLevelIndex := 0;
      firepoints := 0;
    }

    /** The fields hold what their C# types can: 32-bit integers and at most `int.MaxValue` levels. */
    predicate Int32Fields()
      reads this
    {
      IsInt32(currentLevelIndex) && IsInt32(firepoints) && |levels| <= Int32Max
    }

    /** Whether there is a next level. */
    predicate HasNext()
      reads this
    {
      0 <= currentLevelIndex + 1 < |levels|
    }

    /**
     * Whether `levels[currentLevelIndex + 1]` throws: on a non-empty list the
     * index is read whenever it is below the count, which a negative index is,
     * and `int.MaxValue + 1` wraps round to a negative one.
     */
    predicate NextThrows()
      reads this
    {
      |levels| > 0 && (currentLevelIndex < -1 || currentLevelIndex == Int32Max)
    }

    /**
     * `CanLevelUp`: `Some(true)` exactly when there is a next level and the
     * unit has the firepoints it costs; `None` for the
     * `ArgumentOutOfRangeException` of a negative next index; never true with
     * an empty list.
     */
    function CanLevelUp(): (r: Option<bool>)
      requires Int32Fields()
      reads this
      ensures |levels| == 0 ==> r == Some(false)
      ensures r.None? <==> NextThrows()
      ensures r == Some(true) <==> HasNext() && firepoints >= levels[currentLevelIndex + 1].firepointsCost
    {
      if |levels| == 0 then Some(false)
      else
        var next := Wrap32(currentLevelIndex + 1);
        if next >= |levels| then Some(false)
        else if next < 0 then None
        else Some(firepoints >= levels[next].firepointsCost)
    }

    /**
     * `LevelUp`: when the unit can level up, the next level's cost is taken
     * from the firepoints (in 32-bit arithmetic) and the index moves up by
     * one; otherwise nothing changes. `threw` reports the exception the
     * guard's `CanLevelUp` call raises, before anything is changed.
     */
    method LevelUp() returns (threw: bool)
      requires Int32Fields()
      modifies this`firepoints, this`currentLevelIndex
      ensures threw <==> old(CanLevelUp()).None?
      ensures old(CanLevelUp()) != Some(true) ==> firepoints == old(firepoints) && currentLevelIndex == old(currentLevelIndex)
      ensures old(CanLevelUp()) == Some(true) ==>
                currentLevelIndex == old(currentLevelIndex) + 1 &&
                firepoints == Wrap32(old(firepoints) - levels[currentLevelIndex].firepointsCost)
      ensures old(CanLevelUp()) == Some(true) ==> 0 <= currentLevelIndex < |levels|
      ensures old(CanLevelUp()) == Some(true) && levels[currentLevelIndex].firepointsCost >= 0 ==>
                0 <= firepoints == old(firepoints) - levels[currentLevelIndex].firepointsCost
      ensures Int32Fields()
    {
      var can := CanLevelUp();
      if can.None? {
        return true;
      }
      if !can.value {
        return false;
      }
      var next := currentLevelIndex + 1;
      firepoints := Wrap32(firepoints - levels[next].firepointsCost);
      currentLevelIndex := next;
      threw := false;
    }

    /**
     * `GetLevel`: the current level with the index clamped into the list; a
     * default level when the list is empty.
     */
    function GetLevel(): (l: UnitLevel)
      reads this
      ensures |levels| == 0 ==> l == DefaultLevel
      ensures 0 <= currentLevelIndex < |levels| ==> l == levels[currentLevelIndex]
      ensures |levels| > 0 && currentLevelIndex < 0 ==> l == levels[0]
      ensures |levels| > 0 && currentLevelIndex >= |levels| ==> l == levels[|levels| - 1]
    {
      if |levels| == 0 then DefaultLevel
      else levels[Clamp(currentLevelIndex, 0, |levels| - 1)]
    }

    function MoveSpeedMultiplier(): real
      reads this
    {
      GetLevel().moveSpeedMult
    }

    function WaterCapacityMultiplier(): real
      reads this
    {
      GetLevel().waterCapacityMult
    }

    function SuppressionSpeedMultiplier(): real
      reads this
    {
      GetLevel().suppressionSpeedMult
    }

    function CutSpeedMultiplier(): real
      reads this
    {
      GetLevel().cutSpeedMult
    }
  }

  /**
   * A negative cost can wrap the counter: a unit with `int.MaxValue`
   * firepoints may level up, and is left with a negative balance.
   */
  lemma SpendCanWrap(u: UnitLeveling)
    requires u.Int32Fields() && u.HasNext() && u.firepoints == Int32Max
    requires var cost := u.levels[u.currentLevelIndex + 1].firepointsCost; Int32Min <= cost < 0
    ensures u.CanLevelUp() == Some(true)
    ensures var cost := u.levels[u.currentLevelIndex + 1].firepointsCost;
            Wrap32(u.firepoints - cost) == Int32Min - cost - 1 < 0
  {
  }

  /** The last level is final: the unit cannot level up past it, whatever its firepoints. */
  lemma LastLevelIsFinal(u: UnitLeveling)
    requires u.Int32Fields() && |u.levels| > 0 && u.currentLevelIndex == |u.levels| - 1
    ensures u.CanLevelUp() == Some(false)
  {
  }
}
