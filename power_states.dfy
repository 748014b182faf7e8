/**
 * The low-power state indices of the MIMXRT685S power manager: four states,
 * numbered from the lightest to the deepest, and a value above all of them
 * that stands for "no constraint on the low-power state".
 */
module PowerStates {
  const PM_LP_STATE_SLEEP: nat := 0
  const PM_LP_STATE_DEEP_SLEEP: nat := 1
  const PM_LP_STATE_DEEP_POWER_DOWN: nat := 2
  const PM_LP_STATE_FULL_DEEP_POWER_DOWN: nat := 3
  const PM_LP_STATE_NO_CONSTRAINT: nat := 0xFF

  /** The four low-power states, lightest first. */
  datatype PowerState = Sleep | DeepSleep | DeepPowerDown | FullDeepPowerDown
  {
    /** The state's index; every index lies below the no-constraint value. */
    function Index(): (i: nat)
      ensures i < PM_LP_STATE_NO_CONSTRAINT
    {
      match this
      case Sleep => PM_LP_STATE_SLEEP
      case DeepSleep => PM_LP_STATE_DEEP_SLEEP
      case DeepPowerDown => PM_LP_STATE_DEEP_POWER_DOWN
      case FullDeepPowerDown => PM_LP_STATE_FULL_DEEP_POWER_DOWN
    }
  }

  /** The indices rise strictly from SLEEP to FULL_DEEP_POWER_DOWN, and NO_CONSTRAINT lies above them all. */
  lemma StateIndicesOrdered()
    ensures PM_LP_STATE_SLEEP == 0
    ensures PM_LP_STATE_SLEEP < PM_LP_STATE_DEEP_SLEEP < PM_LP_STATE_DEEP_POWER_DOWN
    ensures PM_LP_STATE_DEEP_POWER_DOWN < PM_LP_STATE_FULL_DEEP_POWER_DOWN < PM_LP_STATE_NO_CONSTRAINT
  {
  }

  /** Distinct states have distinct indices, and the indices are exactly 0 .. 3. */
  lemma StateIndicesDistinct(s: PowerState, t: PowerState)
    ensures s.Index() == t.Index() <==> s == t
    ensures s.Index() <= PM_LP_STATE_FULL_DEEP_POWER_DOWN
  {
  }
}
