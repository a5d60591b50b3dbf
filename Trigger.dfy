/**
 * The adaptive-trigger state: an effect mode tag and ten force parameters,
 * as the output report carries them for each of the two triggers.
 */
module Trigger {
  import opened Wrappers
  import opened Enums

  /** A trigger's mode and force parameters as plain values. */
  datatype TriggerEffect = TriggerEffect(mode: int, forces: seq<int>)

  function Zeros(n: nat): (z: seq<int>)
    ensures |z| == n && forall k :: 0 <= k < n ==> z[k] == 0
  {
    seq(n, _ => 0)
  }

  /** The state of a freshly built trigger: mode off and ten zero forces. */
  const DefaultEffect := TriggerEffect(ModeOff, Zeros(10))

  datatype ForceError = ForceIdOutOfRange

  class TriggerModel {
    var mode: int
    var forces: seq<int>

    /** The forces list keeps the ten entries it is built with. */
    predicate Valid()
      reads this
    {
      |forces| == 10
    }

    function Effect(): TriggerEffect
      reads this
    {
      TriggerEffect(mode, forces)
    }

    constructor ()
      ensures Valid() && Effect() == DefaultEffect
    {
      mode := ModeOff;
      forces := Zeros(10);
    }

    /**
     * Set force parameter `forceID`. Only the first seven parameters may be
     * set this way; any other id is refused and leaves the trigger as it was.
     */
    method SetForce(forceID: int, force: int) returns (r: Outcome<ForceError>)
      requires Valid()
      modifies this
      ensures Valid()
      ensures r.Pass? <==> 0 <= forceID <= 6
      ensures r.Pass? ==> Effect() == old(Effect()).(forces := old(forces)[forceID := force])
      ensures r.Fail? ==> Effect() == old(Effect())
    {
      if forceID > 6 || forceID < 0 {
        return Fail(ForceIdOutOfRange);
      }
      forces := forces[forceID := force];
      r := Pass;
    }
  }

  /** What an optional, freshly generated trigger holds. */
  function EffectOf(t: Option<TriggerModel>): Option<TriggerEffect>
    reads if t.Some? then {t.value} else {}
  {
    if t.Some? then Some(t.value.Effect()) else None
  }
}
