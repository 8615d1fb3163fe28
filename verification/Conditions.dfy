/** Status conditions: the documented effect of `meta.SetStatusCondition` and
`meta.FindStatusCondition`, on which `setReadyCondition` and the readiness test of
references rest. The library's own source is not part of this model.
*/
module Conditions {
  import opened Resources

  /** Position of the first condition of the given type; the length when there is none. */
  function IndexOf(conditions: seq<Condition>, conditionType: string): (i: nat)
    ensures i <= |conditions|
    ensures i < |conditions| ==> conditions[i].conditionType == conditionType
    ensures forall j :: 0 <= j < i ==> conditions[j].conditionType != conditionType
  {
    if conditions == [] then 0
    else if conditions[0].conditionType == conditionType then 0
    else
      var i := IndexOf(conditions[1..], conditionType);
      assert forall j :: 1 <= j < i + 1 ==> conditions[j] == conditions[1..][j - 1];
      i + 1
  }

  function FindStatusCondition(conditions: seq<Condition>, conditionType: string): Option<Condition> {
    var i := IndexOf(conditions, conditionType);
    if i < |conditions| then Some(conditions[i]) else None
  }

  predicate IsReady(conditions: seq<Condition>) {
    var ready := FindStatusCondition(conditions, "Ready");
    ready.Some? && ready.value.status == True
  }

  /** What an existing condition becomes: the transition time moves only when the status flips. */
  function Amended(existing: Condition, new_: Condition): Condition {
    new_.(lastTransitionTime :=
            if existing.status != new_.status then new_.lastTransitionTime else existing.lastTransitionTime)
  }

  /** Upsert by type. */
  function SetStatusCondition(conditions: seq<Condition>, new_: Condition): seq<Condition> {
    var i := IndexOf(conditions, new_.conditionType);
    if i < |conditions| then conditions[i := Amended(conditions[i], new_)] else conditions + [new_]
  }

  function ReadyCondition(status: ConditionStatus, generation: nat, now: int, reason: string, message: string)
    : Condition
  {
    Condition("Ready", status, generation, now, reason, message)
  }

  /** The upsert keeps every condition of another type where it was, is found again under its
      own type, keeps the old transition time exactly when the status did not flip, and setting
      the same condition again, at whatever later time, changes nothing. */
  lemma SetStatusConditionLaws(conditions: seq<Condition>, new_: Condition, later: int)
    ensures var after := SetStatusCondition(conditions, new_);
            var found := FindStatusCondition(after, new_.conditionType);
            && found.Some?
            && found.value.status == new_.status && found.value.reason == new_.reason
            && found.value.message == new_.message && found.value.observedGeneration == new_.observedGeneration
            && |conditions| <= |after| <= |conditions| + 1
            && (forall j :: 0 <= j < |conditions| && conditions[j].conditionType != new_.conditionType ==>
                  after[j] == conditions[j])
            && (var before := FindStatusCondition(conditions, new_.conditionType);
                found.value.lastTransitionTime ==
                if before.Some? && before.value.status == new_.status then before.value.lastTransitionTime
                else new_.lastTransitionTime)
            && SetStatusCondition(after, new_.(lastTransitionTime := later)) == after
  {
    var after := SetStatusCondition(conditions, new_);
    var i := IndexOf(conditions, new_.conditionType);
    IndexIs(after, new_.conditionType, i);
  }

  /** The first position holding the type is the index of the type. */
  lemma IndexIs(conditions: seq<Condition>, conditionType: string, i: nat)
    requires i < |conditions| && conditions[i].conditionType == conditionType
    requires forall j :: 0 <= j < i ==> conditions[j].conditionType != conditionType
    ensures IndexOf(conditions, conditionType) == i
  {
  }
}
