/** What a reconciler holds in memory: the object that its Get filled, which it changes in place. */
module Objects {
  import opened Resources
  import opened Conditions
  import opened Protocol

  class Resource {
    const uid: nat
    const generation: nat
    const deleting: bool
    const spec: Spec
    var finalizers: seq<string>
    var id: string
    var observedGeneration: nat
    var conditions: seq<Condition>
    var healthStatus: string
    var lastBackupTime: Option<int>
    var lastBackupErrorMessage: string

    function StatusValue(): Status
      reads this
    {
      Status(id, observedGeneration, conditions, Vitals(healthStatus, lastBackupTime, lastBackupErrorMessage))
    }

    function Value(): Object
      reads this
    {
      Object(uid, generation, deleting, finalizers, spec, StatusValue())
    }

    constructor (o: Object)
      ensures Value() == o
    {
      uid, generation, deleting, spec, finalizers := o.uid, o.generation, o.deleting, o.spec, o.finalizers;
      id, observedGeneration, conditions := o.status.id, o.status.observedGeneration, o.status.conditions;
      healthStatus, lastBackupTime := o.status.vitals.healthStatus, o.status.vitals.lastBackupTime;
      lastBackupErrorMessage := o.status.vitals.lastBackupErrorMessage;
    }

    /** The Ready condition is found again as it was set, the other conditions are where they were, and the
        transition time moves only when the status flips. */
    method SetReadyCondition(status: ConditionStatus, reason: string, message: string, now: int)
      modifies this`conditions
      ensures var ready := FindStatusCondition(conditions, "Ready");
              && ready.Some? && ready.value.status == status && ready.value.observedGeneration == generation
              && ready.value.reason == reason && ready.value.message == message
              && var before := old(FindStatusCondition(conditions, "Ready"));
                 ready.value.lastTransitionTime ==
                 if before.Some? && before.value.status == status then before.value.lastTransitionTime else now
      ensures |old(conditions)| <= |conditions| <= |old(conditions)| + 1
      ensures forall i :: 0 <= i < |old(conditions)| && old(conditions)[i].conditionType != "Ready" ==>
                conditions[i] == old(conditions)[i]
      ensures conditions == SetStatusCondition(old(conditions), ReadyCondition(status, generation, now, reason, message))
    {
      var condition := ReadyCondition(status, generation, now, reason, message);
      SetStatusConditionLaws(conditions, condition, now);
      conditions := SetStatusCondition(conditions, condition);
    }
  }
}
