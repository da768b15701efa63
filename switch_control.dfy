/** The toggle control of an on/off entity. */
module SwitchControl {
  import opened Common
  import opened HassService

  /** `toggleBinaryEntity`: nothing for an unknown entity; `turn_off` when it is on, `turn_on` otherwise. */
  function ToggleBinaryEntity(states: States, entityId: string): (call: Option<ServiceCall>)
    ensures call.Some? <==> entityId in states
    ensures call.Some? ==> call.value.domain == DomainOf(entityId) && call.value.entityId == entityId
                            && call.value.payload == NoData
    ensures call.Some? ==> (call.value.service == "turn_off" <==> states[entityId].state == "on")
    ensures call.Some? ==> call.value.service in {"turn_on", "turn_off"}
  {
    if entityId !in states then None
    else
      var service := if states[entityId].state == "on" then "turn_off" else "turn_on";
      Some(ServiceCall(DomainOf(entityId), service, entityId, NoData))
  }

  /** The state a switch reports once the call has taken effect. */
  function StateAfter(service: string): string
  {
    if service == "turn_off" then "off" else "on"
  }

  /** Each press flips the switch: pressing again asks for the opposite service. */
  lemma ToggleAlternates(states: States, entityId: string)
    requires entityId in states
    ensures var first := ToggleBinaryEntity(states, entityId).value;
            var after := states[entityId := states[entityId].(state := StateAfter(first.service))];
            var second := ToggleBinaryEntity(after, entityId).value;
            && (StateAfter(first.service) == "on" <==> states[entityId].state != "on")
            && second.service != first.service
  {
  }
}
