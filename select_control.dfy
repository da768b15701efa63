/** The drop-down control of a `select` or `input_select` entity. */
module SelectControl {
  import opened Common
  import opened HassService

  /** `updateSelectEntity`: `select_option` on the entity's own domain, nothing outside the two select domains. */
  function UpdateSelectEntity(entityId: string, option: string): (call: Option<ServiceCall>)
    ensures call.Some? <==> DomainOf(entityId) == "select" || DomainOf(entityId) == "input_select"
    ensures call.Some? ==> call.value == ServiceCall(DomainOf(entityId), "select_option", entityId, SelectOption(option))
  {
    var domain := DomainOf(entityId);
    if domain != "select" && domain != "input_select" then None
    else Some(ServiceCall(domain, "select_option", entityId, SelectOption(option)))
  }

  /** The option shown as selected: the override if given, else the entity's state, else nothing. */
  function CurrentValue(states: States, entityId: string, valueOverride: Option<string>): (v: string)
    ensures valueOverride.Some? ==> v == valueOverride.value
    ensures valueOverride.None? && entityId != "" && entityId in states ==> v == states[entityId].state
    ensures valueOverride.None? && (entityId == "" || entityId !in states) ==> v == ""
  {
    if valueOverride.Some? then valueOverride.value
    else if entityId != "" && entityId in states then states[entityId].state
    else ""
  }

  /** Once a call has set the entity's state to the option, the control shows that option. */
  lemma ShowsChosenOption(states: States, entityId: string, option: string)
    requires UpdateSelectEntity(entityId, option).Some?
    ensures entityId != ""
    ensures var after := states[entityId := EntityState(option, if entityId in states then states[entityId].attributes else Attributes(None, None, None))];
            CurrentValue(after, entityId, None) == option
  {
    assert |DomainOf(entityId)| > 0;
  }

  /**
    An id "domain.objectId" is accepted exactly when its domain is one of the
    two select domains, and the call then goes to that domain.
   */
  lemma SelectDomains(domain: string, objectId: string, option: string)
    requires '.' !in domain
    ensures UpdateSelectEntity(domain + "." + objectId, option).Some? <==> domain == "select" || domain == "input_select"
    ensures UpdateSelectEntity(domain + "." + objectId, option).Some? ==>
              UpdateSelectEntity(domain + "." + objectId, option).value.domain == domain
  {
    DomainOfEntity(domain, objectId);
  }
}
