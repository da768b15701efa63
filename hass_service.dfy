/**
  What the control components see of Home Assistant: entity states with
  their attributes, and the service call a control decides to make. The
  call itself is not made here; the controls return it as a record.
 */
module HassService {
  import opened Common

  /** A decimal `units / 10^places`, as the `step` attribute is written. */
  datatype Decimal = Decimal(units: int, places: nat)

  datatype Attributes = Attributes(step: Option<Decimal>, min: Option<real>, max: Option<real>)

  datatype EntityState = EntityState(state: string, attributes: Attributes)

  /** `hass.states`. */
  type States = map<string, EntityState>

  /** The data sent with a call besides `entity_id`. */
  datatype Payload =
    | NoData
    | Value(value: real)
    | Temperature(temperature: real)
    | SelectOption(option: string)

  datatype ServiceCall = ServiceCall(domain: string, service: string, entityId: string, payload: Payload)

  /** `entityId.split('.')[0]`. */
  function DomainOf(entityId: string): (d: string)
    ensures '.' !in d && |d| <= |entityId|
  {
    BeforeFirst(entityId, '.')
  }

  /** The domain of `domain.object_id` is `domain`. */
  lemma DomainOfEntity(domain: string, objectId: string)
    requires '.' !in domain
    ensures DomainOf(domain + "." + objectId) == domain
  {
    assert domain + "." + objectId == domain + ['.'] + objectId;
    BeforeFirstPrefix(domain, '.', objectId);
  }
}
