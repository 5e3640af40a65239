/** The bill-of-materials document the pricing calculator exports, reduced
    to the fields the report reads. Absent JSON keys are `None`; amounts
    are whole cents. */
module Bom {
  import opened Wrappers

  /** The "Service Cost" object of a service. */
  datatype ServiceCost = ServiceCost(monthly: Option<nat>)

  /** One entry of a service's "Properties" object, in the object's order. */
  datatype Property = Property(key: string, value: string)

  /** One element of `Groups.Services`. */
  datatype Service = Service(
    region: Option<string>,
    serviceName: Option<string>,
    serviceCost: Option<ServiceCost>,
    properties: Option<seq<Property>>)

  datatype Groups = Groups(services: Option<seq<Service>>)

  /** The parsed document: its "Groups" object and how many other top-level
      keys it has (which only matters for whether the object is empty). */
  datatype BomDocument = BomDocument(groups: Option<Groups>, otherKeys: nat) {
    /** An empty JSON object, which Python treats as false. */
    predicate IsEmpty() {
      groups.None? && otherKeys == 0
    }
  }

  /** `data.get('Groups', {}).get('Services', [])`. */
  function Services(doc: BomDocument): (ss: seq<Service>)
    ensures doc.IsEmpty() ==> ss == []
    ensures doc.groups.Some? && doc.groups.value.services.Some? ==> ss == doc.groups.value.services.value
    ensures doc.groups.None? || doc.groups.value.services.None? ==> ss == []
  {
    match doc.groups
    case None => []
    case Some(g) => g.services.GetOr([])
  }

  /** `str(e)` of the `KeyError` that `d[key]` raises for an absent key. */
  function MissingKey(key: string): string {
    "'" + key + "'"
  }
}
