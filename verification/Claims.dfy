/** Resource claims and the conflicts between them (src/model_broker/catalogue.py). */
module Claims {

  /** A resource that a loaded variant uses; two exclusive claims on one resource conflict. */
  datatype ResourceClaim = ResourceClaim(resource: string, exclusive: bool)

  /** One validated preset section; `backend` names the server that loads it. */
  datatype Variant = Variant(
    id: string,
    claims: seq<ResourceClaim>,
    resourceClass: string,
    backend: string,
    env: map<string, string>)

  /** The resources a variant holds alone while it is loaded. */
  function Exclusive(v: Variant): set<string> {
    set claim | claim in v.claims && claim.exclusive :: claim.resource
  }

  /** Some claim of `second` is an exclusive claim on a resource `first` holds exclusively. */
  predicate ClaimsConflict(first: Variant, second: Variant) {
    var exclusive := Exclusive(first);
    exists claim | claim in second.claims :: claim.exclusive && claim.resource in exclusive
  }

  lemma ConflictIffOverlap(first: Variant, second: Variant)
    ensures ClaimsConflict(first, second) <==> !(Exclusive(first) !! Exclusive(second))
  {
    if resource :| resource in Exclusive(first) && resource in Exclusive(second) {
      var claim :| claim in second.claims && claim.exclusive && claim.resource == resource;
      assert ClaimsConflict(first, second);
    }
  }

  /** Neither the order of the two variants nor of their claims matters. */
  lemma ConflictSymmetric(first: Variant, second: Variant)
    ensures ClaimsConflict(first, second) <==> ClaimsConflict(second, first)
  {
    ConflictIffOverlap(first, second);
    ConflictIffOverlap(second, first);
  }
}
