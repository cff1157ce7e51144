/** The trait data exchanged with a manager (openassetio::trait). */
module Trait {

  /** A trait identifier, such as "openassetio-mediacreation:content.LocatableContent". */
  type TraitId = string

  /** A set of trait identifiers (trait::TraitSet). */
  type TraitSet = set<TraitId>

  /**
   * The traits and property values held by one entity (trait::TraitsData).
   * The binding never looks inside it, so its contents are left abstract:
   * `contents` only distinguishes one value from another.
   */
  datatype TraitsData = TraitsData(contents: nat)
}
