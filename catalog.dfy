/** The reference data the core only looks up: rulers, batches, constant
    values (item kinds) and the price-per-meter table. Their own services
    are plain create/read/update/delete and are not part of this model. */
module Catalog {

  /** A price row is found by a ruler (through its colour) and a width tier,
      the `findPriceByColorAndValue(ruler_id, widthType)` lookup. */
  datatype Catalog = Catalog(
    rulers: set<nat>,
    batches: set<nat>,
    constantValues: set<nat>,
    pricePerMeter: map<(nat, string), real>)
}
