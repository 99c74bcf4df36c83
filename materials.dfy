/** The material catalogue: a per-unit cost range for each known material and
    the midpoint-times-quantity estimate built from it. */
module Materials {
  import opened Common

  datatype CostRange = CostRange(unit: string, low: int, high: int)

  const Catalogue: map<string, CostRange> := map[
    "roof_tiles" := CostRange("per tile", 5, 15),
    "roofing_felt" := CostRange("per m²", 6, 12),
    "nails" := CostRange("per box", 10, 20),
    "plaster" := CostRange("per litre", 12, 25),
    "paint" := CostRange("per litre", 15, 40),
    "copper_pipe" := CostRange("per metre", 8, 20),
    "drywall" := CostRange("per sheet", 8, 18),
    "insulation" := CostRange("per m²", 10, 30),
    "timber" := CostRange("per metre", 5, 12),
    "concrete" := CostRange("per m³", 70, 120)
  ]

  /** The midpoint of a cost range. */
  function UnitCost(r: CostRange): real {
    (r.low + r.high) as real / 2.0
  }

  /** `get_material_cost`: 0.0 for an item the catalogue does not list (the
      key match is exact and case-sensitive), otherwise the unit midpoint times
      the quantity, rounded to cents. */
  function GetMaterialCost(itemName: string, quantity: real): (cost: real)
    ensures itemName !in Catalogue ==> cost == 0.0
    ensures itemName in Catalogue ==>
      UnitCost(Catalogue[itemName]) * quantity - 0.005 <= cost <= UnitCost(Catalogue[itemName]) * quantity + 0.005
  {
    if itemName !in Catalogue then 0.0
    else Round2(UnitCost(Catalogue[itemName]) * quantity)
  }

  /** Every catalogue range is a proper range, so its midpoint lies strictly inside. */
  lemma UnitCostStrictlyInside(name: string)
    requires name in Catalogue
    ensures Catalogue[name].low < Catalogue[name].high
    ensures Catalogue[name].low as real < UnitCost(Catalogue[name]) < Catalogue[name].high as real
  {
  }

  /** A non-negative quantity never costs a negative amount, and nothing costs nothing. */
  lemma CostNonNegative(itemName: string, quantity: real)
    requires quantity >= 0.0
    ensures GetMaterialCost(itemName, quantity) >= 0.0
    ensures quantity == 0.0 ==> GetMaterialCost(itemName, quantity) == 0.0
  {
    if itemName in Catalogue {
      UnitCostStrictlyInside(itemName);
      Round2NonNegative(UnitCost(Catalogue[itemName]) * quantity);
      if quantity == 0.0 {
        Round2WholeCents(0);
      }
    }
  }

  /** The lookup is case-sensitive: the display name the estimator prompt uses
      ("Roof tiles") is not a catalogue key, while the key itself is. */
  lemma LookupIsCaseSensitive()
    ensures GetMaterialCost("Roof tiles", 25.0) == 0.0
    ensures GetMaterialCost("roof_tiles", 25.0) == 250.0
  {
    assert "Roof tiles" !in Catalogue;
    assert UnitCost(Catalogue["roof_tiles"]) * 25.0 == 25000 as real / 100.0;
    Round2WholeCents(25000);
  }
}
