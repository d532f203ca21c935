/** The fixed emission factor table of the activity logger
    (kg CO2-equivalent per unit of the activity). */
module EmissionFactors {

  /** The four activity categories; they are also the logger's tab ids. */
  datatype Category = Transport | Energy | Food | Shopping

  /** Every key of the table. Each key is listed under exactly one category. */
  datatype Subtype =
    | Car | Bus | Train | Bike | Walk            // transport, per km
    | Electricity | Gas | HeatingOil             // energy, per kWh / m3 / litre
    | Meat | Vegetarian | Vegan                  // food, per meal
    | Clothing | Electronics | Household         // shopping, per item

  /** The category whose part of the table lists subtype `s`. */
  function CategoryOf(s: Subtype): Category
  {
    match s
    case Car | Bus | Train | Bike | Walk => Transport
    case Electricity | Gas | HeatingOil => Energy
    case Meat | Vegetarian | Vegan => Food
    case Clothing | Electronics | Household => Shopping
  }

  /** The keys of one category's part of the table, as offered by its select widget. */
  function Subtypes(c: Category): (keys: set<Subtype>)
    ensures forall s :: s in keys <==> CategoryOf(s) == c
  {
    match c
    case Transport => {Car, Bus, Train, Bike, Walk}
    case Energy => {Electricity, Gas, HeatingOil}
    case Food => {Meat, Vegetarian, Vegan}
    case Shopping => {Clothing, Electronics, Household}
  }

  /** The factor stored in the table for subtype `s` of its category.
      Every factor is non-negative, and only bike and walk have factor zero. */
  function Factor(s: Subtype): (r: real)
    ensures r >= 0.0
    ensures r == 0.0 <==> s == Bike || s == Walk
  {
    match s
    case Car => 0.21
    case Bus => 0.089
    case Train => 0.041
    case Bike => 0.0
    case Walk => 0.0
    case Electricity => 0.92
    case Gas => 2.04
    case HeatingOil => 2.52
    case Meat => 7.26
    case Vegetarian => 3.81
    case Vegan => 1.58
    case Clothing => 22.0
    case Electronics => 85.0
    case Household => 5.0
  }
}
