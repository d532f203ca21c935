/** The activity logging form: per-category form data, the emission estimator
    and the form's state machine (active tab, form data, calculated result,
    and the notifications and close calls it emits). */
module ActivityLogger {
  import opened Wrappers
  import opened EmissionFactors

  // ---------------------------------------------------------------------------
  // Form data
  // ---------------------------------------------------------------------------

  /** One category's pair of fields: the selected subtype and the quantity
      (distance, amount, meals or items). `None` is the empty field; a quantity
      that is present has already been parsed as a number. */
  datatype Entry = Entry(subtype: Option<Subtype>, quantity: Option<real>)

  /** The form data record, one entry per category. */
  datatype FormData = FormData(transport: Entry, energy: Entry, food: Entry, shopping: Entry)

  const EmptyEntry: Entry := Entry(None, None)

  /** The form data the logger starts with: every field empty. */
  const EmptyForm: FormData := FormData(EmptyEntry, EmptyEntry, EmptyEntry, EmptyEntry)

  /** The categories in the order the estimator visits them. */
  const AllCategories: seq<Category> := [Transport, Energy, Food, Shopping]

  function Get(f: FormData, c: Category): Entry
  {
    match c
    case Transport => f.transport
    case Energy => f.energy
    case Food => f.food
    case Shopping => f.shopping
  }

  /** `f` with the entry of category `c` replaced by `e`. */
  function With(f: FormData, c: Category, e: Entry): (g: FormData)
    ensures Get(g, c) == e
    ensures forall d :: d != c ==> Get(g, d) == Get(f, d)
  {
    match c
    case Transport => f.(transport := e)
    case Energy => f.(energy := e)
    case Food => f.(food := e)
    case Shopping => f.(shopping := e)
  }

  /** A subtype stored under a category is one of that category's keys. */
  ghost predicate WellFormed(f: FormData)
  {
    forall c :: Get(f, c).subtype.Some? ==> Get(f, c).subtype.value in Subtypes(c)
  }

  /** A change to one field of a category: the subtype select reports one of
      the table's keys, the quantity input reports its (possibly empty) text. */
  datatype FieldUpdate = SetSubtype(subtype: Subtype) | SetQuantity(quantity: Option<real>)

  /** The select widget of category `c` offers only the keys of `c`. */
  predicate Fits(c: Category, u: FieldUpdate)
  {
    u.SetSubtype? ==> CategoryOf(u.subtype) == c
  }

  /** The form data after one field update: the named field of the named
      category takes the new value, and nothing else changes. */
  function Update(f: FormData, c: Category, u: FieldUpdate): (g: FormData)
    ensures u.SetSubtype? ==> Get(g, c).subtype == Some(u.subtype)
    ensures u.SetSubtype? ==> Get(g, c).quantity == Get(f, c).quantity
    ensures u.SetQuantity? ==> Get(g, c).quantity == u.quantity
    ensures u.SetQuantity? ==> Get(g, c).subtype == Get(f, c).subtype
    ensures forall d :: d != c ==> Get(g, d) == Get(f, d)
  {
    var e := Get(f, c);
    match u
    case SetSubtype(s) => With(f, c, e.(subtype := Some(s)))
    case SetQuantity(q) => With(f, c, e.(quantity := q))
  }

  lemma UpdatePreservesWellFormed(f: FormData, c: Category, u: FieldUpdate)
    requires WellFormed(f) && Fits(c, u)
    ensures WellFormed(Update(f, c, u))
  {
    var g := Update(f, c, u);
    forall d | Get(g, d).subtype.Some?
      ensures Get(g, d).subtype.value in Subtypes(d)
    {
      if d != c { assert Get(g, d) == Get(f, d); }
    }
  }

  // ---------------------------------------------------------------------------
  // Estimator
  // ---------------------------------------------------------------------------

  /** Both fields of the entry are non-empty; a quantity of 0 counts. */
  predicate Populated(e: Entry)
  {
    e.subtype.Some? && e.quantity.Some?
  }

  /** What one category adds to the total: factor times quantity when both of
      its fields are filled in, and nothing otherwise. */
  function Term(e: Entry): real
  {
    if Populated(e) then Factor(e.subtype.value) * e.quantity.value else 0.0
  }

  /** The sum of the terms of the categories `cats`. */
  function Total(f: FormData, cats: seq<Category>): real
  {
    if cats == [] then 0.0 else Term(Get(f, cats[0])) + Total(f, cats[1..])
  }

  /** The estimated emissions of a filled-in form. `Term` looks a subtype's
      factor up by the subtype alone; this agrees with the category-then-subtype
      lookup of the table exactly on `WellFormed` forms, the only ones a
      `Logger` holds (its `Valid()`), since each key belongs to one category. */
  function Estimate(f: FormData): real
  {
    Total(f, AllCategories)
  }

  /** The estimate is the four category terms added in the estimator's order. */
  lemma EstimateExpanded(f: FormData)
    ensures Estimate(f) == Term(f.transport) + Term(f.energy) + Term(f.food) + Term(f.shopping)
  {
    var cats := AllCategories;
    assert cats[1..] == [Energy, Food, Shopping];
    assert cats[1..][1..] == [Food, Shopping];
    assert cats[1..][1..][1..] == [Shopping];
    assert cats[1..][1..][1..][1..] == [];
    assert Total(f, [Shopping]) == Term(f.shopping);
    assert Total(f, [Food, Shopping]) == Term(f.food) + Term(f.shopping);
    assert Total(f, [Energy, Food, Shopping]) == Term(f.energy) + Term(f.food) + Term(f.shopping);
  }

  /** An all-empty form estimates to 0 (a value, not "unset"). */
  lemma EmptyFormEstimatesZero()
    ensures Estimate(EmptyForm) == 0.0
  {
    EstimateExpanded(EmptyForm);
  }

  /** Replacing the entry of category `c` replaces exactly that category's term. */
  lemma EstimateAfterReplace(f: FormData, c: Category, e: Entry)
    ensures Estimate(With(f, c, e)) == Estimate(f) - Term(Get(f, c)) + Term(e)
  {
    EstimateExpanded(f);
    EstimateExpanded(With(f, c, e));
  }

  /** Emptying either field of one category removes exactly that category's term. */
  lemma ClearingRemovesTerm(f: FormData, c: Category, e: Entry)
    requires !Populated(e)
    ensures Estimate(With(f, c, e)) == Estimate(f) - Term(Get(f, c))
  {
    EstimateAfterReplace(f, c, e);
  }

  /** A bike or walking trip adds nothing, whatever its distance. */
  lemma BikeAndWalkAddNothing(f: FormData, s: Subtype, distance: Option<real>)
    requires s == Bike || s == Walk
    ensures Estimate(With(f, Transport, Entry(Some(s), distance)))
         == Estimate(With(f, Transport, EmptyEntry))
  {
    EstimateAfterReplace(f, Transport, Entry(Some(s), distance));
    EstimateAfterReplace(f, Transport, EmptyEntry);
  }

  predicate NonNegativeQuantities(f: FormData)
  {
    forall c :: Get(f, c).quantity.Some? ==> Get(f, c).quantity.value >= 0.0
  }

  lemma {:induction false} TotalNonNegative(f: FormData, cats: seq<Category>)
    requires NonNegativeQuantities(f)
    ensures Total(f, cats) >= 0.0
  {
    if cats != [] {
      TotalNonNegative(f, cats[1..]);
      var e := Get(f, cats[0]);
      if Populated(e) {
        assert Factor(e.subtype.value) >= 0.0 && e.quantity.value >= 0.0;
      }
    }
  }

  /** Non-negative quantities give a non-negative estimate. */
  lemma EstimateNonNegative(f: FormData)
    requires NonNegativeQuantities(f)
    ensures Estimate(f) >= 0.0
  {
    TotalNonNegative(f, AllCategories);
  }

  /** The categories among `cats` whose fields are both filled in, in order. */
  function PopulatedAmong(f: FormData, cats: seq<Category>): (r: seq<Category>)
    ensures forall i :: 0 <= i < |r| ==> Populated(Get(f, r[i]))
    ensures forall c :: c in r <==> c in cats && Populated(Get(f, c))
    ensures forall c :: multiset(r)[c] == if Populated(Get(f, c)) then multiset(cats)[c] else 0
  {
    if cats == [] then []
    else
      assert cats == [cats[0]] + cats[1..];
      var rest := PopulatedAmong(f, cats[1..]);
      if Populated(Get(f, cats[0])) then
        assert multiset([cats[0]] + rest) == multiset{cats[0]} + multiset(rest);
        [cats[0]] + rest
      else
        rest
  }

  /** The plain sum of factor times quantity over categories all of which are filled in. */
  function SumOfProducts(f: FormData, cats: seq<Category>): real
    requires forall i :: 0 <= i < |cats| ==> Populated(Get(f, cats[i]))
  {
    if cats == [] then 0.0
    else
      assert Populated(Get(f, cats[0]));
      var e := Get(f, cats[0]);
      Factor(e.subtype.value) * e.quantity.value + SumOfProducts(f, cats[1..])
  }

  lemma {:induction false} TotalIsSumOverPopulated(f: FormData, cats: seq<Category>)
    ensures Total(f, cats) == SumOfProducts(f, PopulatedAmong(f, cats))
  {
    if cats != [] {
      TotalIsSumOverPopulated(f, cats[1..]);
      var rest := PopulatedAmong(f, cats[1..]);
      if Populated(Get(f, cats[0])) {
        assert ([cats[0]] + rest)[1..] == rest;
      }
    }
  }

  /** The estimate is the sum of factor times quantity over exactly the
      categories whose two fields are both filled in. */
  lemma EstimateIsSumOverPopulated(f: FormData)
    ensures Estimate(f) == SumOfProducts(f, PopulatedAmong(f, AllCategories))
  {
    TotalIsSumOverPopulated(f, AllCategories);
  }

  /** Car, 15.5 km, nothing else filled in: 0.21 * 15.5 = 3.255 kg. */
  lemma CarTripExample()
    ensures Estimate(With(EmptyForm, Transport, Entry(Some(Car), Some(15.5)))) == 3.255
  {
    EstimateExpanded(With(EmptyForm, Transport, Entry(Some(Car), Some(15.5))));
  }

  /** Electricity 25.3 kWh and two vegan meals: 23.276 + 3.16 = 26.436 kg. */
  lemma ElectricityAndVeganExample()
    ensures Estimate(FormData(EmptyEntry, Entry(Some(Electricity), Some(25.3)),
                              Entry(Some(Vegan), Some(2.0)), EmptyEntry)) == 26.436
  {
    EstimateExpanded(FormData(EmptyEntry, Entry(Some(Electricity), Some(25.3)),
                              Entry(Some(Vegan), Some(2.0)), EmptyEntry));
  }

  // ---------------------------------------------------------------------------
  // Notifications
  // ---------------------------------------------------------------------------

  datatype Variant = Default | Destructive

  /** A toast notification: its title, its style and, for a saved activity,
      the emissions it reports. */
  datatype Toast = Toast(title: string, variant: Variant, emissions: Option<real>)

  /** What the form makes observable: a toast, or a call of its close callback. */
  datatype Event = Notify(toast: Toast) | Closed

  const SavedTitle: string := "Activity Saved! \U{1F331}"
  const CalculateFirstTitle: string := "Calculate First"

  /** The events a save produces, given the calculated result at that moment. */
  function SaveEvents(calculated: Option<real>): (evs: seq<Event>)
    ensures |evs| >= 1 && evs[0].Notify?
    ensures forall i :: 1 <= i < |evs| ==> evs[i] == Closed
    ensures multiset(evs)[Closed] == (if calculated.Some? then 1 else 0)
    ensures evs[0].toast.variant == Destructive <==> calculated.None?
    ensures calculated.Some? ==> evs[0].toast == Toast(SavedTitle, Default, calculated)
    ensures calculated.None? ==> evs[0].toast.title == CalculateFirstTitle
  {
    if calculated.Some? then [Notify(Toast(SavedTitle, Default, calculated)), Closed]
    else [Notify(Toast(CalculateFirstTitle, Destructive, None))]
  }

  // ---------------------------------------------------------------------------
  // The form component
  // ---------------------------------------------------------------------------

  /** Whether the dashboard is in personal or business mode; the form receives
      it from the dashboard and uses it only for its heading. */
  datatype UserType = Individual | Business

  class Logger {
    /** The user type prop, kept equal to the dashboard's current user type. */
    var userType: UserType
    var activeTab: Category
    var formData: FormData
    /** The last calculated estimate; `None` until calculated and after any edit. */
    var calculated: Option<real>
    /** Every toast and close call emitted so far, oldest first. */
    var events: seq<Event>

    ghost predicate Valid()
      reads this
    {
      WellFormed(formData)
    }

    /** A freshly mounted form: transport tab, every field empty, no result. */
    constructor (userType: UserType)
      ensures Valid()
      ensures this.userType == userType
      ensures activeTab == Transport && formData == EmptyForm
      ensures calculated == None && events == []
    {
      this.userType := userType;
      activeTab := Transport;
      formData := EmptyForm;
      calculated := None;
      events := [];
    }

    /** A tab button: only the active tab changes. */
    method SelectTab(c: Category)
      requires Valid()
      modifies this`activeTab
      ensures Valid()
      ensures activeTab == c
      ensures formData == old(formData) && calculated == old(calculated) && events == old(events)
    {
      activeTab := c;
    }

    /** An edit of one field; any edit discards the calculated result. */
    method UpdateFormData(c: Category, u: FieldUpdate)
      requires Valid() && Fits(c, u)
      modifies this`formData, this`calculated
      ensures Valid()
      ensures formData == Update(old(formData), c, u) && calculated == None
      ensures activeTab == old(activeTab) && events == old(events)
    {
      UpdatePreservesWellFormed(formData, c, u);
      formData := Update(formData, c, u);
      calculated := None;
    }

    /** The Calculate button: adds up the filled-in categories one after the
        other and stores the total. */
    method CalculateEmissions()
      requires Valid()
      modifies this`calculated
      ensures Valid()
      ensures calculated == Some(Estimate(formData))
      ensures formData == old(formData) && activeTab == old(activeTab) && events == old(events)
    {
      var total: real := 0.0;
      if formData.transport.subtype.Some? && formData.transport.quantity.Some? {
        var factor := Factor(formData.transport.subtype.value);
        total := total + factor * formData.transport.quantity.value;
      }
      assert total == Term(formData.transport);
      if formData.energy.subtype.Some? && formData.energy.quantity.Some? {
        var factor := Factor(formData.energy.subtype.value);
        total := total + factor * formData.energy.quantity.value;
      }
      assert total == Term(formData.transport) + Term(formData.energy);
      if formData.food.subtype.Some? && formData.food.quantity.Some? {
        var factor := Factor(formData.food.subtype.value);
        total := total + factor * formData.food.quantity.value;
      }
      assert total == Term(formData.transport) + Term(formData.energy) + Term(formData.food);
      if formData.shopping.subtype.Some? && formData.shopping.quantity.Some? {
        var factor := Factor(formData.shopping.subtype.value);
        total := total + factor * formData.shopping.quantity.value;
      }
      EstimateExpanded(formData);
      calculated := Some(total);
    }

    /** The Save button: refuses with a destructive toast while no result is
        calculated; otherwise reports the result and closes the form. */
    method SaveActivity()
      requires Valid()
      modifies this`events
      ensures Valid()
      ensures events == old(events) + SaveEvents(calculated)
      ensures formData == old(formData) && activeTab == old(activeTab) && calculated == old(calculated)
    {
      if calculated.Some? {
        events := events + [Notify(Toast(SavedTitle, Default, calculated))];
        events := events + [Closed];
      } else {
        events := events + [Notify(Toast(CalculateFirstTitle, Destructive, None))];
      }
    }

    /** The Cancel button: calls the close callback and nothing else. */
    method Cancel()
      requires Valid()
      modifies this`events
      ensures Valid()
      ensures events == old(events) + [Closed]
      ensures formData == old(formData) && activeTab == old(activeTab) && calculated == old(calculated)
    {
      events := events + [Closed];
    }
  }

  /** Calculating twice without an edit in between stores the same result twice. */
  method CalculateTwice(l: Logger) returns (first: Option<real>, second: Option<real>)
    requires l.Valid()
    modifies l`calculated
    ensures first == second == Some(Estimate(l.formData))
    ensures l.formData == old(l.formData)
  {
    l.CalculateEmissions();
    first := l.calculated;
    l.CalculateEmissions();
    second := l.calculated;
  }
}
