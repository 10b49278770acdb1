/**
 * The BMI workflow: calculate_bmi writes the body-mass index into the state,
 * then bmi_category writes the category the index falls in.
 *
 * Both nodes assign into the state they are given, so the state is an object
 * whose unset keys are absent. The index is kept as the exact quotient; the
 * rounding to two decimals is not modelled.
 */
module BmiWorkflow {
  import opened Wrappers

  datatype Category = Underweight | Normal | Overweight | Obese

  /** The label bmi_category stores in the state. */
  function CategoryName(c: Category): string {
    match c
    case Underweight => "Underweight"
    case Normal => "Normal"
    case Overweight => "Overweight"
    case Obese => "Obese"
  }

  /** Different categories have different labels, so the stored label determines the category. */
  lemma CategoryNameInjective(c1: Category, c2: Category)
    ensures CategoryName(c1) == CategoryName(c2) ==> c1 == c2
  {
  }

  /** The position of a category on the scale, lightest first. */
  function Rank(c: Category): nat {
    match c
    case Underweight => 0
    case Normal => 1
    case Overweight => 2
    case Obese => 3
  }

  /** `height ** 2 == 0` divides by zero; reading an absent key raises. */
  datatype BmiError = ZeroDivisionError | KeyError(key: string)

  /** The if/elif chain of bmi_category. */
  function Classify(bmi: real): Category {
    if bmi < 18.5 then Underweight
    else if 18.5 <= bmi < 25.0 then Normal
    else if 25.0 <= bmi < 30.0 then Overweight
    else Obese
  }

  /** Each category is exactly one interval of the scale; together they cover it. */
  lemma ClassifyIntervals(bmi: real)
    ensures Classify(bmi) == Underweight <==> bmi < 18.5
    ensures Classify(bmi) == Normal <==> 18.5 <= bmi < 25.0
    ensures Classify(bmi) == Overweight <==> 25.0 <= bmi < 30.0
    ensures Classify(bmi) == Obese <==> 30.0 <= bmi
  {
  }

  /** A larger index never gives a lighter category. */
  lemma ClassifyMonotone(x: real, y: real)
    requires x <= y
    ensures Rank(Classify(x)) <= Rank(Classify(y))
  {
    ClassifyIntervals(x);
    ClassifyIntervals(y);
  }

  /** The script's input, 67 kg at 1.72 m, is Normal. */
  lemma ScriptCategory()
    ensures Classify(BmiOf(67.0, 1.72)) == Normal
  {
    var h2 := 1.72 * 1.72;
    assert h2 == 2.9584;
    var q := 67.0 / h2;
    assert q * h2 == 67.0;
    assert 18.5 <= q < 25.0;
  }

  /** The square of a non-zero height is positive. */
  lemma PositiveSquare(h: real)
    requires h != 0.0
    ensures h * h > 0.0
  {
    var m := if h > 0.0 then h else -h;
    assert m * m > 0.0;
    assert h * h == m * m;
  }

  /** `weight / (height ** 2)`, before rounding. */
  function BmiOf(weight: real, height: real): real
    requires height != 0.0
  {
    PositiveSquare(height);
    weight / (height * height)
  }

  /** At a fixed height, the index grows with the weight. */
  lemma BmiOfMonotone(w1: real, w2: real, height: real)
    requires height != 0.0 && w1 <= w2
    ensures BmiOf(w1, height) <= BmiOf(w2, height)
  {
    PositiveSquare(height);
    assert BmiOf(w1, height) * (height * height) == w1;
    assert BmiOf(w2, height) * (height * height) == w2;
    assert (BmiOf(w2, height) - BmiOf(w1, height)) * (height * height) == w2 - w1;
  }

  /** At a fixed height, a heavier person is never in a lighter category. */
  lemma HeavierNeverLighter(w1: real, w2: real, height: real)
    requires height != 0.0 && w1 <= w2
    ensures Rank(Classify(BmiOf(w1, height))) <= Rank(Classify(BmiOf(w2, height)))
  {
    BmiOfMonotone(w1, w2, height);
    ClassifyMonotone(BmiOf(w1, height), BmiOf(w2, height));
  }

  /** The state dictionary; `bmi` and `category` start out absent. */
  class BmiState {
    var weightInKgs: real
    var heightInMeters: real
    var bmi: Option<real>
    var category: Option<string>

    constructor(weight: real, height: real)
      ensures weightInKgs == weight && heightInMeters == height
      ensures bmi == None && category == None
    {
      weightInKgs := weight;
      heightInMeters := height;
      bmi := None;
      category := None;
    }

    /** calculate_bmi: weight over height squared; writes `bmi` and nothing else. */
    method CalculateBmi() returns (status: Result<(), BmiError>)
      modifies this`bmi
      ensures status.Err? <==> heightInMeters == 0.0
      ensures status.Err? ==> status.error == ZeroDivisionError && bmi == old(bmi)
      ensures status.Ok? ==> bmi == Some(BmiOf(weightInKgs, heightInMeters))
    {
      if heightInMeters == 0.0 {
        return Err(ZeroDivisionError);
      }
      bmi := Some(BmiOf(weightInKgs, heightInMeters));
      status := Ok(());
    }

    /** bmi_category: classifies the stored index; writes `category` and nothing else. */
    method BmiCategory() returns (status: Result<(), BmiError>)
      modifies this`category
      ensures status.Err? <==> bmi.None?
      ensures status.Err? ==> status.error == KeyError("bmi") && category == old(category)
      ensures status.Ok? ==> category == Some(CategoryName(Classify(bmi.value)))
    {
      if bmi.None? {
        return Err(KeyError("bmi"));
      }
      category := Some(CategoryName(Classify(bmi.value)));
      status := Ok(());
    }
  }

  /**
   * The compiled graph: START, calculate_bmi, bmi_category, END. It fails
   * only on a zero height; otherwise the final state holds the index and its
   * category, and the inputs as given.
   */
  method Invoke(weight: real, height: real) returns (r: Result<BmiState, BmiError>)
    ensures r.Err? <==> height == 0.0
    ensures r.Err? ==> r.error == ZeroDivisionError
    ensures r.Ok? ==>
      && r.value.weightInKgs == weight && r.value.heightInMeters == height
      && r.value.bmi == Some(BmiOf(weight, height))
      && r.value.category == Some(CategoryName(Classify(BmiOf(weight, height))))
  {
    var state := new BmiState(weight, height);
    var calculated := state.CalculateBmi();
    if calculated.Err? {
      return Err(calculated.error);
    }
    var categorised := state.BmiCategory();
    assert categorised.Ok?;
    r := Ok(state);
  }
}
