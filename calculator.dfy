/** The calculator component's state: the input fields, the chosen level and
    the breakdown on display, with the updates the form makes to them. Each
    update is followed by the recomputation the component runs when an input
    changes. */
module Calculator {
  import opened Wrappers
  import opened PayLevels
  import opened Salary

  class SalaryCalculator {
    var level: string
    var basicPay: Option<real>
    var city: City
    var hasNPA: bool
    var otherAllowances: Option<real>
    var deductions: Option<real>
    var salaryDetails: Option<SalaryDetails>

    /** The five inputs the recomputation depends on (the level is not one). */
    function CurrentInputs(): Inputs
      reads this
    {
      Inputs(basicPay, city, hasNPA, otherAllowances, deductions)
    }

    /** Any breakdown shown is consistent and has positive basic pay; this
        holds between an input update and the recomputation that follows it. */
    ghost predicate ShownConsistent()
      reads this
    {
      salaryDetails.Some? ==> Consistent(salaryDetails.value) && salaryDetails.value.basicPay > 0.0
    }

    /** Besides, the breakdown shown is the one for the current inputs
        whenever basic pay is accepted. */
    ghost predicate Valid()
      reads this
    {
      && ShownConsistent()
      && (AcceptsBasicPay(basicPay) ==> salaryDetails == CalculateSalary(CurrentInputs()))
    }

    /** The initial state: no level, empty basic pay (which parses to 0),
        city X, no NPA, other allowances and deductions "0", nothing shown. */
    constructor ()
      ensures Valid()
      ensures level == "" && basicPay == Some(0.0) && city == X && !hasNPA
      ensures otherAllowances == Some(0.0) && deductions == Some(0.0)
      ensures salaryDetails == None
    {
      level := "";
      basicPay := Some(0.0);
      city := X;
      hasNPA := false;
      otherAllowances := Some(0.0);
      deductions := Some(0.0);
      salaryDetails := None;
    }

    /** The effect that reruns `calculateSalary` and stores its result. When
        the state was already valid, that is when no input changed since the
        last run, it changes nothing. */
    method Recalculate()
      requires ShownConsistent()
      modifies this`salaryDetails
      ensures Valid()
      ensures salaryDetails == Refresh(old(salaryDetails), CurrentInputs())
      ensures !AcceptsBasicPay(basicPay) ==> salaryDetails == old(salaryDetails)
      ensures AcceptsBasicPay(basicPay) ==> salaryDetails == CalculateSalary(CurrentInputs())
      ensures old(Valid()) ==> salaryDetails == old(salaryDetails)
    {
      var result := CalculateSalary(CurrentInputs());
      if result.Some? {
        salaryDetails := result;
      }
    }

    method SetBasicPay(value: Option<real>)
      requires Valid()
      modifies this
      ensures Valid()
      ensures basicPay == value
      ensures level == old(level) && city == old(city) && hasNPA == old(hasNPA)
      ensures otherAllowances == old(otherAllowances) && deductions == old(deductions)
      ensures salaryDetails == Refresh(old(salaryDetails), CurrentInputs())
    {
      basicPay := value;
      Recalculate();
    }

    method SetCity(value: City)
      requires Valid()
      modifies this
      ensures Valid()
      ensures city == value
      ensures level == old(level) && basicPay == old(basicPay) && hasNPA == old(hasNPA)
      ensures otherAllowances == old(otherAllowances) && deductions == old(deductions)
      ensures salaryDetails == Refresh(old(salaryDetails), CurrentInputs())
    {
      city := value;
      Recalculate();
    }

    method SetNPA(value: bool)
      requires Valid()
      modifies this
      ensures Valid()
      ensures hasNPA == value
      ensures level == old(level) && basicPay == old(basicPay) && city == old(city)
      ensures otherAllowances == old(otherAllowances) && deductions == old(deductions)
      ensures salaryDetails == Refresh(old(salaryDetails), CurrentInputs())
    {
      hasNPA := value;
      Recalculate();
    }

    method SetOtherAllowances(value: Option<real>)
      requires Valid()
      modifies this
      ensures Valid()
      ensures otherAllowances == value
      ensures level == old(level) && basicPay == old(basicPay) && city == old(city)
      ensures hasNPA == old(hasNPA) && deductions == old(deductions)
      ensures salaryDetails == Refresh(old(salaryDetails), CurrentInputs())
    {
      otherAllowances := value;
      Recalculate();
    }

    method SetDeductions(value: Option<real>)
      requires Valid()
      modifies this
      ensures Valid()
      ensures deductions == value
      ensures level == old(level) && basicPay == old(basicPay) && city == old(city)
      ensures hasNPA == old(hasNPA) && otherAllowances == old(otherAllowances)
      ensures salaryDetails == Refresh(old(salaryDetails), CurrentInputs())
    {
      deductions := value;
      Recalculate();
    }

    /** Choosing a pay level: the level is always recorded; basic pay becomes
        that level's minimum when the name is in the table and is otherwise
        left as it was. */
    method SelectLevel(name: string)
      requires Valid()
      modifies this
      ensures Valid()
      ensures level == name
      ensures basicPay == SelectedBasicPay(name, old(basicPay))
      ensures forall i :: 0 <= i < |Levels| && Levels[i].name == name ==> basicPay == Some(Levels[i].min as real)
      ensures (forall i :: 0 <= i < |Levels| ==> Levels[i].name != name) ==>
        basicPay == old(basicPay) && salaryDetails == old(salaryDetails)
      ensures city == old(city) && hasNPA == old(hasNPA)
      ensures otherAllowances == old(otherAllowances) && deductions == old(deductions)
      ensures salaryDetails == Refresh(old(salaryDetails), CurrentInputs())
    {
      level := name;
      basicPay := SelectedBasicPay(name, basicPay);
      Recalculate();
    }
  }

  /** Choosing Level 10 in a fresh calculator shows the Level 10 metro
      breakdown: gross and net 96726. */
  method Level10Selection() returns (shown: Option<SalaryDetails>)
    ensures shown == Some(SalaryDetails(56100.0, 23562.0, 13464.0, 3600.0, 42, 0.0, 0.0, 0.0, 96726.0, 96726.0))
  {
    var calculator := new SalaryCalculator();
    calculator.SelectLevel("Level 10");
    assert Levels[9].name == "Level 10";
    Level10MetroScenario();
    shown := calculator.salaryDetails;
  }
}
