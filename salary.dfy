/** The salary derivation: from basic pay, city class, the NPA flag, other
    allowances and deductions to a breakdown of pay components. Amounts are
    exact rationals in rupees. */
module Salary {
  import opened Wrappers

  /** City classification for House Rent Allowance. */
  datatype City = X | Y | Z

  /** The breakdown record the calculator displays. */
  datatype SalaryDetails = SalaryDetails(
    basicPay: real,
    da: real,
    hra: real,
    ta: real,
    daPercentage: int,
    npa: real,
    otherAllowances: real,
    totalDeductions: real,
    netSalary: real,
    totalSalary: real)

  /** The five calculator inputs, each numeric field as the outcome of
      parsing its text (`None` for a text that is not a number). */
  datatype Inputs = Inputs(
    basicPay: Option<real>,
    city: City,
    hasNPA: bool,
    otherAllowances: Option<real>,
    deductions: Option<real>)

  /** Dearness Allowance, in percent of basic pay. */
  const DaPercentage: int := 42

  /** Flat monthly Transport Allowance. */
  const TransportAllowance: real := 3600.0

  /** Non-Practicing Allowance rate, applied when the flag is set. */
  const NpaRate: real := 0.20

  /** House Rent Allowance rate by city class. */
  function HraRate(city: City): (r: real)
    ensures 0.0 < r <= 0.24
    ensures city == X ==> r == 0.24
  {
    match city
    case X => 0.24
    case Y => 0.16
    case Z => 0.08
  }

  /** Basic pay is used only when it parses to a number that is positive:
      a missing number (NaN), zero and negatives are all rejected. */
  predicate AcceptsBasicPay(basicPay: Option<real>) {
    basicPay.Some? && basicPay.value > 0.0
  }

  /** An amount field that does not parse, or parses to zero, counts as 0. */
  function AmountOrZero(amount: Option<real>): real {
    amount.GetOr(0.0)
  }

  /** The breakdown's own invariant: gross is the sum of its parts and net is
      gross less deductions. */
  predicate Consistent(d: SalaryDetails) {
    && d.totalSalary == d.basicPay + d.da + d.hra + d.ta + d.npa + d.otherAllowances
    && d.netSalary == d.totalSalary - d.totalDeductions
  }

  /** The derivation for an accepted basic pay. */
  function Breakdown(basic: real, city: City, hasNPA: bool, other: real, deductions: real): (d: SalaryDetails)
    ensures Consistent(d)
    ensures d.basicPay == basic && d.otherAllowances == other && d.totalDeductions == deductions
    ensures d.totalSalary == basic * (1.42 + HraRate(city) + (if hasNPA then 0.20 else 0.0)) + 3600.0 + other
  {
    var da := basic * (DaPercentage as real / 100.0);
    var hra := basic * HraRate(city);
    var ta := TransportAllowance;
    var npa := if hasNPA then basic * NpaRate else 0.0;
    var totalSalary := basic + da + hra + ta + npa + other;
    var netSalary := totalSalary - deductions;
    SalaryDetails(basic, da, hra, ta, DaPercentage, npa, other, deductions, netSalary, totalSalary)
  }

  /** `calculateSalary`: a breakdown exactly when basic pay is accepted. */
  function CalculateSalary(inputs: Inputs): (r: Option<SalaryDetails>)
    ensures r.Some? <==> AcceptsBasicPay(inputs.basicPay)
    ensures r.Some? ==> Consistent(r.value) && r.value.basicPay == inputs.basicPay.value
    ensures r.Some? ==> inputs.basicPay.value > 0.0
    ensures r.Some? ==> r.value.otherAllowances == AmountOrZero(inputs.otherAllowances)
    ensures r.Some? ==> r.value.totalDeductions == AmountOrZero(inputs.deductions)
  {
    if !AcceptsBasicPay(inputs.basicPay) then None
    else
      Some(Breakdown(inputs.basicPay.value, inputs.city, inputs.hasNPA,
                     AmountOrZero(inputs.otherAllowances), AmountOrZero(inputs.deductions)))
  }

  /** The displayed breakdown after a recomputation: replaced by the new one
      when basic pay is accepted, otherwise the previous one, untouched. */
  function Refresh(previous: Option<SalaryDetails>, inputs: Inputs): (r: Option<SalaryDetails>)
    ensures AcceptsBasicPay(inputs.basicPay) ==> r.Some? && r == CalculateSalary(inputs)
    ensures !AcceptsBasicPay(inputs.basicPay) ==> r == previous
  {
    match CalculateSalary(inputs)
    case Some(d) => Some(d)
    case None => previous
  }

  /** Zero, negative and non-numeric basic pay produce nothing, and the
      previous breakdown stays as it was. */
  lemma RejectedBasicPayKeepsBreakdown(previous: Option<SalaryDetails>, inputs: Inputs)
    requires inputs.basicPay.None? || inputs.basicPay.value <= 0.0
    ensures CalculateSalary(inputs) == None
    ensures Refresh(previous, inputs) == previous
  {
  }

  /** DA is 42 percent of basic pay. */
  lemma DearnessAllowance(inputs: Inputs)
    requires AcceptsBasicPay(inputs.basicPay)
    ensures CalculateSalary(inputs).value.daPercentage == 42
    ensures CalculateSalary(inputs).value.da == inputs.basicPay.value * 42.0 / 100.0
  {
  }

  /** HRA is basic pay times 24, 16 or 8 percent by city class, so for the
      same basic pay an X city pays at least a Y city, which pays at least a
      Z city. */
  lemma HouseRentAllowance(inputs: Inputs)
    requires AcceptsBasicPay(inputs.basicPay)
    ensures var b := inputs.basicPay.value;
      CalculateSalary(inputs).value.hra
        == b * (match inputs.city case X => 0.24 case Y => 0.16 case Z => 0.08)
    ensures var b := inputs.basicPay.value;
      var hx := CalculateSalary(inputs.(city := X)).value.hra;
      var hy := CalculateSalary(inputs.(city := Y)).value.hra;
      var hz := CalculateSalary(inputs.(city := Z)).value.hra;
      hx > hy > hz > 0.0
  {
  }

  /** Transport Allowance is 3600 whatever the basic pay, city and NPA flag. */
  lemma TransportAllowanceIsFlat(inputs: Inputs)
    requires AcceptsBasicPay(inputs.basicPay)
    ensures CalculateSalary(inputs).value.ta == 3600.0
  {
  }

  /** NPA is a fifth of basic pay when enabled and zero otherwise; switching
      it on raises gross and net by exactly that fifth and changes nothing
      else but the NPA line. */
  lemma NonPracticingAllowance(inputs: Inputs)
    requires AcceptsBasicPay(inputs.basicPay)
    ensures var d := CalculateSalary(inputs).value;
      d.npa == if inputs.hasNPA then inputs.basicPay.value * 0.20 else 0.0
    ensures var on := CalculateSalary(inputs.(hasNPA := true)).value;
      var off := CalculateSalary(inputs.(hasNPA := false)).value;
      && on.totalSalary == off.totalSalary + 0.20 * inputs.basicPay.value
      && on.netSalary == off.netSalary + 0.20 * inputs.basicPay.value
      && on.(npa := 0.0, totalSalary := 0.0, netSalary := 0.0)
         == off.(npa := 0.0, totalSalary := 0.0, netSalary := 0.0)
  {
  }

  /** Other allowances and deductions that do not parse become 0 instead of
      rejecting the calculation; numbers, negative ones included, are copied
      into the breakdown as they are. */
  lemma AmountsPassThrough(inputs: Inputs)
    requires AcceptsBasicPay(inputs.basicPay)
    ensures inputs.otherAllowances.None? ==> CalculateSalary(inputs).value.otherAllowances == 0.0
    ensures inputs.deductions.None? ==> CalculateSalary(inputs).value.totalDeductions == 0.0
    ensures inputs.otherAllowances.Some? ==>
      CalculateSalary(inputs).value.otherAllowances == inputs.otherAllowances.value
    ensures inputs.deductions.Some? ==>
      CalculateSalary(inputs).value.totalDeductions == inputs.deductions.value
  {
  }

  /** Net pay is not clamped: deductions above gross give a negative net. */
  lemma NetMayBeNegative()
    ensures CalculateSalary(Inputs(Some(18000.0), Z, false, Some(0.0), Some(50000.0))).value.netSalary < 0.0
  {
  }

  /** Other allowances are not checked for sign, so a large negative amount
      makes gross pay negative too. */
  lemma GrossMayBeNegative()
    ensures CalculateSalary(Inputs(Some(18000.0), Z, false, Some(-100000.0), Some(0.0))).value.totalSalary < 0.0
  {
  }

  /** Recomputing with the same inputs changes nothing. */
  lemma RefreshIdempotent(previous: Option<SalaryDetails>, inputs: Inputs)
    ensures Refresh(Refresh(previous, inputs), inputs) == Refresh(previous, inputs)
  {
  }

  /** Level 10 minimum, X city, no NPA, nothing else: gross = net = 96726. */
  lemma Level10MetroScenario()
    ensures CalculateSalary(Inputs(Some(56100.0), X, false, Some(0.0), Some(0.0)))
      == Some(SalaryDetails(56100.0, 23562.0, 13464.0, 3600.0, 42, 0.0, 0.0, 0.0, 96726.0, 96726.0))
  {
  }

  /** Level 10 minimum, Y city, NPA on, 500 other allowances, 1000
      deductions: gross 103958, net 102958. */
  lemma Level10LargeCityWithNpaScenario()
    ensures CalculateSalary(Inputs(Some(56100.0), Y, true, Some(500.0), Some(1000.0)))
      == Some(SalaryDetails(56100.0, 23562.0, 8976.0, 3600.0, 42, 11220.0, 500.0, 1000.0, 102958.0, 103958.0))
  {
  }
}
