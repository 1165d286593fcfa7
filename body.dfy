/** The body-mass category shown beside the BMI, derived from the BMI the form
    computes and prints with one decimal (so given here in tenths: 24.2 is 242). */
module Body {

  datatype BmiCategory = Underweight | NormalWeight | Overweight | Obese

  /** The text the category carries through the page and into the plan rules. */
  function Label(c: BmiCategory): string {
    match c
    case Underweight => "Underweight"
    case NormalWeight => "Normal weight"
    case Overweight => "Overweight"
    case Obese => "Obese"
  }

  /** Comparing labels, as the rules do, is comparing categories. */
  lemma LabelInjective(c: BmiCategory, d: BmiCategory)
    requires Label(c) == Label(d)
    ensures c == d
  {
  }

  /** Position in the order Underweight < Normal weight < Overweight < Obese. */
  function Rank(c: BmiCategory): nat {
    match c
    case Underweight => 0
    case NormalWeight => 1
    case Overweight => 2
    case Obese => 3
  }

  /** `getBMICategory`: three `<` tests against 18.5, 25 and 30, in that order. */
  function GetBmiCategory(tenths: int): (c: BmiCategory)
    ensures c == Underweight <==> tenths < 185
    ensures c == NormalWeight <==> 185 <= tenths < 250
    ensures c == Overweight <==> 250 <= tenths < 300
    ensures c == Obese <==> 300 <= tenths
  {
    if tenths < 185 then Underweight
    else if tenths < 250 then NormalWeight
    else if tenths < 300 then Overweight
    else Obese
  }

  /** A larger BMI never gives a lower category. */
  lemma GetBmiCategoryMonotone(t: int, u: int)
    requires t <= u
    ensures Rank(GetBmiCategory(t)) <= Rank(GetBmiCategory(u))
  {
  }

  /** Each threshold belongs to the higher category; the value just below it to the lower. */
  lemma GetBmiCategoryBoundaries()
    ensures GetBmiCategory(184) == Underweight && GetBmiCategory(185) == NormalWeight
    ensures GetBmiCategory(249) == NormalWeight && GetBmiCategory(250) == Overweight
    ensures GetBmiCategory(299) == Overweight && GetBmiCategory(300) == Obese
  {
  }
}
