/** Revolving credit cards: the base card and its four issuer variants, each
    with its own minimum-payment rule, and the payment a household plans to
    make on a card. Money and rates are `real`s. */
module CreditCards {
  import Rounding

  /** The concrete card class: the base card or one of the issuer variants
      that override the minimum-payment rule. */
  datatype Issuer = Base | Welf | Chas | Citi | Amex

  /** A card as its constructor leaves it. `userPayment` is the holder's
      override; 0 (or anything not above 0) means "use the computed minimum". */
  datatype CreditCard = CreditCard(
    name: string,
    issuer: Issuer,
    balance: real,
    apr: real,
    userPayment: real,
    fees: real)

  /** Default arguments of the card constructor. */
  const DefaultCardApr: real := 0.20
  const DefaultUserPayment: real := 0.0
  const DefaultFees: real := 0.0

  /** Python's two-argument `max`. */
  function Max(a: real, b: real): real
  {
    if a >= b then a else b
  }

  /** `r` is what Python's `max` returns for the candidates `xs`: one of
      them, and no smaller than any of them. */
  predicate IsMaxOf(r: real, xs: seq<real>)
  {
    r in xs && forall i :: 0 <= i < |xs| ==> xs[i] <= r
  }

  /** One month's interest at the card's annual rate. */
  function MonthlyInterest(c: CreditCard): (r: real)
    ensures 12.0 * r == c.apr * c.balance
    ensures c.apr == 0.0 || c.balance == 0.0 ==> r == 0.0
  {
    (c.apr / 12.0) * c.balance
  }

  /** A higher balance never lowers the interest when the rate is not negative. */
  lemma MonthlyInterestMonotone(c: CreditCard, b: real)
    requires c.apr >= 0.0 && c.balance <= b
    ensures MonthlyInterest(c) <= MonthlyInterest(c.(balance := b))
  {
    var d := b - c.balance;
    assert (c.apr / 12.0) * b == (c.apr / 12.0) * c.balance + (c.apr / 12.0) * d;
    assert (c.apr / 12.0) * d >= 0.0;
  }

  /** The base card: 25, or 2% of the balance when that is larger. */
  function BaseMinimumPayment(c: CreditCard): (r: real)
    ensures c.balance <= 0.0 ==> r == 0.0
    ensures c.balance > 0.0 ==> IsMaxOf(r, [25.0, c.balance * 0.02])
  {
    if c.balance <= 0.0 then 0.0
    else Max(25.0, c.balance * 0.02)
  }

  /** The WELF candidates: the whole balance capped at 40, 3.5% of the
      balance, interest plus fees plus 1% of the balance, and the holder's
      own payment. */
  function WelfMinimumPayment(c: CreditCard): (r: real)
    ensures c.balance <= 0.0 ==> r == 0.0
    ensures c.balance > 0.0 ==> IsMaxOf(r, [
      if c.balance >= 40.0 then 40.0 else c.balance,
      c.balance * 0.035,
      MonthlyInterest(c) + c.fees + c.balance * 0.01,
      c.userPayment])
  {
    if c.balance <= 0.0 then 0.0
    else
      var payment1 := if c.balance >= 40.0 then 40.0 else c.balance;
      var payment2 := c.balance * 0.035;
      var payment3 := MonthlyInterest(c) + c.fees + c.balance * 0.01;
      Max(Max(Max(payment1, payment2), payment3), c.userPayment)
  }

  /** The CHAS candidates: the whole balance capped at 35, 1% of the balance
      plus interest plus fees, and the holder's own payment. */
  function ChasMinimumPayment(c: CreditCard): (r: real)
    ensures c.balance <= 0.0 ==> r == 0.0
    ensures c.balance > 0.0 ==> IsMaxOf(r, [
      if c.balance < 35.0 then c.balance else 35.0,
      c.balance * 0.01 + MonthlyInterest(c) + c.fees,
      c.userPayment])
  {
    if c.balance <= 0.0 then 0.0
    else
      var part1 := if c.balance < 35.0 then c.balance else 35.0;
      var part2 := c.balance * 0.01 + MonthlyInterest(c) + c.fees;
      Max(Max(part1, part2), c.userPayment)
  }

  /** The CITI candidates: the whole balance capped at 25, 1% of the balance
      rounded half to even plus interest plus fees, and the holder's own
      payment. */
  function CitiMinimumPayment(c: CreditCard): (r: real)
    ensures c.balance <= 0.0 ==> r == 0.0
    ensures c.balance > 0.0 ==> IsMaxOf(r, [
      if c.balance < 25.0 then c.balance else 25.0,
      Rounding.RoundHalfEven(c.balance * 0.01) as real + MonthlyInterest(c) + c.fees,
      c.userPayment])
  {
    if c.balance <= 0.0 then 0.0
    else
      var part1 := if c.balance < 25.0 then c.balance else 25.0;
      var part2 := Rounding.RoundHalfEven(c.balance * 0.01) as real + MonthlyInterest(c) + c.fees;
      Max(Max(part1, part2), c.userPayment)
  }

  /** The AMEX candidates: interest plus 1% of the balance, 2% of the
      balance, the whole balance capped at 40, and the holder's own payment. */
  function AmexMinimumPayment(c: CreditCard): (r: real)
    ensures c.balance <= 0.0 ==> r == 0.0
    ensures c.balance > 0.0 ==> IsMaxOf(r, [
      MonthlyInterest(c) + c.balance * 0.01,
      c.balance * 0.02,
      if c.balance >= 40.0 then 40.0 else c.balance,
      c.userPayment])
  {
    if c.balance <= 0.0 then 0.0
    else
      var option1 := MonthlyInterest(c) + c.balance * 0.01;
      var option2 := c.balance * 0.02;
      var option3 := if c.balance >= 40.0 then 40.0 else c.balance;
      Max(Max(Max(option1, option2), option3), c.userPayment)
  }

  /** The minimum payment of the card's concrete class. Whatever the issuer,
      a card owing nothing needs no payment and a card with a balance needs
      a positive one. */
  function MinimumPayment(c: CreditCard): (r: real)
    ensures c.balance <= 0.0 ==> r == 0.0
    ensures c.balance > 0.0 ==> r > 0.0
  {
    match c.issuer
    case Base => BaseMinimumPayment(c)
    case Welf => WelfMinimumPayment(c)
    case Chas => ChasMinimumPayment(c)
    case Citi => CitiMinimumPayment(c)
    case Amex => AmexMinimumPayment(c)
  }

  /** The payment assumed for cash-flow purposes: the holder's override when
      it is above 0, otherwise the computed minimum. An override of exactly 0
      is the same as no override. */
  function PlannedPayment(c: CreditCard): (r: real)
    ensures c.userPayment > 0.0 ==> r == c.userPayment
    ensures c.userPayment <= 0.0 ==> r == MinimumPayment(c)
    ensures r >= 0.0
    ensures r == 0.0 <==> c.userPayment <= 0.0 && c.balance <= 0.0
  {
    if c.userPayment > 0.0 then c.userPayment else MinimumPayment(c)
  }

  /** The base card's minimum is at least 25 and at least 2% of the balance,
      and is one of the two. */
  lemma BaseMinimumBounds(c: CreditCard)
    requires c.issuer == Base && c.balance > 0.0
    ensures MinimumPayment(c) >= 25.0 && MinimumPayment(c) >= c.balance * 0.02
    ensures MinimumPayment(c) == 25.0 || MinimumPayment(c) == c.balance * 0.02
  {
    assert IsMaxOf(MinimumPayment(c), [25.0, c.balance * 0.02]);
  }

  /** The four issuer variants fold the holder's own payment into their
      maximum, so a card with a balance never plans to pay more than its
      minimum. (The base card does not: an override of 150 on a base card
      whose minimum is 25 plans 150.) */
  lemma VariantMinimumCoversUserPayment(c: CreditCard)
    requires c.issuer != Base && c.balance > 0.0
    ensures MinimumPayment(c) >= c.userPayment
    ensures PlannedPayment(c) <= MinimumPayment(c)
  {
    var r := MinimumPayment(c);
    match c.issuer
    case Welf =>
      var xs := [if c.balance >= 40.0 then 40.0 else c.balance, c.balance * 0.035,
                 MonthlyInterest(c) + c.fees + c.balance * 0.01, c.userPayment];
      assert IsMaxOf(r, xs) && xs[3] == c.userPayment;
    case Chas =>
      var xs := [if c.balance < 35.0 then c.balance else 35.0,
                 c.balance * 0.01 + MonthlyInterest(c) + c.fees, c.userPayment];
      assert IsMaxOf(r, xs) && xs[2] == c.userPayment;
    case Citi =>
      var xs := [if c.balance < 25.0 then c.balance else 25.0,
                 Rounding.RoundHalfEven(c.balance * 0.01) as real + MonthlyInterest(c) + c.fees,
                 c.userPayment];
      assert IsMaxOf(r, xs) && xs[2] == c.userPayment;
    case Amex =>
      var xs := [MonthlyInterest(c) + c.balance * 0.01, c.balance * 0.02,
                 if c.balance >= 40.0 then 40.0 else c.balance, c.userPayment];
      assert IsMaxOf(r, xs) && xs[3] == c.userPayment;
  }

  /** WELF: at least the balance capped at 40 and at least 3.5% of the
      balance; without interest and fees the 1% candidate never decides, so
      the rule is the larger of the capped balance, 3.5% and the override. */
  lemma WelfMinimumBounds(c: CreditCard)
    requires c.issuer == Welf && c.balance > 0.0
    ensures MinimumPayment(c) >= (if c.balance >= 40.0 then 40.0 else c.balance)
    ensures MinimumPayment(c) >= c.balance * 0.035
    ensures c.apr == 0.0 && c.fees == 0.0 ==>
      MinimumPayment(c) == Max(Max(if c.balance >= 40.0 then 40.0 else c.balance,
                                   c.balance * 0.035), c.userPayment)
  {
    var xs := [if c.balance >= 40.0 then 40.0 else c.balance, c.balance * 0.035,
               MonthlyInterest(c) + c.fees + c.balance * 0.01, c.userPayment];
    assert IsMaxOf(MinimumPayment(c), xs) && xs[0] <= MinimumPayment(c) && xs[1] <= MinimumPayment(c);
  }

  /** CHAS: at least the balance capped at 35, and at least interest plus
      fees plus 1% of the balance. */
  lemma ChasMinimumBounds(c: CreditCard)
    requires c.issuer == Chas && c.balance > 0.0
    ensures MinimumPayment(c) >= (if c.balance < 35.0 then c.balance else 35.0)
    ensures MinimumPayment(c) >= MonthlyInterest(c) + c.fees + c.balance * 0.01
  {
    var xs := [if c.balance < 35.0 then c.balance else 35.0,
               c.balance * 0.01 + MonthlyInterest(c) + c.fees, c.userPayment];
    assert IsMaxOf(MinimumPayment(c), xs) && xs[0] <= MinimumPayment(c) && xs[1] <= MinimumPayment(c);
  }

  /** CITI: at least the balance capped at 25, and at least interest plus
      fees plus the rounded 1% term, which itself is within half a unit of
      1% of the balance. */
  lemma CitiMinimumBounds(c: CreditCard)
    requires c.issuer == Citi && c.balance > 0.0
    ensures MinimumPayment(c) >= (if c.balance < 25.0 then c.balance else 25.0)
    ensures MinimumPayment(c) >= Rounding.RoundHalfEven(c.balance * 0.01) as real + MonthlyInterest(c) + c.fees
    ensures MinimumPayment(c) >= c.balance * 0.01 - 0.5 + MonthlyInterest(c) + c.fees
  {
    var xs := [if c.balance < 25.0 then c.balance else 25.0,
               Rounding.RoundHalfEven(c.balance * 0.01) as real + MonthlyInterest(c) + c.fees,
               c.userPayment];
    assert IsMaxOf(MinimumPayment(c), xs) && xs[0] <= MinimumPayment(c) && xs[1] <= MinimumPayment(c);
  }

  /** AMEX: at least 2% of the balance, at least the balance capped at 40,
      and at least interest plus 1% of the balance. */
  lemma AmexMinimumBounds(c: CreditCard)
    requires c.issuer == Amex && c.balance > 0.0
    ensures MinimumPayment(c) >= c.balance * 0.02
    ensures MinimumPayment(c) >= (if c.balance >= 40.0 then 40.0 else c.balance)
    ensures MinimumPayment(c) >= MonthlyInterest(c) + c.balance * 0.01
  {
    var xs := [MonthlyInterest(c) + c.balance * 0.01, c.balance * 0.02,
               if c.balance >= 40.0 then 40.0 else c.balance, c.userPayment];
    assert IsMaxOf(MinimumPayment(c), xs) && xs[0] <= MinimumPayment(c)
      && xs[1] <= MinimumPayment(c) && xs[2] <= MinimumPayment(c);
  }

  /** For every issuer, owing more never lowers the minimum payment, as long
      as the rate is not negative. */
  lemma MinimumPaymentMonotone(c: CreditCard, b: real)
    requires c.apr >= 0.0 && c.balance <= b
    ensures MinimumPayment(c) <= MinimumPayment(c.(balance := b))
  {
    var d := c.(balance := b);
    if c.balance > 0.0 {
      MonthlyInterestMonotone(c, b);
      match c.issuer
      case Base =>
      case Welf =>
      case Chas =>
      case Citi =>
        Rounding.RoundHalfEvenMonotone(c.balance * 0.01, b * 0.01);
      case Amex =>
    }
  }

  /** A WELF card like the sample WF_1 (no interest, no fees, no override):
      3.5% of its balance decides. */
  lemma SampleWelfMinimum(c: CreditCard)
    requires c.issuer == Welf && c.balance == 1563.99
    requires c.apr == 0.0 && c.fees == 0.0 && c.userPayment == 0.0
    ensures MonthlyInterest(c) == 0.0
    ensures MinimumPayment(c) == 54.73965
  {
  }

  /** A CITI card like the sample Citi_1: 1% of 2002.35 rounds to 20, so the
      floor of 25 decides. */
  lemma SampleCitiMinimum(c: CreditCard)
    requires c.issuer == Citi && c.balance == 2002.35
    requires c.apr == 0.0 && c.fees == 0.0 && c.userPayment == 0.0
    ensures MinimumPayment(c) == 25.0
  {
    Rounding.RoundHalfEvenUnique(20.0235, 20);
  }

  /** A CHAS card like the sample Chase_1: 1% of the balance plus a month's
      interest, which is above the floor of 35. */
  lemma SampleChasMinimum(c: CreditCard)
    requires c.issuer == Chas && c.balance == 4020.43
    requires c.apr == 0.1849 && c.fees == DefaultFees && c.userPayment == DefaultUserPayment
    ensures MinimumPayment(c) == 40.2043 + 743.377507 / 12.0
  {
    assert 12.0 * MonthlyInterest(c) == 743.377507;
  }
}
