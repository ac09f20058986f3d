/** The local guard of `mintDomain` and the fee it attaches to a registration.
    The fee is the decimal string handed to `ethers.utils.parseEther`; the
    conversion to wei is not part of this model. */
module Pricing {

  /** Names shorter than this are refused before any contract call. */
  const MIN_NAME_LENGTH := 3

  /** What the guard at the top of `mintDomain` decides about a name. */
  datatype Validation = EmptyName | TooShort | Accepted

  function Validate(name: string): (v: Validation)
    ensures v == EmptyName <==> name == ""
    ensures v == TooShort <==> 0 < |name| < MIN_NAME_LENGTH
    ensures v == Accepted <==> |name| >= MIN_NAME_LENGTH
  {
    if name == "" then EmptyName
    else if |name| < MIN_NAME_LENGTH then TooShort
    else Accepted
  }

  /** The fee tier: a fixed lookup on the name's length, not a formula. */
  function Price(name: string): (price: string)
    ensures price == "0.5" <==> |name| == 3
    ensures price == "0.3" <==> |name| == 4
    ensures price == "0.1" <==> |name| != 3 && |name| != 4
  {
    if |name| == 3 then "0.5" else if |name| == 4 then "0.3" else "0.1"
  }

  /** A decimal amount written as one integer digit, a point and one
      fractional digit, which is the form of every fee tier. */
  predicate IsTenths(amount: string)
  {
    |amount| == 3 && '0' <= amount[0] <= '9' && amount[1] == '.' && '0' <= amount[2] <= '9'
  }

  /** The value of such an amount in tenths of the native currency. */
  function Tenths(amount: string): (t: nat)
    requires IsTenths(amount)
    ensures t < 100
  {
    10 * (amount[0] as int - '0' as int) + (amount[2] as int - '0' as int)
  }

  /** Two names of the same length always carry the same fee. */
  lemma PriceDependsOnlyOnLength(a: string, b: string)
    requires |a| == |b|
    ensures Price(a) == Price(b)
  {
  }

  /** Every fee is a well-formed decimal amount, and among accepted names a
      longer name never costs more than a shorter one: 0.5, 0.3, then 0.1. */
  lemma PriceNonIncreasing(shorter: string, longer: string)
    requires MIN_NAME_LENGTH <= |shorter| <= |longer|
    ensures IsTenths(Price(shorter)) && IsTenths(Price(longer))
    ensures Tenths(Price(longer)) <= Tenths(Price(shorter))
    ensures Tenths(Price(shorter)) == (if |shorter| == 3 then 5 else if |shorter| == 4 then 3 else 1)
  {
  }
}
