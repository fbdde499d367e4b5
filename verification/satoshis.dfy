/**
 The float-to-satoshi conversion of the bitcoind client.  bitcoind reports an
 amount in BTC as a decimal; Go parses it to the nearest binary64, multiplies by
 1e8 and rounds.  Binary64 arithmetic is modelled by its relative error bound
 (section 4.3.1 of IEEE 754-2019): every operation returns some real within that
 bound, so the results hold for any way of rounding.
*/
module Satoshis {

  const SAT_PER_BTC: real := 100000000.0

  /** 2^-53, the unit roundoff of binary64. */
  const UNIT_ROUNDOFF: real := 1.0 / 9007199254740992.0

  /** All the coins there can be, in satoshis. */
  const MAX_SATS: int := 2100000000000000

  function Abs(x: real): real {
    if x < 0.0 then -x else x
  }

  /** float64 may return y for an operation whose exact result is x. */
  predicate RoundsTo(x: real, y: real) {
    Abs(y - x) <= UNIT_ROUNDOFF * Abs(x)
  }

  /** math.Round: the nearest integer, halves away from zero. */
  function GoRound(x: real): int {
    if x < 0.0 then -((-x + 0.5).Floor) else (x + 0.5).Floor
  }

  lemma GoRoundIsNearest(x: real)
    ensures Abs(GoRound(x) as real - x) <= 0.5
    ensures GoRound(-x) == -GoRound(x)
  {
  }

  /** The two roundings on the way: parsing sats / 1e8, then multiplying by 1e8. */
  predicate Converts(sats: int, parsed: real, product: real) {
    && RoundsTo(sats as real / SAT_PER_BTC, parsed)
    && RoundsTo(parsed * SAT_PER_BTC, product)
  }

  /** One bitcoin, which needs no rounding, is a hundred million satoshis. */
  lemma OneBitcoin()
    ensures Converts(100000000, 1.0, 100000000.0) && GoRound(1.0 * SAT_PER_BTC) == 100000000
  {
  }

  /** The largest relative error two roundings can add up to. */
  const TWO_ROUNDINGS: real := 2.0 * UNIT_ROUNDOFF + UNIT_ROUNDOFF * UNIT_ROUNDOFF

  lemma ErrorOfConversion(sats: nat, parsed: real, product: real)
    requires Converts(sats, parsed, product)
    ensures Abs(product - sats as real) <= TWO_ROUNDINGS * sats as real
  {
    var s := sats as real;
    assert Abs(s / SAT_PER_BTC) == s / SAT_PER_BTC;
    var scaled := parsed * SAT_PER_BTC;
    assert (1.0 - UNIT_ROUNDOFF) * s <= scaled <= (1.0 + UNIT_ROUNDOFF) * s;
    assert Abs(scaled) == scaled;
    assert Abs(product - scaled) <= UNIT_ROUNDOFF * scaled;
  }

  /** Every amount up to the coin supply comes back as it was, with error below 0.467. */
  lemma ConversionIsExact(sats: nat, parsed: real, product: real)
    requires sats <= MAX_SATS
    requires Converts(sats, parsed, product)
    ensures Abs(product - sats as real) < 0.467
    ensures GoRound(product) == sats
  {
    ErrorOfConversion(sats, parsed, product);
    assert TWO_ROUNDINGS * MAX_SATS as real < 0.467;
    RoundNear(sats, product);
  }

  lemma RoundNear(sats: nat, product: real)
    requires Abs(product - sats as real) < 0.5
    ensures GoRound(product) == sats
  {
    hide GoRound;
    GoRoundIsNearest(product);
    assert -1.0 < (GoRound(product) - sats) as real < 1.0;
  }

  /** So the price test of VerifyProof compares true amounts. */
  lemma PriceTestIsExact(sats: nat, price: int, parsed: real, product: real)
    requires sats <= MAX_SATS
    requires Converts(sats, parsed, product)
    ensures GoRound(product) < price <==> sats < price
  {
    ConversionIsExact(sats, parsed, product);
  }

  /** How far the guarantee reaches: exactly while two roundings stay below half a satoshi. */
  lemma ConversionIsExactIff(sats: nat)
    ensures TWO_ROUNDINGS * sats as real < 0.5
            <==> forall parsed, product :: Converts(sats, parsed, product) ==> GoRound(product) == sats
  {
    var s := sats as real;
    if TWO_ROUNDINGS * s < 0.5 {
      forall parsed, product | Converts(sats, parsed, product)
        ensures GoRound(product) == sats
      {
        ErrorOfConversion(sats, parsed, product);
        RoundNear(sats, product);
      }
    } else {
      var parsed, product := WorstRounding(sats);
      assert Converts(sats, parsed, product) && GoRound(product) != sats;
    }
  }

  /** Both roundings go up as far as they may. */
  lemma WorstRounding(sats: nat) returns (parsed: real, product: real)
    requires TWO_ROUNDINGS * sats as real >= 0.5
    ensures Converts(sats, parsed, product) && GoRound(product) > sats
  {
    var s := sats as real;
    parsed := RoundedUp(s / SAT_PER_BTC);
    var scaled := parsed * SAT_PER_BTC;
    assert scaled == s + UNIT_ROUNDOFF * s;
    product := RoundedUp(scaled);
    assert product == s + TWO_ROUNDINGS * s;
  }

  function RoundedUp(x: real): (y: real)
    requires x >= 0.0
    ensures RoundsTo(x, y)
  {
    x + UNIT_ROUNDOFF * x
  }
}
