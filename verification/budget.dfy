/** The budget half of the engine: `calculate_budget`. The cost of a trip of
    `days` days is the daily transport and food prices for every day plus the
    nightly hotel price for `days - 1` nights; a peak-season trip pays 30%
    more, truncated to a whole number of rupees. */
module Budget {
  import opened Tables

  const PeakNote: string := "Includes a 30% estimated peak season surcharge."
  const OffSeasonNote: string := "Off-season pricing applied."

  /** The estimated amount in rupees and the note explaining the season. */
  datatype Estimate = Estimate(amount: int, seasonNote: string)

  /** The cost before any seasonal surcharge: transport and food for every
      day, the hotel for every night but the last day. Unknown keys are
      priced 0. It is a whole number of hundreds for any day count, so the
      30% surcharge never has a fractional part to drop, and a one-day trip
      pays no hotel night. */
  function BaseBudget(mode: string, hotel: string, food: string, days: int): (r: int)
    ensures r % 100 == 0
    ensures days == 1 ==> r == PriceOf(TransportCostPerDay, mode) + PriceOf(FoodCostPerDay, food)
  {
    PricesAreHundreds(mode);
    PricesAreHundreds(hotel);
    PricesAreHundreds(food);
    var t := PriceOf(TransportCostPerDay, mode);
    var h := PriceOf(HotelCostPerNight, hotel);
    var f := PriceOf(FoodCostPerDay, food);
    DailyHundreds(t, h, f, days);
    t * days + h * (days - 1) + f * days
  }

  /** Python's `int(n / d)` for a positive divisor: the quotient truncated
      toward zero (Dafny's own `/` rounds toward negative infinity). */
  function TruncDiv(n: int, d: int): (q: int)
    requires d > 0
    ensures n >= 0 ==> q >= 0 && d * q <= n < d * q + d
    ensures n < 0 ==> q <= 0 && d * q - d < n <= d * q
  {
    if n >= 0 then n / d else -((-n) / d)
  }

  /** The base amount with the 30% surcharge, truncated toward zero. On a
      whole number of tens nothing is truncated; it never lowers a
      non-negative amount nor raises a negative one. */
  function WithSurcharge(base: int): (r: int)
    ensures base % 10 == 0 ==> 10 * r == 13 * base
    ensures base >= 0 ==> r >= base
    ensures base < 0 ==> r <= base
  {
    TruncDiv(13 * base, 10)
  }

  /** `calculate_budget(mode, hotel_pref, food_pref, duration_days, is_peak_season)`. */
  function CalculateBudget(mode: string, hotel: string, food: string, days: int, peak: bool): (r: Estimate)
    ensures !peak ==> r.amount == BaseBudget(mode, hotel, food, days)
    ensures peak ==> 10 * r.amount == 13 * BaseBudget(mode, hotel, food, days)
    ensures r.seasonNote == (if peak then PeakNote else OffSeasonNote)
  {
    var base := BaseBudget(mode, hotel, food, days);
    HundredsAreTens(base);
    if peak then Estimate(WithSurcharge(base), PeakNote)
    else Estimate(base, OffSeasonNote)
  }

  // ---------------------------------------------------------------------
  // Arithmetic facts about the base amount

  /** Whole numbers of hundreds charged per day and per night add up to a
      whole number of hundreds for any day count. */
  lemma DailyHundreds(t: int, h: int, f: int, days: int)
    requires t % 100 == 0 && h % 100 == 0 && f % 100 == 0
    ensures (t * days + h * (days - 1) + f * days) % 100 == 0
  {
    var t1, h1, f1 := t / 100, h / 100, f / 100;
    assert t * days == 100 * (t1 * days);
    assert h * (days - 1) == 100 * (h1 * (days - 1));
    assert f * days == 100 * (f1 * days);
  }

  /** A whole number of hundreds is a whole number of tens. */
  lemma HundredsAreTens(x: int)
    requires x % 100 == 0
    ensures x % 10 == 0
  {
    assert x == 10 * (10 * (x / 100));
  }

  /** Each further day adds one day of transport, one night and one day of food. */
  lemma DayStepBase(mode: string, hotel: string, food: string, days: int)
    ensures BaseBudget(mode, hotel, food, days + 1)
         == BaseBudget(mode, hotel, food, days)
            + PriceOf(TransportCostPerDay, mode)
            + PriceOf(HotelCostPerNight, hotel)
            + PriceOf(FoodCostPerDay, food)
  {
  }

  /** For a trip of at least one day the base amount is non-negative. */
  lemma {:induction false} BaseNonNegative(mode: string, hotel: string, food: string, days: int)
    requires days >= 1
    ensures BaseBudget(mode, hotel, food, days) >= 0
    decreases days
  {
    if days > 1 {
      BaseNonNegative(mode, hotel, food, days - 1);
      DayStepBase(mode, hotel, food, days - 1);
    }
  }

  /** Longer trips never cost less before the surcharge. */
  lemma {:induction false} BaseMonotone(mode: string, hotel: string, food: string, d1: int, d2: int)
    requires d1 <= d2
    ensures BaseBudget(mode, hotel, food, d1) <= BaseBudget(mode, hotel, food, d2)
    decreases d2 - d1
  {
    if d1 < d2 {
      BaseMonotone(mode, hotel, food, d1, d2 - 1);
      DayStepBase(mode, hotel, food, d2 - 1);
    }
  }

  /** The surcharge preserves order. */
  lemma WithSurchargeMonotone(a: int, b: int)
    requires a <= b
    ensures WithSurcharge(a) <= WithSurcharge(b)
  {
  }

  // ---------------------------------------------------------------------
  // Properties of the estimate

  /** A one-day trip's estimate does not depend on the hotel preference. */
  lemma OneDayIgnoresHotel(mode: string, hotel1: string, hotel2: string, food: string, peak: bool)
    ensures CalculateBudget(mode, hotel1, food, 1, peak) == CalculateBudget(mode, hotel2, food, 1, peak)
  {
  }

  /** Off-season the estimate is `T*d + H*(d-1) + F*d` built up one day at a
      time from the transport and food prices of the first day. */
  lemma {:induction false} OffSeasonByDays(mode: string, hotel: string, food: string, days: int)
    requires days >= 1
    ensures CalculateBudget(mode, hotel, food, days, false).amount
         == PriceOf(TransportCostPerDay, mode) + PriceOf(FoodCostPerDay, food)
            + (days - 1) * (PriceOf(TransportCostPerDay, mode)
                            + PriceOf(HotelCostPerNight, hotel)
                            + PriceOf(FoodCostPerDay, food))
    decreases days
  {
    if days > 1 {
      OffSeasonByDays(mode, hotel, food, days - 1);
      DayStepBase(mode, hotel, food, days - 1);
    }
  }

  /** Unknown transport, hotel and food keys together cost nothing. */
  lemma UnknownKeysCostNothing(mode: string, hotel: string, food: string, days: int, peak: bool)
    requires mode !in TransportCostPerDay
    requires hotel !in HotelCostPerNight
    requires food !in FoodCostPerDay
    ensures CalculateBudget(mode, hotel, food, days, peak).amount == 0
  {
  }

  /** For a trip of at least one day the estimate is non-negative. */
  lemma BudgetNonNegative(mode: string, hotel: string, food: string, days: int, peak: bool)
    requires days >= 1
    ensures CalculateBudget(mode, hotel, food, days, peak).amount >= 0
  {
    BaseNonNegative(mode, hotel, food, days);
  }

  /** With everything else fixed, a longer trip never has a smaller estimate
      (this holds for every day count, since no price is negative). */
  lemma BudgetMonotoneInDays(mode: string, hotel: string, food: string, d1: int, d2: int, peak: bool)
    requires d1 <= d2
    ensures CalculateBudget(mode, hotel, food, d1, peak).amount
         <= CalculateBudget(mode, hotel, food, d2, peak).amount
  {
    BaseMonotone(mode, hotel, food, d1, d2);
    WithSurchargeMonotone(BaseBudget(mode, hotel, food, d1), BaseBudget(mode, hotel, food, d2));
  }

  /** The peak estimate is exactly 13/10 of the off-season one, and for a
      trip of at least one day it is never smaller. */
  lemma PeakVersusOffSeason(mode: string, hotel: string, food: string, days: int)
    ensures 10 * CalculateBudget(mode, hotel, food, days, true).amount
         == 13 * CalculateBudget(mode, hotel, food, days, false).amount
    ensures days >= 1 ==>
      CalculateBudget(mode, hotel, food, days, true).amount
      >= CalculateBudget(mode, hotel, food, days, false).amount
  {
    if days >= 1 {
      BaseNonNegative(mode, hotel, food, days);
    }
  }

  /** A worked example: three days by personal bike, cheap hotel and food. */
  lemma PersonalBikeCheapThreeDays()
    ensures CalculateBudget("Personal Bike", "Cheap", "Cheap", 3, false)
         == Estimate(7100, "Off-season pricing applied.")
    ensures CalculateBudget("Personal Bike", "Cheap", "Cheap", 3, true).amount == 9230
  {
  }
}
