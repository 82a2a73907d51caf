/** The constant lookup tables the trip-estimation engine reads. Every key is
    matched exactly and case-sensitively; a key outside a table is handled by
    the caller (a fallback message, or a price of 0). */
module Tables {

  /** Sightseeing spots per place, in the order they are recommended. */
  const SightseeingDb: map<string, seq<string>> := map[
    "Delhi" := ["India Gate", "Qutub Minar", "Humayun's Tomb"],
    "Manali" := ["Solang Valley", "Hadimba Temple", "Rohtang Pass (requires permit)"],
    "Leh" := ["Pangong Tso", "Khardung La", "Nubra Valley"],
    "Goa" := ["Baga Beach", "Old Goa Churches", "Dudhsagar Falls"],
    "Jaipur" := ["Hawa Mahal", "Amer Fort", "City Palace"]
  ]

  /** Permit advisory text per place. */
  const PermissionDb: map<string, string> := map[
    "Leh" := "Inner Line Permit (ILP) required for areas like Pangong Tso & Nubra Valley.",
    "Manali" := "Permit required for Rohtang Pass (check online portal).",
    "Sikkim" := "Protected Area Permit (PAP) required for North Sikkim (e.g., Gurudongmar Lake)."
  ]

  /** Transport cost per day, in rupees, keyed by the transport mode label. */
  const TransportCostPerDay: map<string, nat> := map[
    "Personal Bike" := 1200,
    "Personal Car" := 2500,
    "Rented Bike" := 1800,
    "Rented Car" := 4000,
    "Public Transport (Bus/Train/Flight)" := 3000
  ]

  /** Hotel cost per night, in rupees, keyed by the hotel preference. */
  const HotelCostPerNight: map<string, nat> := map[
    "Cheap" := 1000,
    "Standard" := 2800,
    "Branded" := 8000
  ]

  /** Food cost per day, in rupees, keyed by the restaurant preference. */
  const FoodCostPerDay: map<string, nat> := map[
    "Cheap" := 500,
    "Standard" := 1500,
    "Branded" := 4000
  ]

  /** Python's `table.get(key, 0)`. */
  function PriceOf(table: map<string, nat>, key: string): nat
  {
    if key in table then table[key] else 0
  }

  /** Every price in every cost table is a whole number of hundreds. */
  lemma PricesAreHundreds(key: string)
    ensures PriceOf(TransportCostPerDay, key) % 100 == 0
    ensures PriceOf(HotelCostPerNight, key) % 100 == 0
    ensures PriceOf(FoodCostPerDay, key) % 100 == 0
  {
  }
}
