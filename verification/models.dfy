/** The server's records, as serialised into the store and onto the wire. */
module Models {
  import opened Wrappers
  import opened Numbers

  /** An `f32` kept as its 32-bit pattern: amounts are carried, never computed with. */
  type Bits32 = b: int | 0 <= b < 0x1_0000_0000
  datatype F32 = F32(bits: Bits32)

  /** `DateTime<Utc>` as whole seconds since the Unix epoch (its `timestamp()`). */
  type Instant = I64

  /** A food of the food database; its nutrient figures are `f32`s and left out. */
  datatype FoodItem = FoodItem(id: string, name: string)

  /** One food in a meal and its quantity in that food's serving unit. */
  datatype MealItem = MealItem(foodId: string, amount: F32)

  /** A meal as stored and returned. */
  datatype Meal = Meal(id: string, userId: string, name: string, timestamp: Instant,
                       items: seq<MealItem>, notes: Option<string>)

  /** A minimum and maximum, and the daily targets made of them. */
  datatype Range = Range(min: F32, max: F32)
  datatype NutrientTargets = NutrientTargets(userId: string, macros: seq<Range>, micros: seq<Range>)

  /** A user's profile. */
  datatype UserProfile = UserProfile(id: string, phone: string, createdAt: Instant,
                                     targets: Option<NutrientTargets>)
}
