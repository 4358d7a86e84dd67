/** The purchasable items: coupons and prashad meals. */
module Catalog {
  import opened Options

  datatype MealTime = Breakfast | Lunch | Dinner

  /** The `meal_time` column value. */
  function MealTimeName(m: MealTime): string {
    match m
    case Breakfast => "breakfast"
    case Lunch => "lunch"
    case Dinner => "dinner"
  }

  datatype Coupon = Coupon(
    id: string,
    name: string,
    description: string,
    priceInCents: int,
    imageUrl: Option<string>,
    category: Option<string>,
    available: bool)

  datatype Prashad = Prashad(
    id: string,
    name: string,
    description: Option<string>,
    mealTime: MealTime,
    imageUrl: Option<string>,
    priceInCents: int,
    isAvailable: bool)
}
