/** The record the recommendation service hands to the component (types.ts). */
module Types {

  /** One recommended restaurant; every field is an opaque string. */
  datatype Restaurant = Restaurant(
    id: string,
    name: string,
    cuisine: string,
    description: string,
    address: string,
    priceRange: string,
    imagePrompt: string)
}
