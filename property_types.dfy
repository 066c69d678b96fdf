/**
 * The listing record the hooks and the property search work on.
 * Only the fields the modelled code reads or writes are kept.
 */
module PropertyTypes {

  datatype PropertyCategory = Residential | Commercial

  datatype Property = Property(
    id: string,
    title: string,
    address: string,
    city: string,
    category: PropertyCategory,
    propertyType: string,
    price: int,
    agentId: string)
}
