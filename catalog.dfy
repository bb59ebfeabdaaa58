/** The stored records the suggestion service reads (models/listing.py,
    models/room.py, models/neighborhood.py), as plain values, and the
    pre-joined catalog entry that replaces the database queries. */
module Catalog {
  import opened Results
  import opened Schemas

  datatype Listing = Listing(
    airbnbId: int,
    airbnbName: string,
    price: int,
    hostId: int,
    neighNum: int)

  datatype Room = Room(
    airbnbId: int,
    hostId: int,
    roomType: string,
    availability: bool,
    checkIn: Option<Date>,
    checkOut: Option<Date>)

  datatype Neighborhood = Neighborhood(neighNum: int, neighName: string, rank: int)

  /** One listing of the catalog, joined with its neighbourhood and with the
      first room stored under its identifier, if there is one. */
  datatype CatalogEntry = CatalogEntry(listing: Listing, neighborhood: Neighborhood, room: Option<Room>)
}
