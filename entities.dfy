/** Record shapes of the CMS collections (src/entities/index.ts): every field
    but `_id` is optional. The `_createdDate`/`_updatedDate` stamps and the
    untyped `eventTime` are read by no modelled logic and are omitted.
    Prices and display orders are whole numbers. */
module Entities {
  import opened Common

  datatype Badge = Badge(
    id: string,
    badgeName: Option<string>,
    badgeDescription: Option<string>,
    badgeImage: Option<string>,
    rarity: Option<string>,
    category: Option<string>)

  datatype Event = Event(
    id: string,
    eventName: Option<string>,
    eventDescription: Option<string>,
    eventDate: Option<string>,
    eventLocation: Option<string>,
    eventImage: Option<string>,
    eventPrice: Option<int>)

  datatype Faq = Faq(
    id: string,
    question: Option<string>,
    answer: Option<string>,
    category: Option<string>,
    isFeatured: Option<bool>,
    displayOrder: Option<int>)

  datatype Photo = Photo(
    id: string,
    photoFile: Option<string>,
    title: Option<string>,
    description: Option<string>,
    uploadDate: Option<string>,
    photographer: Option<string>,
    eventTag: Option<string>)

  datatype ScheduleItem = ScheduleItem(
    id: string,
    eventName: Option<string>,
    eventDate: Option<string>,
    location: Option<string>,
    description: Option<string>,
    category: Option<string>)

  datatype Sponsor = Sponsor(
    id: string,
    name: Option<string>,
    logo: Option<string>,
    websiteUrl: Option<string>,
    description: Option<string>,
    tier: Option<string>)

  /** A line of the cart store as the pages read it (the store itself is not
      part of this model). */
  datatype CartItem = CartItem(
    id: string,
    name: string,
    price: int,
    image: string,
    date: string,
    quantity: int)
}
