/**
 * The rows of the marketplace's tables (types/database.types.ts) and the closed
 * set of listing categories (utils/categories.ts).
 *
 * Ids are the tables' uuid strings. Timestamps are the `timestamptz` columns,
 * which the store compares as instants; they are modelled as natural numbers.
 * Prices and coordinates are JavaScript numbers and are only carried, never
 * computed with, so they are modelled as reals.
 */
module Database {
  import opened Wrappers

  type Id = string
  type Timestamp = nat

  /** `products.status`: 'active' | 'sold' | 'inactive'. */
  datatype Status = Active | Sold | Inactive

  /** A row of `profiles`. */
  datatype Profile = Profile(
    id: Id,
    email: string,
    fullName: Option<string>,
    avatarUrl: Option<string>,
    createdAt: Timestamp,
    updatedAt: Timestamp)

  /** A row of `products` (a listing). */
  datatype Product = Product(
    id: Id,
    userId: Id,
    title: string,
    description: string,
    price: real,
    category: string,
    images: seq<string>,
    latitude: real,
    longitude: real,
    locationName: Option<string>,
    status: Status,
    createdAt: Timestamp,
    updatedAt: Timestamp)

  /** A row of `messages`. */
  datatype Message = Message(
    id: Id,
    conversationId: Id,
    senderId: Id,
    receiverId: Id,
    productId: Id,
    content: string,
    isRead: bool,
    createdAt: Timestamp)

  /** A row of `conversations`; `lastMessage`/`lastMessageAt` are the denormalised summary. */
  datatype Conversation = Conversation(
    id: Id,
    productId: Id,
    buyerId: Id,
    sellerId: Id,
    lastMessage: Option<string>,
    lastMessageAt: Option<Timestamp>,
    createdAt: Timestamp,
    updatedAt: Timestamp)

  /** The closed category set offered by the listing forms and the feed's category picker. */
  const Categories: seq<string> := [
    "Electronics",
    "Furniture",
    "Clothing",
    "Books",
    "Sports",
    "Toys",
    "Home & Garden",
    "Vehicles",
    "Other"
  ]
}
