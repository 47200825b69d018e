/** The stored item (ticket) record, as the two API routes read and write it. */
module Items {
  import opened Wrappers

  /** One row of the item table.
      `id` is the store-assigned key; `amount` is the fee when it is a number;
      `riskScore` and `createdBy` may be missing on a row (the routes read them
      with a default); `status` is the database enum's text (`NEW`,
      `IN_REVIEW`, `REJECTED`, `APPROVED`); `createdAt` is a timestamp. */
  datatype Item = Item(
    id: nat,
    title: string,
    description: string,
    amount: Option<real>,
    tags: seq<string>,
    riskScore: Option<int>,
    status: string,
    createdBy: Option<string>,
    createdAt: int
  )

  /** The status every new item starts in. */
  const InitialStatus: string := "NEW"
}
