/** The shared record shapes the client pages read: the shipment row as the
    schema declares it and the shipment status constants. */
module Schema {
  import opened Wrappers

  /** The four values of ShipmentStatus. */
  const Processing := "processing"
  const InTransit := "in_transit"
  const Delivered := "delivered"
  const Delayed := "delayed"

  /** A shipment row as the list pages receive it. Timestamps are
      milliseconds since the epoch; actualTime is absent until delivery. */
  datatype Shipment = Shipment(
    id: int,
    productId: string,
    source: string,
    destination: string,
    cost: real,
    eta: int,
    actualTime: Option<int>,
    status: string,
    createdAt: int)
}
