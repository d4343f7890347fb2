/**
 * The records the storefront receives from and sends to the remote API.
 * Prices are modelled as integers; dates are integer timestamps.
 */
module Entities {
  import opened Common

  /** One entry of a product's `sizes`: a size and how many are in stock. */
  datatype SizeStock = SizeStock(size: string, stock: int)

  /** A catalogue product; `id` is the server's `_id`. */
  datatype Product = Product(
    id: string,
    name: string,
    description: string,
    price: int,
    brand: string,
    category: string,
    images: seq<string>,
    sizes: seq<SizeStock>,
    createdAt: int)

  /** One line of an order as checkout sends it. */
  datatype OrderItem = OrderItem(product: string, size: string, quantity: int, price: int)

  /**
   * An order as the server returns it. `totalPrice` and `shippingPrice`
   * may be missing; `paidAt` is null until the order is paid.
   */
  datatype Order = Order(
    id: string,
    orderItems: seq<OrderItem>,
    shippingAddress: map<string, string>,
    paymentMethod: string,
    isPaid: bool,
    status: string,
    totalPrice: Option<int>,
    shippingPrice: Option<int>,
    paidAt: Option<string>)

  /**
   * The payload checkout hands to order creation; `orderItems` may be
   * missing when the payload comes from elsewhere.
   */
  datatype OrderData = OrderData(
    orderItems: Option<seq<OrderItem>>,
    shippingAddress: map<string, string>,
    paymentMethod: string,
    totalPrice: int)

  /** A user object: field name to value. */
  type UserFields = map<string, string>
}
