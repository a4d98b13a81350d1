/** The records the cart works on: the fields of a catalog product that the cart
    reads, and one line of the cart. */
module CartModel {

  datatype Option<T> = None | Some(value: T)

  /** A catalog product as the cart sees it (BSCS/Models/Product.cs). Slug,
      description, category and the image list are never read by the cart and
      are not carried. The price is a C# decimal: exact, so it is a real here. */
  datatype Product = Product(id: int, title: string, price: real, image: string)

  /** One line of the cart (BSCS/Models/CartItem.cs): its own id, the product
      it is for, the title, price and image captured when the line was created,
      and how many of the product are in the cart. */
  datatype CartItem = CartItem(
    id: int,
    productId: int,
    title: string,
    price: real,
    quantity: int,
    image: string)
}
