/** Record shapes of the shop: products (modules/products/products.go), orders
    (modules/orders/oders.go), files (modules/files/files.go), users (modules/users/users.go) and the
    shared entities they embed (images, categories, paging). A Go pointer that may be nil becomes an
    `Option`; a Go `float64` price becomes a `real` (IEEE rounding is not modelled). */
module Models {
  import opened Wrappers

  // ---------------------------------------------------------------- products and their parts

  datatype Category = Category(id: int, title: string)

  datatype Image = Image(id: string, fileName: string, url: string)

  datatype Product = Product(
    id: string,
    title: string,
    description: string,
    category: Option<Category>,
    createdAt: string,
    updatedAt: string,
    price: real,
    images: seq<Image>)

  /** products.ProductFilter with its embedded PaginationReq and SortReq flattened. */
  datatype ProductFilter = ProductFilter(
    id: string,
    search: string,
    page: int,
    limit: int,
    orderBy: string,
    sort: string)

  // ---------------------------------------------------------------- orders

  datatype TransferSlip = TransferSlip(id: string, fileName: string, url: string, createdAt: string)

  /** One order line; `product` is the snapshot embedded at order time. */
  datatype ProductsOrder = ProductsOrder(id: string, qty: int, product: Option<Product>)

  datatype Order = Order(
    id: string,
    userId: string,
    transferSlip: Option<TransferSlip>,
    products: seq<ProductsOrder>,
    address: string,
    contact: string,
    status: string,
    totalPaid: real,
    createdAt: string,
    updatedAt: string)

  /** Only the paging fields of orders.OrderFilter are read by the modelled code. */
  datatype OrderFilter = OrderFilter(page: int, limit: int)

  // ---------------------------------------------------------------- files

  /** The part of a multipart file header the upload handler reads. */
  datatype FileHeader = FileHeader(fileName: string, size: int)

  datatype FileReq = FileReq(file: FileHeader, destination: string, extension: string, fileName: string)

  datatype FileRes = FileRes(fileName: string, url: string)

  datatype DeleteFileReq = DeleteFileReq(destination: string)

  // ---------------------------------------------------------------- users

  datatype User = User(id: string, email: string, username: string, roleId: int)

  datatype UserRegisterReq = UserRegisterReq(email: string, password: string, username: string)

  datatype UserToken = UserToken(id: string, accessToken: string, refreshToken: string)

  datatype UserPassport = UserPassport(user: Option<User>, token: Option<UserToken>)

  datatype UserClaims = UserClaims(id: string, roleId: int)

  // ---------------------------------------------------------------- paging

  datatype PaginateRes<T> = PaginateRes(data: T, page: int, limit: int, totalItem: int, totalPage: int)
}
