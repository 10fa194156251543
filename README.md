# phurinshop core, modelled in Dafny

phurinshop is a Go web shop API: products with categories and images, users, and orders,
stored in PostgreSQL, with files kept in cloud storage and JWT authentication. This project
models the core of that service:

- the SQL builders behind the products, users and orders modules. These are the product list
  query, the product insert and update, the user insert and the order insert;
- the handlers, usecases and repository that drive them;
- the response object every handler answers through;
- the files handler;
- the token factory;
- the configuration loader;
- the binary converter.

Each Go file of the core is one Dafny module. Objects that the Go code mutates step by step are
classes whose methods say what they change:

- the builders, engineers, handlers and the usecase;
- the response;
- the JWT settings;
- the transaction and the store.

Pure computations are functions with lemmas. The Go loops keep their loops:

- the placeholder numbering in the product filter;
- the image, order-line and field loops;
- the file checks;
- the order pricing;
- the binary digits.

Each of these loops is proved against a specification function.

How the store is modelled:

- SQL text is a sequence of pieces: literal text, an unnumbered `?` hole, or a numbered `$n`
  placeholder. `strings.Replace(q, "?", "$n", 1)` numbers the first hole.
- The main property proved about every statement the builders send is `InStep`: no hole is
  left, and the placeholders are exactly `$1..$k` for the `k` bound values.
- The store keeps a journal of the statements each table received.
- A transaction records every statement it sends. A commit applies them in order; a failure
  applies none.
- What the store answers is an input. A write gets done or refused. A read is a function from
  the statement to its answer.

Quirks of the source are modelled as written:

- An update writes the price only when it is negative.
- `getOrderId` returns "".
- The id predicate of the product filter is appended twice when both an id and a search are
  requested.
- The token audience is spelled "costomer".
- `RepeatToken` drops the user claims it is handed.
- A product update whose transaction fails to begin dereferences a nil transaction. The model
  returns `NilTxPanic` for that case.
- A response that was sent an error keeps its error body after a later success.
- The product list's sort direction is looked up with the upper-cased column rather than the
  requested direction. So a recognised direction ("ASC" or "DESC") reaches the statement as
  an empty direction, and an unknown one as "ASC". The builder's `Sort` does exactly that.
- The page offset `(page-1)*limit` is computed in Go's 64-bit `int` and wraps around.
- The one place where the code is evidently not what was meant is under "## Findings".

## Model

| member | source | states |
|---|---|---|
| Auth.DateAfterAdds | pkg/auth/auth.go:56-58 | while the conversion to nanoseconds is exact, the date `t` seconds on is the current NumericDate plus `t` |
| Auth.NewAccessToken | pkg/auth/auth.go:162-177 | an access token is a user token over the same settings carrying the claims it was given |
| Auth.NewRefreshToken | pkg/auth/auth.go:180-195 | a refresh token is a user token over the same settings carrying the claims it was given |
| Auth.NewAdminToken | pkg/auth/auth.go:199-216 | an admin token is an admin token over the same settings with no user claims |
| Auth.NewphurinshopAuth | pkg/auth/auth.go:148-159 | succeeds exactly for "access", "refresh" and "admin"; any other type fails with "Unknow token type"; the result is an admin token exactly for "admin" |
| Auth.TokenClaims | pkg/auth/auth.go:162-216 | issuer "phurinshopapi"; subjects access-token / refresh-token / admin-token; audiences ["costomer","admin"] or ["admin"]; expiry is now plus the configured seconds (300 for admin); not-before and issued-at are now |
| Auth.KeySelection | pkg/auth/auth.go:219-234 | an admin token is signed with the admin key, every other token with the secret key |
| Auth.RepeatKeepsExpiry | pkg/auth/auth.go:129-144 | a repeated token keeps the given expiry, is signed with the secret key, and does not depend on the claims passed in |
| Auth.ParseError | pkg/auth/auth.go:77-85 | malformed gives "token format is invalid"; otherwise expired gives "token had expired"; otherwise "parse token failed: " plus the error |
| Auth.NonHmacRefused | pkg/auth/auth.go:66-125 | when the library refuses every token its key function rejects, a token not signed with HMAC fails both parsers with the library's error |
| Auth.ParseClassification | pkg/auth/auth.go:66-125 | every parse failure is one of the three messages; a non-HMAC token gets no key, so both parsers agree on it; the parsers agree when the keys do; parsing succeeds exactly when verification does |
| Configs.Wrap64 | config/config.go:33-47 | the result is in the int64 range and equals the input when the input is already in range |
| Configs.Duration | config/config.go:33-47 | a configured number of seconds becomes an int64 nanosecond duration |
| Configs.DurationExact | config/config.go:33-47 | up to 9223372036 seconds either way the duration is the seconds times 10^9 |
| Configs.DurationWraps | config/config.go:33-47 | one second more wraps around to a negative duration |
| Configs.AppUrlSplits | config/config.go:155 | the application address splits back into the host, ':' and the port, read back by Atoi |
| Configs.DbUrlIsKeyValues | config/config.go:186-196 | the connection string is host, port, user, password, dbname and sslmode as `key=value` pairs separated by spaces |
| Configs.FirstUnparsed | config/config.go:14-111 | no message exactly when every numeric setting parses; a message names a setting that does not parse |
| Configs.LoadConfig | config/config.go:14-111 | loading succeeds exactly when all nine numeric settings are integers |
| Configs.UnparsedPortStops | config/config.go:23-29 | a missing or non-integer port stops loading with "load port failed" |
| Configs.LoadedPortReadsBack | config/config.go:23-29 | a port written in decimal is loaded as that number, and the address shows it as written |
| Configs.LoadedTimeouts | config/config.go:33-47 | the read and write timeouts are the configured seconds converted to a duration |
| Configs.JwtConfig.constructor | config/config.go:91-109 | the JWT settings hold the loaded keys and expiries |
| Configs.JwtConfig.SetJwtAccessExpires | config/config.go:228 | only the access expiry changes |
| Configs.JwtConfig.SetJwtRefreshxpires | config/config.go:229 | only the refresh expiry changes |
| Converters.Pow2 | pkg/utils/converter.go:3-14 | the digit capacity 2^n is positive |
| Converters.Bits | pkg/utils/converter.go:3-14 | the representation has exactly `width` digits |
| Converters.BitsBinary | pkg/utils/converter.go:3-14 | every digit is 0 or 1 |
| Converters.BitsOfZero | pkg/utils/converter.go:3-14 | zero is all zeros |
| Converters.BitsRoundTrip | pkg/utils/converter.go:3-14 | a number below 2^width is read back from its digits |
| Converters.FromBitsRoundTrip | pkg/utils/converter.go:3-14 | binary digits read as a number and written back are the same digits |
| Converters.BinaryConverter | pkg/utils/converter.go:3-14 | a fresh array of `bits` digits, most significant first, equal to Bits(number); all zeros for a number that is not positive |
| Converters.ConverterReadsBack | pkg/utils/converter.go:3-14 | the converter's digits read back as the number given |
| Text.NatToDecimal | modules/files/filesHandlers/filesHandler.go:84 | decimal text is non-empty and all digits |
| Text.IntToDecimal | config/config.go:155 | `%v` of an int starts with a digit exactly when the int is not negative |
| Text.Atoi | config/config.go:24 | a parse yields an int64 and needs a sign or a digit first |
| Text.AtoiFormatsRoundTrip | config/config.go:24 | Atoi reads back every int64 that `%d` prints |
| Text.TrimLeftSpaces | modules/products/productsHandlers/productsHandler.go:56 | removes exactly the leading spaces |
| Text.TrimRightSpaces | modules/products/productsHandlers/productsHandler.go:56 | removes exactly the trailing spaces |
| Text.TrimSpaces | modules/products/productsHandlers/productsHandler.go:56 | a slice of the input with no space at either end that keeps every character other than space |
| Text.ToUpper | modules/products/productPatterns/findProducts.go:184 | keeps the length |
| Text.ToUpperChars | modules/products/productPatterns/findProducts.go:184 | upper-cases every character in place |
| Text.ToLower | modules/products/productPatterns/findProducts.go:137 | keeps the length |
| Text.ToLowerChars | modules/products/productPatterns/findProducts.go:137 | lower-cases every character in place |
| Text.ExtShape | modules/files/filesHandlers/filesHandler.go:71 | `filepath.Ext` is empty, or a suffix starting with its only '.' and holding no '/' |
| Text.TrimDot | modules/files/filesHandlers/filesHandler.go:71 | removes one leading '.', and nothing else |
| Text.ExtOfDottedSuffix | modules/files/filesHandlers/filesHandler.go:71 | a name ending in '.' and a text without '.' or '/' has that extension |
| Text.ExtensionIsDottedSuffix | modules/files/filesHandlers/filesHandler.go:71 | the trimmed extension is `e` exactly when the name ends in "." + e |
| FilesHandlers.FileError | modules/files/filesHandlers/filesHandler.go:71-86 | a file passes exactly when its extension is allowed and its size is within the limit |
| FilesHandlers.UploadReqs | modules/files/filesHandlers/filesHandler.go:88-95 | one upload request per file, in order, under the destination with a generated name |
| FilesHandlers.FirstFileErrorNone | modules/files/filesHandlers/filesHandler.go:70-96 | no error exactly when every file passes |
| FilesHandlers.FirstFileErrorPrefix | modules/files/filesHandlers/filesHandler.go:70-96 | the first refused file decides; later files change nothing |
| FilesHandlers.ExtensionIs | modules/files/filesHandlers/filesHandler.go:71-72 | an extension is `e` exactly when the name ends in the dotted `e` |
| FilesHandlers.ExtensionAllowedIff | modules/files/filesHandlers/filesHandler.go:64-72 | a file's extension is allowed exactly when its name ends in ".png", ".jpg" or ".jpeg" |
| FilesHandlers.UpperCaseRefused | modules/files/filesHandlers/filesHandler.go:64-72 | the check is case-sensitive: "photo.PNG" is refused and "photo.png" accepted |
| FilesHandlers.SizeLimitInclusive | modules/files/filesHandlers/filesHandler.go:80-86 | a file exactly at the limit passes; one byte more gets the size message |
| FilesHandlers.UploadCreatedIff | modules/files/filesHandlers/filesHandler.go:46-110 | an upload answers 201 exactly when the form parses, every file passes and storage accepts |
| FilesHandlers.FilesHandler.constructor | modules/files/filesHandlers/filesHandler.go:38-43 | the handler keeps the file limit and the files usecase |
| FilesHandlers.FilesHandler.CheckFiles | modules/files/filesHandlers/filesHandler.go:70-96 | the loop returns the first file's error, and otherwise the upload requests |
| FilesHandlers.FilesHandler.UploadFiles | modules/files/filesHandlers/filesHandler.go:46-110 | answers as the specification says; storage receives the requests only when every file passes |
| FilesHandlers.FilesHandler.DeleteFile | modules/files/filesHandlers/filesHandler.go:113-134 | the parsed requests, and only they, go to storage; the answer follows storage's |
| FindProducts.OrderColumnAllowed | modules/products/productPatterns/findProducts.go:163-174 | only allow-listed columns reach the statement; any other key sorts by title |
| FindProducts.SortLookupKnown | modules/products/productPatterns/findProducts.go:177-181 | the direction map knows exactly "ASC" and "DESC", each mapped to itself |
| FindProducts.DirectionOfColumn | modules/products/productPatterns/findProducts.go:181-185 | as written, a known sort key gives the direction "" and an unknown one "ASC", whatever the direction requested |
| FindProducts.DescIsDropped | modules/products/productPatterns/findProducts.go:184 | a descending sort by price reaches the statement with no direction |
| FindProducts.CorrectedDirection | modules/products/productPatterns/findProducts.go:177-185 | the corrected direction is "ASC" or "DESC" and is the requested one when that is known |
| FindProducts.UpperDirection | modules/products/productPatterns/findProducts.go:184 | upper-casing a known direction changes nothing |
| FindProducts.FindSteps | modules/products/productPatterns/findProducts.go:263-271 | the six builder steps compose to the list statement, ordered in the as-written direction and paged with the int64 offset |
| FindProducts.FindValuesShape | modules/products/productPatterns/findProducts.go:263-271 | the bound values are the filter's, then the sort column, the offset and the limit |
| FindProducts.WhereInStep | modules/products/productPatterns/findProducts.go:121-160 | the filter's placeholders are exactly $1..$k for its k values |
| FindProducts.ListInStep | modules/products/productPatterns/findProducts.go:187-196 | with sorting and paging the list statement is in step with k + 3 values |
| FindProducts.FreshFindInStep | modules/products/productPatterns/findProducts.go:263-271 | on a fresh builder the list statement is in step with its values |
| FindProducts.CountInStep | modules/products/productPatterns/findProducts.go:273-277 | the count statement is in step with its filter values |
| FindProducts.WhereLoopText | modules/products/productPatterns/findProducts.go:145-158 | the numbering loop appends exactly the filter text, with the id predicate twice when both filters are set |
| FindProducts.SearchHoleNumbered | modules/products/productPatterns/findProducts.go:140-150 | the search predicate's two holes are numbered in order |
| FindProducts.FindProductBuilder.constructor | modules/products/productPatterns/findProducts.go:47-52 | a builder starts with an empty statement and the request |
| FindProducts.FindProductBuilder.OpenJsonQuery | modules/products/productPatterns/findProducts.go:58-63 | appends the JSON aggregate's opening |
| FindProducts.FindProductBuilder.CloseJsonQuery | modules/products/productPatterns/findProducts.go:66-69 | appends its closing |
| FindProducts.FindProductBuilder.InitQuery | modules/products/productPatterns/findProducts.go:72-107 | appends the product select |
| FindProducts.FindProductBuilder.CountQuery | modules/products/productPatterns/findProducts.go:110-118 | appends the count select |
| FindProducts.FindProductBuilder.WhereQuery | modules/products/productPatterns/findProducts.go:121-160 | appends the filter text and values and advances the last index by the values bound |
| FindProducts.SortedDirection | modules/products/productPatterns/findProducts.go:163-185 | after sorting, the column is allow-listed and the direction is "" for a recognised one ("ASC" included) and "ASC" otherwise |
| FindProducts.FindProductBuilder.Sort | modules/products/productPatterns/findProducts.go:163-190 | maps the key through the allow-list and binds the column; a recognised direction becomes the map's entry for the upper-cased column (line 184 as written), an unknown one "ASC" |
| FindProducts.Offset | modules/products/productPatterns/findProducts.go:194 | the offset is in the int64 range, and equals (page-1)*limit whenever that fits |
| FindProducts.OffsetWraps | modules/products/productPatterns/findProducts.go:194 | page 2^61+1 with limit 5 gives a negative offset |
| FindProducts.FindProductBuilder.Paginate | modules/products/productPatterns/findProducts.go:191-199 | binds the offset (page-1)*limit computed in int64 (wrapping, see Offset) and the limit, numbered after the earlier values |
| FindProducts.FindProductBuilder.ResetQuery | modules/products/productPatterns/findProducts.go:203-206 | clears the statement and values and keeps the last index |
| FindProducts.FindProductBuilder.Result | modules/products/productPatterns/findProducts.go:209-229 | the products read, reset only when they decode |
| FindProducts.FindProductBuilder.Count | modules/products/productPatterns/findProducts.go:232-244 | the count read, or 0 on failure; reset only on success |
| FindProducts.FindProductEngineer.constructor | modules/products/productPatterns/findProducts.go:258-260 | keeps its builder |
| FindProducts.FindProductEngineer.FindProduct | modules/products/productPatterns/findProducts.go:263-271 | open, init, where, sort, paginate, close leave exactly the list statement and its values, with the request sorted as written |
| FindProducts.FindProductEngineer.CountProduct | modules/products/productPatterns/findProducts.go:273-277 | count and where leave exactly the count statement |
| FindProducts.FreshFindStatement | modules/products/productPatterns/findProducts.go:263-271 | on a fresh builder the list statement is the as-written list text and is in step with its values |
| FindProducts.FreshCountStatement | modules/products/productPatterns/findProducts.go:273-277 | on a fresh builder the count statement is in step with its values |
| ImageRows.ImageValuesIndex | modules/products/productPatterns/insertProducts.go:123-128 | image i binds its file name, url and the product id at 3i, 3i+1, 3i+2 |
| ImageRows.ImagesStmtInStep | modules/products/productPatterns/insertProducts.go:113-137 | the images statement is in step with its 3n values |
| ImageRows.BuildImageRows | modules/products/productPatterns/insertProducts.go:113-138 | the loop builds exactly the images statement |
| InsertProducts.ProductStmtInStep | modules/products/productPatterns/insertProducts.go:58-73 | the product insert is in step with title, description and price |
| InsertProducts.LinkStmtInStep | modules/products/productPatterns/insertProducts.go:86-99 | the category link is in step with the product and category ids |
| InsertProducts.InsertSucceedsExactly | modules/products/productPatterns/insertProducts.go:173-196 | an insert succeeds exactly when every step and the commit do, and then returns the new id |
| InsertProducts.InsertWritesInStep | modules/products/productPatterns/insertProducts.go:54-149 | every statement the insert sends is in step |
| InsertProducts.InsertWritesOnSuccess | modules/products/productPatterns/insertProducts.go:173-196 | a successful insert writes the product, its category link and its images, all under the new id |
| InsertProducts.InsertProductsBuilder.constructor | modules/products/productPatterns/insertProducts.go:35-40 | a builder with no transaction |
| InsertProducts.InsertProductsBuilder.InitTransaction | modules/products/productPatterns/insertProducts.go:44-51 | a transaction opens exactly when begin succeeds |
| InsertProducts.InsertProductsBuilder.InsertProduct | modules/products/productPatterns/insertProducts.go:54-78 | sends the product row; on success the new id is written into the request, on failure the transaction rolls back |
| InsertProducts.InsertProductsBuilder.InsertCategory | modules/products/productPatterns/insertProducts.go:82-104 | sends the category link; a refusal rolls back with its message |
| InsertProducts.InsertProductsBuilder.InsertAttachment | modules/products/productPatterns/insertProducts.go:109-149 | sends the images statement; a refusal rolls back with "insert images failed: " |
| InsertProducts.InsertProductsBuilder.Commit | modules/products/productPatterns/insertProducts.go:152-157 | commits, applying the statements; a failure is returned without rollback |
| InsertProducts.InsertProductsBuilder.GetProductId | modules/products/productPatterns/insertProducts.go:160-162 | the request's id |
| InsertProducts.InsertProductsEngineer.constructor | modules/products/productPatterns/insertProducts.go:169-171 | keeps its builder |
| InsertProducts.InsertProductsEngineer.LinkAndAttach | modules/products/productPatterns/insertProducts.go:184-190 | the category link and then the images, stopping at the first refusal |
| InsertProducts.InsertProductsEngineer.InsertProduct | modules/products/productPatterns/insertProducts.go:173-196 | the outcome, the writes that reach the store and the transaction's final state are those of the specification |
| UpdateProducts.PriceWrittenOnlyWhenNegative | modules/products/productPatterns/updateProducts.go:119-128 | a zero or positive price is never written; a negative one always is |
| UpdateProducts.SeparatedJoined | modules/products/productPatterns/updateProducts.go:309-316 | the comma loop produces the fields joined by commas |
| UpdateProducts.JoinedFieldsNumbers | modules/products/productPatterns/updateProducts.go:95-128 | the joined fields number their placeholders consecutively |
| UpdateProducts.UpdateStmtInStep | modules/products/productPatterns/updateProducts.go:78-128 | the update statement is in step: fields $1..$n, the id $n+1 |
| UpdateProducts.CategoryTextInStep | modules/products/productPatterns/updateProducts.go:140-150 | the category update is in step with its two values |
| UpdateProducts.FixedStatementsInStep | modules/products/productPatterns/updateProducts.go:140-245 | the category, old-images read and images delete statements are in step |
| UpdateProducts.UpdateSucceedsExactly | modules/products/productPatterns/updateProducts.go:321-355 | an update succeeds exactly when begin, every needed statement and the commit do; the storage answer plays no part |
| UpdateProducts.UpdateWritesInStep | modules/products/productPatterns/updateProducts.go:321-355 | every statement an update sends is in step |
| UpdateProducts.UpdatedWrites | modules/products/productPatterns/updateProducts.go:321-355 | a successful update writes the row, the category link when set, and with images deletes the old rows and inserts the new |
| UpdateProducts.FieldsAppended | modules/products/productPatterns/updateProducts.go:95-128 | the three appenders append exactly the request's fields, numbered in order |
| UpdateProducts.UpdateProductsBuilder.constructor | modules/products/productPatterns/updateProducts.go:55-64 | an empty builder over the request and storage |
| UpdateProducts.UpdateProductsBuilder.InitTransaction | modules/products/productPatterns/updateProducts.go:68-75 | a transaction opens exactly when begin succeeds |
| UpdateProducts.UpdateProductsBuilder.InitQuery | modules/products/productPatterns/updateProducts.go:78-81 | starts the UPDATE text |
| UpdateProducts.UpdateProductsBuilder.CloseQuery | modules/products/productPatterns/updateProducts.go:84-92 | binds the id last and selects the row by it |
| UpdateProducts.UpdateProductsBuilder.UpdateTitleQuery | modules/products/productPatterns/updateProducts.go:95-104 | appends the title field exactly when it is set |
| UpdateProducts.UpdateProductsBuilder.UpdateDescriptionQuery | modules/products/productPatterns/updateProducts.go:107-116 | appends the description field exactly when it is set |
| UpdateProducts.UpdateProductsBuilder.UpdatePriceQuery | modules/products/productPatterns/updateProducts.go:119-128 | appends the price field exactly when the price is negative |
| UpdateProducts.UpdateProductsBuilder.SetQuery | modules/products/productPatterns/updateProducts.go:277 | replaces the text only |
| UpdateProducts.UpdateProductsBuilder.UpdateProducts | modules/products/productPatterns/updateProducts.go:254-262 | sends the update; a refusal rolls back with "update product failed: " |
| UpdateProducts.UpdateProductsBuilder.UpdateCategoryQuery | modules/products/productPatterns/updateProducts.go:131-156 | sends the category link only for a non-zero category id |
| UpdateProducts.UpdateProductsBuilder.InsertImages | modules/products/productPatterns/updateProducts.go:159-196 | sends the images statement |
| UpdateProducts.UpdateProductsBuilder.GetOldImages | modules/products/productPatterns/updateProducts.go:199-217 | the stored images, or none when the read fails |
| UpdateProducts.UpdateProductsBuilder.DeleteOldImages | modules/products/productPatterns/updateProducts.go:220-251 | asks storage to delete the old files, ignoring its answer, then deletes the rows |
| UpdateProducts.UpdateProductsBuilder.Commit | modules/products/productPatterns/updateProducts.go:283-288 | commits, applying the statements; a failure is returned without rollback |
| UpdateProducts.UpdateProductsEngineer.constructor | modules/products/productPatterns/updateProducts.go:297-299 | keeps its builder |
| UpdateProducts.UpdateProductsEngineer.SumQueryFields | modules/products/productPatterns/updateProducts.go:302-318 | appends the set fields, comma-separated and numbered from $1 |
| UpdateProducts.UpdateProductsEngineer.AppendFields | modules/products/productPatterns/updateProducts.go:303-307 | the three appenders in turn |
| UpdateProducts.UpdateProductsEngineer.JoinFields | modules/products/productPatterns/updateProducts.go:309-316 | the comma loop appends the joined fields |
| UpdateProducts.UpdateProductsEngineer.BuildQuery | modules/products/productPatterns/updateProducts.go:324-326 | on a fresh builder the statement is the update statement |
| UpdateProducts.UpdateProductsEngineer.WriteProduct | modules/products/productPatterns/updateProducts.go:328-336 | the product row, then the category link when one is set |
| UpdateProducts.UpdateProductsEngineer.ReplaceImages | modules/products/productPatterns/updateProducts.go:338-347 | the old images go, then the new ones are inserted |
| UpdateProducts.UpdateProductsEngineer.UpdateProduct | modules/products/productPatterns/updateProducts.go:321-355 | the outcome (including the nil-transaction panic), the writes, the transaction state and the file deletions are those of the specification |
| InsertOrder.OrderStmtInStep | modules/orders/ordersPatterns/insertOrder.go:89-109 | the order insert is in step with its five values |
| InsertOrder.LineValuesIndex | modules/orders/ordersPatterns/insertOrder.go:132-138 | line i binds the order id, its quantity and its product |
| InsertOrder.LinesStmtInStep | modules/orders/ordersPatterns/insertOrder.go:121-147 | the order-lines statement is in step with its 3n values |
| InsertOrder.OrderWritesInStep | modules/orders/ordersPatterns/insertOrder.go:49-64 | the run succeeds exactly when both inserts and the commit do; every statement is in step |
| InsertOrder.InsertOrderBuilder.constructor | modules/orders/ordersPatterns/insertOrder.go:30-35 | a builder with no transaction |
| InsertOrder.InsertOrderBuilder.InitTransaction | modules/orders/ordersPatterns/insertOrder.go:69-76 | a transaction opens exactly when begin succeeds |
| InsertOrder.InsertOrderBuilder.GetOrderId | modules/orders/ordersPatterns/insertOrder.go:79-82 | always "" |
| InsertOrder.InsertOrderBuilder.InsertOrderRow | modules/orders/ordersPatterns/insertOrder.go:85-114 | sends the order row and writes the new id into the request; a failure rolls back |
| InsertOrder.InsertOrderBuilder.InsertProductsOrder | modules/orders/ordersPatterns/insertOrder.go:117-155 | sends one tuple per line; a refusal rolls back |
| InsertOrder.InsertOrderBuilder.Commit | modules/orders/ordersPatterns/insertOrder.go:158-163 | commits; a failure is returned without rollback |
| InsertOrder.InsertOrderEngineer.constructor | modules/orders/ordersPatterns/insertOrder.go:44-46 | keeps its builder |
| InsertOrder.InsertOrderEngineer.InsertOrder | modules/orders/ordersPatterns/insertOrder.go:49-64 | returns "" and the specified error; the store changes only on success |
| InsertUsers.UserStmtInStep | modules/users/usersPatterns/insertUser.go:72-87 | the user insert is in step with email, password and username |
| InsertUsers.InsertUserError | modules/users/usersPatterns/insertUser.go:88-95 | the two unique-key violations, and only they, map to "username has been used" / "email has been used"; anything else is prefixed |
| InsertUsers.ExpectedPassport | modules/users/usersPatterns/insertUser.go:133-161 | a passport exactly when the read decodes: the user read, no token |
| InsertUsers.InsertUserSucceedsExactly | modules/users/usersRepositories/usersRepository.go:44-66 | an insert succeeds exactly when the row is accepted and read back; a duplicate username reports it |
| InsertUsers.UserReq.constructor | modules/users/usersPatterns/insertUser.go:49-65 | the inserter keeps the store, the request and its variant |
| InsertUsers.UserReq.InsertWithRole | modules/users/usersPatterns/insertUser.go:68-131 | inserts with the role, keeping the new id or mapping the error |
| InsertUsers.UserReq.Customer | modules/users/usersPatterns/insertUser.go:68-99 | the insert with role 1 |
| InsertUsers.UserReq.Admin | modules/users/usersPatterns/insertUser.go:101-131 | the insert with role 2 |
| InsertUsers.UserReq.Result | modules/users/usersPatterns/insertUser.go:133-161 | the passport of the new id |
| InsertUsers.NewInsertUser | modules/users/usersPatterns/insertUser.go:40-47 | the admin inserter exactly when asked for one |
| InsertUsers.InsertUser | modules/users/usersRepositories/usersRepository.go:44-66 | the specified result; the users table changes only when the row is accepted |
| UsersHandlers.SignUpStatus | modules/users/usersHandlers/userHandler.go:38-83 | 201 exactly when the body parses, the email matches and the insert succeeds; 500 exactly for other insert errors |
| UsersHandlers.StoreErrorStatus | modules/users/usersHandlers/userHandler.go:60-79 | a store error answers 400 exactly when it is a duplicate username or email |
| UsersHandlers.SignUpCustomer | modules/users/usersHandlers/userHandler.go:38-83 | answers as the specification says |
| OrdersUsecases.FirstErrorNone | modules/orders/odersUsecases/odersUsecase.go:60-67 | no line stops the insert exactly when every line's product is found |
| OrdersUsecases.FirstErrorPrefix | modules/orders/odersUsecases/odersUsecase.go:60-67 | the first stopping line decides |
| OrdersUsecases.ClientTotalAppend | modules/orders/odersUsecases/odersUsecase.go:70 | the total adds up line by line from the client's prices |
| OrdersUsecases.FindOneOrder | modules/orders/odersUsecases/odersUsecase.go:37-43 | the repository's order or its error, unchanged |
| OrdersUsecases.FindOrder | modules/orders/odersUsecases/odersUsecase.go:46-55 | the orders and count as a page whose page count is the ceiling of count/limit |
| OrdersUsecases.UpdateOrder | modules/orders/odersUsecases/odersUsecase.go:88-101 | a failed update ends the call; otherwise the order is read back |
| OrdersUsecases.InsertOrder | modules/orders/odersUsecases/odersUsecase.go:58-85 | fails with the first line's error; otherwise stores the priced order and reads it back |
| OrdersUsecases.PriceLines | modules/orders/odersUsecases/odersUsecase.go:60-72 | the loop returns the first error, or the client total and the stored products |
| Paging.TotalPageIsCeiling | modules/products/productsUsecases/productsUsecase.go:51 | the page count is the least number of pages covering every item |
| Paging.TotalPageExact | modules/products/productsUsecases/productsUsecase.go:51 | k whole pages of items need exactly k pages |
| ProductsUsecases.ProductsPage | modules/products/productsUsecases/productsUsecase.go:43-53 | the page carries the products, page, limit, count and the ceiling page count |
| ProductsUsecases.ProductsUsecase.constructor | modules/products/productsUsecases/productsUsecase.go:26-30 | keeps its repository |
| ProductsUsecases.ProductsUsecase.FindOneProduct | modules/products/productsUsecases/productsUsecase.go:34-40 | the repository's product or error |
| ProductsUsecases.ProductsUsecase.FindProducts | modules/products/productsUsecases/productsUsecase.go:43-53 | the listed products and count as a page |
| ProductsUsecases.ProductsUsecase.AddProducts | modules/products/productsUsecases/productsUsecase.go:56-62 | the inserted product read back; the store changes only on success |
| ProductsUsecases.ProductsUsecase.UpdateProduct | modules/products/productsUsecases/productsUsecase.go:65-71 | the updated product read back; the store changes only on success |
| ProductsUsecases.ProductsUsecase.DeleteProduct | modules/products/productsUsecases/productsUsecase.go:74-79 | the repository's error, unchanged |
| ProductsRepositories.FindOneProduct | modules/products/productsRepositories/productsRepository.go:45-103 | a failed read gives "get Product failed: "; otherwise the decoded product |
| ProductsRepositories.FindOneStmtInStep | modules/products/productsRepositories/productsRepository.go:47-94 | the read binds exactly its one value |
| ProductsRepositories.ReadBack | modules/products/productsRepositories/productsRepository.go:127-132 | the re-read succeeds exactly when FindOneProduct does, with its product or its error |
| ProductsRepositories.InsertReadsBackNewId | modules/products/productsRepositories/productsRepository.go:118-133 | a product is read back only after a whole successful insert, under the new id |
| ProductsRepositories.ProductsRepository.constructor | modules/products/productsRepositories/productsRepository.go:33-39 | keeps the store and the files usecase |
| ProductsRepositories.ProductsRepository.FindProducts | modules/products/productsRepositories/productsRepository.go:107-115 | the listed products and their count |
| ProductsRepositories.ProductsRepository.InsertProducts | modules/products/productsRepositories/productsRepository.go:118-133 | the specified result; the store changes only on success |
| ProductsRepositories.ProductsRepository.UpdateProduct | modules/products/productsRepositories/productsRepository.go:136-150 | the specified result; the store changes only on success; storage receives the specified deletions |
| ProductsRepositories.ProductsRepository.DeleteProduct | modules/products/productsRepositories/productsRepository.go:153-163 | the delete statement reaches the store exactly when accepted |
| ProductsRepositories.CountAfterListInStep | modules/products/productsRepositories/productsRepository.go:111-112 | after a decoded list, the count statement is the plain count and is in step |
| ProductsHandlers.Normalised | modules/products/productsHandlers/productsHandler.go:89-105 | the defaults give page at least 1, limit at least 5 and a sort key and direction; id and search are kept |
| ProductsHandlers.NormalisedKeeps | modules/products/productsHandlers/productsHandler.go:89-105 | the defaults change a filter exactly when it lacks one; set fields are kept; normalising twice is normalising once |
| ProductsHandlers.AddProductsCreated | modules/products/productsHandlers/productsHandler.go:115-150 | 201 exactly when the body parses, names a positive category and the insert succeeds |
| ProductsHandlers.UpdateIgnoresBodyId | modules/products/productsHandlers/productsHandler.go:153-171 | the id in the body plays no part; the trimmed path id is used |
| ProductsHandlers.DeleteSucceedsExactly | modules/products/productsHandlers/productsHandler.go:185-226 | 200 exactly when the lookup, the storage delete and the row delete all succeed |
| ProductsHandlers.ProductsHandler.constructor | modules/products/productsHandlers/productsHandler.go:45-51 | keeps the usecase and the files usecase |
| ProductsHandlers.ProductsHandler.FindOneProduct | modules/products/productsHandlers/productsHandler.go:55-69 | looks the product up by the trimmed path id |
| ProductsHandlers.ProductsHandler.FindProducts | modules/products/productsHandlers/productsHandler.go:72-112 | answers with the page for the normalised filter |
| ProductsHandlers.ProductsHandler.AddProducts | modules/products/productsHandlers/productsHandler.go:115-150 | rejects a missing or non-positive category before anything is inserted |
| ProductsHandlers.ProductsHandler.UpdateProducts | modules/products/productsHandlers/productsHandler.go:153-182 | updates the product named by the path |
| ProductsHandlers.ProductsHandler.DeleteProduct | modules/products/productsHandlers/productsHandler.go:185-226 | looks the product up, deletes its files under "Images/test/", then the row |
| Responses.Response.constructor | modules/entities/response.go:31-35 | nothing set, no error |
| Responses.Response.Success | modules/entities/response.go:38-43 | sets status and data; the error body and flag stay |
| Responses.Response.Error | modules/entities/response.go:45-54 | sets status and error body and raises the flag |
| Responses.Response.Res | modules/entities/response.go:56-63 | sends the error body exactly when the flag is set, otherwise the data |
| Responses.RespondError | modules/entities/response.go:45-63 | a new response with an error sends that error |
| Responses.RespondSuccess | modules/entities/response.go:38-63 | a new response with data sends that data |
| Responses.SuccessAfterError | modules/entities/response.go:38-63 | a success after an error still sends the error body |
| Sql.ReplaceFirstNumbers | modules/products/productPatterns/findProducts.go:147 | numbering removes one hole and adds exactly placeholder n |
| Sql.ReplaceFirstStops | modules/products/productPatterns/findProducts.go:147-150 | numbering stops at the first text that has a hole |
| Sql.ReplaceFirstSkips | modules/products/productPatterns/findProducts.go:150 | numbering skips text without holes |
| Sql.RowTextNumbers | modules/products/productPatterns/insertProducts.go:130-136 | tuple i is ($3i+1, $3i+2, $3i+3) |
| Sql.RowsLayout | modules/products/productPatterns/insertProducts.go:130-136 | tuple i closes with ";" exactly when it is the last |
| Sql.RowsNumbering | modules/products/productPatterns/insertProducts.go:123-138 | k tuples number $1..$3k in order |
| Sql.RowsInStep | modules/products/productPatterns/insertProducts.go:113-143 | a head followed by k tuples is in step with 3k values |
| Sql.NumberedInStep | modules/products/productPatterns/insertProducts.go:58-73 | a fixed statement is in step with its values |
| Storage.ImageDestinations | modules/products/productsHandlers/productsHandler.go:201-206 | one delete request per image |
| Storage.DestinationNames | modules/products/productPatterns/updateProducts.go:227-232 | request i names image i's file under the prefix |
| Storage.DeleteRequests | modules/products/productsHandlers/productsHandler.go:201-206 | the loop builds exactly those requests |
| Storage.FileStorage.constructor | modules/files/filesUsecases/filesUsecase.go:15-19 | no calls made yet |
| Storage.FileStorage.DeleteFiles | modules/products/productsHandlers/productsHandler.go:209 | records the delete call and returns storage's answer |
| Storage.FileStorage.Upload | modules/files/filesHandlers/filesHandler.go:99 | records the upload call and returns storage's answer |
| Transactions.Database.Exec | modules/products/productsRepositories/productsRepository.go:159 | an accepted statement is applied at once; a refused one changes nothing |
| Transactions.Database.Insert | modules/users/usersPatterns/insertUser.go:81-87 | an accepted insert is applied and returns the new id |
| Transactions.Tx.Begin | modules/products/productPatterns/insertProducts.go:45-49 | an open transaction with nothing sent |
| Transactions.Tx.Exec | modules/products/productPatterns/insertProducts.go:94-102 | records the statement; a refusal aborts the transaction |
| Transactions.Tx.Insert | modules/products/productPatterns/insertProducts.go:67-76 | records the statement and returns the store's answer |
| Transactions.Tx.Rollback | modules/products/productPatterns/insertProducts.go:74 | an unfinished transaction is rolled back |
| Transactions.Tx.Commit | modules/products/productPatterns/insertProducts.go:152-157 | on success every statement reaches the store in order; otherwise none does |

## Left out

- SQL semantics are not modelled: what the store holds is a journal of the statements each
  table received. What the store answers (done, refused, rows read) is an input.
- JSON encoding and decoding (`json.Unmarshal`, fiber's `BodyParser`) are inputs. So is the
  HTTP context, apart from the status and body sent.
- The logger and `PrintQuery` (debug output) are left out.
- Signing and verifying HMAC-SHA256 tokens belong to the JWT library; they are inputs.
- Whether a token's signing method is HMAC is an input.
- The current time is an input, in nanoseconds.
- Auth.ParseClassification: the "claims type is invalid" branch is left out. The library's
  claims are modelled as always having the expected type.
- Reading the environment file (godotenv) is left out. Loading starts from its key/value map.
  The `log.Fatalf` exit becomes the failure message.
- Random file names are an input (the `Namer` function). The e-mail regular expression is an
  input predicate.
- Text.ToUpper and Text.ToLower handle ASCII letters only; Unicode case mapping is left out.
- Prices are `real`; float64 rounding is not modelled.
- OrdersUsecases.FindOrder requires limit > 0. For limit 0 the source divides floats by zero;
  that case is left out.
- ProductsUsecases.ProductsPage and ProductsUsecases.ProductsUsecase.FindProducts require
  limit > 0 for the same reason. The products handler raises the limit to at least 5 first.
- Converters.BinaryConverter requires number < 2^bits. For larger numbers Go indexes out of
  range.
- Auth.DateAfterAdds and Auth.TokenClaims require |seconds| <= 9223372036. Beyond that the
  duration wraps around, which Configs.Wrap64 and Configs.DurationWraps model.
- The orders repository has no methods. Its answers are inputs of the orders usecase.
- The files usecase interface (`UploadToGCP`, `DeleteFileGCP`) is modelled as a recorder of
  calls. Its answers are inputs; cloud storage itself is left out.
- Context timeouts and cancellation are left out.
- Concurrency is left out.
- Some Go functions are split into helper methods of the same classes:
  - UpdateProduct: WriteProduct, ReplaceImages.
  - sumQueryFields: AppendFields, JoinFields.
  - The engineer's query steps: BuildQuery.
  - InsertProduct: LinkAndAttach.
  - The order usecase loop: PriceLines.
  - The file checks: CheckFiles.
  - The delete-request loop: DeleteRequests.
  - Customer and Admin: InsertWithRole.
- The builders' trivial getters (`getQueryFields`, `getValues`, `getQuery`, `getImagesLen`)
  have no members of their own. Their values are read from the fields.

## Findings

| source | as written | input that shows it | evidently intended | confidence | as-written member | corrected member |
|---|---|---|---|---|---|---|
| modules/products/productPatterns/findProducts.go:184 | a known direction is replaced by the direction map's entry for the upper-cased column that `OrderBy` was just set to, instead of the entry for the requested `Sort` | OrderBy "price", Sort "DESC": the statement orders by price with direction "" (ascending) | look up the upper-cased `Sort` in the direction map, "ASC" when unknown | high, not executed | FindProducts.DirectionOfColumn | FindProducts.CorrectedDirection |

The builder keeps the code as written, so the statements it produces carry the as-written
direction. `CorrectedDirection` states the intended lookup and is not used by the builder.

