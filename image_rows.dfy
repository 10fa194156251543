/** The multi-row INSERT into "images" that both the product insert and the product update
    builders issue: one tuple (filename, url, product_id) per image. */
module ImageRows {
  import opened Models
  import opened Sql

  const ImagesHead: Query := [Text("INSERT INTO \"images\" (\"filename\", \"url\", \"product_id\") VALUES")]

  /** The values bound for `images` of product `productId`: three per image, in order. */
  function ImageValues(images: seq<Image>, productId: string): (r: seq<Value>)
    ensures |r| == 3 * |images|
  {
    if images == [] then []
    else
      var last := images[|images| - 1];
      ImageValues(images[..|images| - 1], productId) + [VText(last.fileName), VText(last.url), VText(productId)]
  }

  /** Image i's tuple binds its file name, its url and the product id, in that order. */
  lemma {:induction false} ImageValuesIndex(images: seq<Image>, productId: string)
    ensures forall i :: 0 <= i < |images| ==>
      ImageValues(images, productId)[3 * i] == VText(images[i].fileName) &&
      ImageValues(images, productId)[3 * i + 1] == VText(images[i].url) &&
      ImageValues(images, productId)[3 * i + 2] == VText(productId)
  {
    if images != [] {
      var init := images[..|images| - 1];
      ImageValuesIndex(init, productId);
      assert forall i :: 0 <= i < |init| ==> init[i] == images[i];
    }
  }

  /** The statement the images step sends. */
  function ImagesStmt(images: seq<Image>, productId: string): Stmt {
    Stmt(ImagesHead + Rows(|images|, |images|), ImageValues(images, productId))
  }

  /** The statement's placeholders are exactly $1..$3n for its 3n values; image i's tuple is
      ($3i+1, $3i+2, $3i+3). */
  lemma ImagesStmtInStep(images: seq<Image>, productId: string)
    ensures InStep(ImagesStmt(images, productId).text, |ImagesStmt(images, productId).args|)
  {
    Cons(ImagesHead[0], [], 0);
    RowsInStep(ImagesHead, |images|);
  }

  /** The loop both builders run: one tuple of placeholders and three values per image, the last
      tuple closed by ";" and the others by ",". */
  method BuildImageRows(images: seq<Image>, productId: string) returns (stmt: Stmt)
    ensures stmt == ImagesStmt(images, productId)
    ensures InStep(stmt.text, |stmt.args|)
  {
    var query := ImagesHead;
    var valueStack: seq<Value> := [];
    var index := 0;
    var n := |images|;
    for i := 0 to n
      invariant query == ImagesHead + Rows(i, n)
      invariant valueStack == ImageValues(images[..i], productId)
      invariant index == 3 * i
    {
      assert images[..i + 1][..i] == images[..i];
      valueStack := valueStack + [VText(images[i].fileName), VText(images[i].url), VText(productId)];
      if i != n - 1 {
        query := query + RowText(i, false);
      } else {
        query := query + RowText(i, true);
      }
      index := index + 3;
    }
    assert images[..n] == images;
    stmt := Stmt(query, valueStack);
    ImagesStmtInStep(images, productId);
  }
}
