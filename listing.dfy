/**
 * The artwork listing records that flow between the screens: what the
 * posting form writes to the `products` collection, and what the gallery
 * reads back (the document id merged with the stored fields, any of which
 * may be missing).
 */
module Listing {
  import opened Wrappers

  /** An entry of a stored `imageUris` array: a string or some other JSON value. */
  datatype JsValue = JsString(s: string) | NotString

  /** A listing as the gallery sees it: `{ id: doc.id, ...doc.data() }`. */
  datatype Product = Product(
    id: string,
    description: Option<string>,
    category: Option<string>,
    imageUris: Option<seq<JsValue>>,
    userId: Option<string>,
    artistName: Option<string>)

  /** The record the posting form writes (every field present). */
  datatype ProductRecord = ProductRecord(
    description: string,
    category: string,
    imageUris: seq<string>,
    userId: string,
    artistName: string)

  /** The listing read back for a record stored under document id `id`. */
  function FromRecord(id: string, rec: ProductRecord): Product
  {
    Product(id, Some(rec.description), Some(rec.category),
            Some(seq(|rec.imageUris|, i requires 0 <= i < |rec.imageUris| => JsString(rec.imageUris[i]))),
            Some(rec.userId), Some(rec.artistName))
  }
}
