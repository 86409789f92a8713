/** A response body: its raw bytes (`resp.content`) and the JSON values it
    decodes to (what `resp.json()` yields). */
module JsonValues {

  /** One byte of a raw response body. */
  newtype byte = x: int | 0 <= x < 256

  /** A decoded JSON document. Objects are string-keyed maps: when a key
      repeats in the text, the decoder keeps the last occurrence. Numbers
      are kept as reals; the model never depends on their float encoding. */
  datatype Json =
    | JNull
    | JBool(b: bool)
    | JNum(n: real)
    | JStr(s: string)
    | JArr(items: seq<Json>)
    | JObj(fields: Fields)

  /** The members of a JSON object, or the keyword arguments `**kwargs`
      handed to a model constructor. */
  type Fields = map<string, Json>
}
