/**
 * The runtime services the program calls but does not define. Each is a total
 * function supplied by the caller; a service that can throw returns `None` for
 * the throw.
 */
module Foreign {
  import opened Wrappers
  import opened JsValue

  type Byte = bv8

  datatype Host = Host(
    /** `JSON.parse`; `None` when it throws. */
    jsonParse: string -> Option<Value>,
    /** `JSON.stringify`. */
    jsonStringify: Value -> string,
    /** `atob`; `None` when the text is not base64. */
    atob: string -> Option<string>,
    /** The `%xx` re-encoding followed by `decodeURIComponent` that turns a binary string into UTF-16; `None` when it throws. */
    utf8Decode: string -> Option<string>,
    /** `encodeURIComponent`. */
    encodeUriComponent: string -> string,
    /** `new TextDecoder().decode(bytes)`, called without `{stream: true}`. */
    textDecode: seq<Byte> -> string)
}
