/**
  The dynamic values Go code passes around as `interface{}` payloads.

  Only the three cases the server distinguishes are modelled: a `string`, a
  `[]byte`, and any other value. A value of any other type is represented by
  what `encoding/json.Marshal` produces for it, None when Marshal fails (a
  channel or a function, for instance). `encoding/json` itself is not part of
  this model.
 */
module GoData {
  import opened Wrappers
  import opened Text

  datatype GoValue =
    | GoString(s: Bytes)
    | GoBytes(b: Bytes)
    | GoOther(marshalled: Option<Bytes>)

  /** The nil interface value, which `encoding/json` marshals as `null`. */
  const Nil: GoValue := GoOther(Some(Latin("null")))
}
