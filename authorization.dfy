/**
  `carregar_autorizados`: the list of authorised cards, read afresh from a
  JSON file on every notification. The file access is not modelled; what
  reaches the loader is the outcome of trying to read and decode the file.
 */
module Authorization {

  /** The outcome of opening and decoding the authorisation file: its card to
      owner entries, or one of the three failures the loader catches. */
  datatype FileRead =
    | Decoded(entries: map<string, string>)
    | NotFound
    | InvalidJson
    | OtherError

  /** The authorisation map: the decoded entries, or no entries at all when
      the file could not be read. The loader never fails. */
  function Load(read: FileRead): (authorized: map<string, string>)
    ensures read.Decoded? ==> authorized == read.entries
    ensures !read.Decoded? ==> authorized == map[]
  {
    match read
    case Decoded(entries) => entries
    case _ => map[]
  }
}
