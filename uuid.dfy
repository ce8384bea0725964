/** UUIDs, identified by their canonical `uuidString` (upper-case hexadecimal, 8-4-4-4-12). */
module Uuids {
  import opened Text

  datatype Uuid = Uuid(uuidString: String)
}
