/**
 * encoding/json, left abstract: the core only ever marshals and unmarshals
 * `domain.User`, and either direction may fail.  The round trip belongs to the
 * library, so nothing is assumed about how the two relate.
 */
module Json {

  import opened Domain
  import opened Failures

  datatype Codec = Codec(marshal: User -> Result<Bytes>, unmarshal: Bytes -> Result<User>)
}
