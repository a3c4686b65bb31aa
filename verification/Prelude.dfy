// Values shared by the models of la-memoria: optional values and the keys of screenshot files.
module Prelude {

  datatype Option<+T> = None | Some(value: T)

  // The three directories under the screenshot root. A storage key is a directory
  // and a UUID; UUIDs are modelled as numbers that are never handed out twice.
  datatype Area = Staging | Promoted | Quarantine

  datatype Key = Key(area: Area, id: nat)

  // Time is counted in microseconds, the resolution of the database.
  const MINUTE: nat := 60_000_000
}
