/** The response models of the people router. */
module Schemas {

  /** A directory user as listed to callers: its username and display name. */
  datatype UserBasic = UserBasic(id: string, name: string)

  /** A full user record, as returned by the internal user endpoint. */
  datatype User = User(id: string, name: string, email: string, groups: seq<string>)
}
