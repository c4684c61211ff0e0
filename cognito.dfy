/**
  * The user-directory service, as the router calls it. Each call either answers or
  * fails (user not found, service error); the answer is a parameter of the model.
  */
module Cognito {
  import opened Results

  /** One `{Name, Value}` entry of a user's attribute list. */
  datatype Attribute = Attribute(name: string, value: string)

  /** A user as the directory returns it: its `Username` and its attribute list. */
  datatype DirectoryUser = DirectoryUser(username: string, attributes: seq<Attribute>)

  /** One entry of a user's group list. */
  datatype Group = Group(groupName: string)

  /**
    * The three directory calls the router makes: `admin_get_user`,
    * `admin_list_groups_for_user` and `list_users_in_group`, each `None` when the
    * call raises.
    */
  datatype Directory = Directory(
    adminGetUser: string -> Option<DirectoryUser>,
    adminListGroupsForUser: string -> Option<seq<Group>>,
    listUsersInGroup: string -> Option<seq<DirectoryUser>>)
}
