/** The group (tenant) context that request headers provide. */
module UserContext {
  import opened Wrappers

  /** The fields of the group context that the modelled code reads. */
  datatype GroupContext = GroupContext(
    primaryGroupId: Option<string>,
    groupEmail: Option<string>,
    groupIds: seq<string>)
}
