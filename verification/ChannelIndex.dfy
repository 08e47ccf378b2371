// The index_ of a channel as EPollPoller uses it.
module ChannelIndex {
  datatype Index = New | Added | Deleted

  const K_NEW: int := -1
  const K_ADDED: int := 1
  const K_DELETED: int := 2
}
