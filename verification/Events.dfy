/** The kinds of work the queue carries. */
module Events {
  datatype EventType = Observe | Create | Update | Delete
}
