/** Values that may be missing: unread sensors, absent settings, unset timers. */
module Options {
  datatype Option<+T> = None | Some(value: T)
}
