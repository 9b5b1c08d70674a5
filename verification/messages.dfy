/**
  The `Message` record of Sources/Logger/Message.swift: the joined text, the
  moment the call was made, and the call's level. A Dafny datatype value is
  immutable, as the record's `let` fields are.
 */
module Messages {
  import opened Levels

  /**
    Foundation's `Date`, an instant the model never interprets: it is compared
    only for equality and rendered only by a formatter's rendering function.
   */
  datatype Date = Date(instant: int)

  datatype Message = Message(value: string, sentAt: Date, level: Level)

  /**
    The internal initialiser `Message(_:_:_:)` stores its three arguments, and
    nothing else: every message is the one built from its own fields.
   */
  lemma InitialiserStoresArguments(value: string, sentAt: Date, level: Level, m: Message)
    ensures Message(value, sentAt, level).value == value
    ensures Message(value, sentAt, level).sentAt == sentAt
    ensures Message(value, sentAt, level).level == level
    ensures Message(m.value, m.sentAt, m.level) == m
  {
  }
}
