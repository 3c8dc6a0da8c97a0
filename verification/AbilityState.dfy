/** The lifecycle states of abilities and ability slices. */
module AbilityStates {
  datatype AbilityState = STATE_UNINITIALIZED | STATE_INITIAL | STATE_INACTIVE | STATE_ACTIVE | STATE_BACKGROUND

  // The value of the C enumerator.
  function Code(s: AbilityState): int {
    match s
    case STATE_UNINITIALIZED => 0
    case STATE_INITIAL => 1
    case STATE_INACTIVE => 2
    case STATE_ACTIVE => 3
    case STATE_BACKGROUND => 4
  }

  // The ways a lifecycle may go from one callback to the next.
  predicate Edge(from: AbilityState, to: AbilityState) {
    (from, to) in {
      (STATE_UNINITIALIZED, STATE_INITIAL), (STATE_INITIAL, STATE_INACTIVE), (STATE_INACTIVE, STATE_ACTIVE),
      (STATE_ACTIVE, STATE_INACTIVE), (STATE_INACTIVE, STATE_BACKGROUND), (STATE_BACKGROUND, STATE_ACTIVE),
      (STATE_BACKGROUND, STATE_INITIAL)}
  }
}
