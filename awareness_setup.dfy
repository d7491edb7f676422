/** `setupAwareness` (src/lib/awareness.ts): publish the local user and mirror the awareness states. */
module AwarenessSetup {
  import opened Wrappers
  import opened Presence
  import Palette

  /** The `user` field published for the local client. */
  function LocalUser(awareness: Awareness, username: string, colorRandom: real): (u: User)
    requires 0.0 <= colorRandom < 1.0
    ensures u.id == awareness.clientID && u.name == username && u.color in Palette.Colors
  {
    User(awareness.clientID, username, Palette.GetRandomColor(colorRandom))
  }

  /** `updateUsers`: the users view is a copy of `getStates()`. */
  function UpdateUsers(awareness: Awareness): (users: StateMap)
    reads awareness
    requires awareness.Valid()
    ensures users.Valid() && users.order == awareness.states.order
    ensures forall k :: k in users.entries <==> k in awareness.states.entries
    ensures forall k :: k in users.entries ==> users.entries[k] == awareness.states.entries[k]
  {
    StateMap(awareness.GetStates().order, awareness.GetStates().entries)
  }

  /**
   * Publishes the local user, subscribes `updateUsers` to `change` and runs
   * it once; `users` is the map handed to `setUsers` by that first run.
   * The publish happens while `updateUsers` is not yet subscribed.
   */
  method SetupAwareness(awareness: Awareness, username: string, colorRandom: real) returns (users: StateMap)
    requires awareness.Valid() && 0.0 <= colorRandom < 1.0
    modifies awareness
    ensures awareness.Valid()
    ensures awareness.states == Publish(old(awareness.states), awareness.clientID,
                                        UserField(LocalUser(awareness, username, colorRandom)))
    ensures awareness.listeners == old(awareness.listeners) + {UsersListener}
    ensures users == awareness.states
    ensures users.entries[awareness.clientID].user == Some(LocalUser(awareness, username, colorRandom))
  {
    awareness.SetLocalStateField(UserField(LocalUser(awareness, username, colorRandom)));
    awareness.On(UsersListener);
    users := UpdateUsers(awareness);
  }

  /** The cleanup returned by `setupAwareness`: unsubscribes `updateUsers`. */
  method CleanupAwareness(awareness: Awareness)
    modifies awareness`listeners
    ensures awareness.listeners == old(awareness.listeners) - {UsersListener}
  {
    awareness.Off(UsersListener);
  }

  /**
   * Publishing the local user into a state map changes only the local
   * entry's `user` field: every other client's state, the key order and the
   * local cursor are kept.
   */
  lemma PublishUserTouchesOnlyLocal(s: StateMap, self: int, u: User)
    requires s.Valid() && self in s.entries
    ensures var r := Publish(s, self, UserField(u));
      r.order == s.order && r.entries.Keys == s.entries.Keys &&
      r.entries[self].user == Some(u) && r.entries[self].cursor == s.entries[self].cursor &&
      forall k :: k in s.entries && k != self ==> r.entries[k] == s.entries[k]
  {
  }
}
