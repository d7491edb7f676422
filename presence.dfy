/**
 * Presence data: the shapes of src/types/index.ts and the awareness object
 * that the peer transport exposes (`clientID`, `getStates()`,
 * `setLocalStateField`, `on`/`off('change')`).
 */
module Presence {
  import opened Wrappers

  /** A participant's identity, published under the awareness field `user`. */
  datatype User = User(id: int, name: string, color: string)

  /** A pointer position relative to the editor's top-left corner. */
  datatype Cursor = Cursor(x: real, y: real)

  /** One client's awareness state; only the two fields this program reads or writes. */
  datatype State = State(user: Option<User>, cursor: Option<Cursor>)

  const EmptyState := State(None, None)

  /** A field written with `setLocalStateField(key, value)`. */
  datatype Field = UserField(u: User) | CursorField(c: Cursor)

  function WithField(st: State, f: Field): (r: State)
    ensures f.UserField? ==> r.user == Some(f.u) && r.cursor == st.cursor
    ensures f.CursorField? ==> r.cursor == Some(f.c) && r.user == st.user
  {
    match f
    case UserField(u) => st.(user := Some(u))
    case CursorField(c) => st.(cursor := Some(c))
  }

  /** `s` with every occurrence of `k` removed, the rest kept in order. */
  function Without(s: seq<int>, k: int): seq<int>
  {
    if s == [] then []
    else (if s[0] == k then [] else [s[0]]) + Without(s[1..], k)
  }

  ghost predicate Distinct(s: seq<int>)
  {
    forall i, j :: 0 <= i < j < |s| ==> s[i] != s[j]
  }

  lemma {:induction false} WithoutMembers(s: seq<int>, k: int)
    ensures forall x :: x in Without(s, k) <==> x in s && x != k
  {
    if s != [] {
      WithoutMembers(s[1..], k);
      assert s == [s[0]] + s[1..];
    }
  }

  lemma {:induction false} WithoutDistinct(s: seq<int>, k: int)
    requires Distinct(s)
    ensures Distinct(Without(s, k))
  {
    if s != [] {
      WithoutDistinct(s[1..], k);
      WithoutMembers(s[1..], k);
      var rest := Without(s[1..], k);
      if s[0] != k {
        assert s[0] !in s[1..];
        var r := [s[0]] + rest;
        forall i, j | 0 <= i < j < |r| ensures r[i] != r[j] {
          if i == 0 {
            assert r[j] in rest;
          } else {
            assert r[i] == rest[i - 1] && r[j] == rest[j - 1];
          }
        }
      }
    }
  }

  /**
   * The `Map<number, state>` returned by `getStates()`: keyed by client id
   * and iterated in insertion order. Setting an existing key keeps its
   * position; a new key goes to the end.
   */
  datatype StateMap = StateMap(order: seq<int>, entries: map<int, State>)
  {
    ghost predicate Valid()
    {
      Distinct(order) && forall k :: k in entries <==> k in order
    }

    /** `Array.from(map.values())`. */
    function Values(): (vs: seq<State>)
      requires Valid()
      ensures |vs| == |order|
    {
      assert forall k :: k in order ==> k in entries;
      seq(|order|, i requires 0 <= i < |order| && order[i] in entries => entries[order[i]])
    }

    /** `map.set(k, st)`. */
    function Set(k: int, st: State): (r: StateMap)
      requires Valid()
      ensures r.Valid()
      ensures r.entries.Keys == entries.Keys + {k} && r.entries[k] == st
      ensures forall j :: j in entries && j != k ==> r.entries[j] == entries[j]
      ensures |order| <= |r.order| && r.order[..|order|] == order
    {
      if k in entries then StateMap(order, entries[k := st])
      else StateMap(order + [k], entries[k := st])
    }

    /** `map.delete(k)`. */
    function Delete(k: int): (r: StateMap)
      requires Valid()
      ensures r.Valid()
      ensures r.entries.Keys == entries.Keys - {k}
      ensures forall j :: j in r.entries ==> r.entries[j] == entries[j]
      ensures order != [] && order[0] != k ==> r.order != [] && r.order[0] == order[0]
    {
      WithoutMembers(order, k);
      WithoutDistinct(order, k);
      StateMap(Without(order, k), entries - {k})
    }
  }

  const NoStates := StateMap([], map[])

  /** What `setLocalStateField(f)` does to the states of client `self`. */
  function Publish(s: StateMap, self: int, f: Field): (r: StateMap)
    requires s.Valid() && self in s.entries
    ensures r.Valid() && r.order == s.order
    ensures r.entries.Keys == s.entries.Keys
    ensures forall k :: k in s.entries && k != self ==> r.entries[k] == s.entries[k]
    ensures f.UserField? ==> r.entries[self] == State(Some(f.u), s.entries[self].cursor)
    ensures f.CursorField? ==> r.entries[self] == State(s.entries[self].user, Some(f.c))
  {
    s.Set(self, WithField(s.entries[self], f))
  }

  /** The listeners this program registers for the awareness `change` event. */
  datatype Listener =
    | UsersListener    // `updateUsers` of src/lib/awareness.ts: mirrors getStates() into the hook's users view
    | CursorsListener  // `handleAwarenessChange` of src/components/Editor.tsx: rebuilds the remote cursor map

  /**
   * The transport's awareness object. It is created holding an empty local
   * state, so the local client is the first key of `getStates()`; remote
   * peers are added after it and the local entry is never removed here.
   */
  class Awareness {
    const clientID: int
    var states: StateMap
    var listeners: set<Listener>

    ghost predicate Valid()
      reads this
    {
      states.Valid() && states.order != [] && states.order[0] == clientID
    }

    constructor (clientID: int)
      ensures Valid() && this.clientID == clientID
      ensures states == StateMap([clientID], map[clientID := EmptyState])
      ensures listeners == {}
    {
      this.clientID := clientID;
      states := StateMap([clientID], map[clientID := EmptyState]);
      listeners := {};
    }

    /** `getStates()`: every known client's state, the local one included. */
    function GetStates(): (s: StateMap)
      reads this
      requires Valid()
      ensures s.Valid() && clientID in s.entries
    {
      states
    }

    method SetLocalStateField(f: Field)
      requires Valid()
      modifies this`states
      ensures Valid()
      ensures states == Publish(old(states), clientID, f)
    {
      states := Publish(states, clientID, f);
    }

    method On(l: Listener)
      modifies this`listeners
      ensures listeners == old(listeners) + {l}
    {
      listeners := listeners + {l};
    }

    method Off(l: Listener)
      modifies this`listeners
      ensures listeners == old(listeners) - {l}
    {
      listeners := listeners - {l};
    }

    /** A remote peer publishes (or re-publishes) its state. */
    method ReceiveRemoteState(id: int, st: State)
      requires Valid() && id != clientID
      modifies this`states
      ensures Valid() && states == old(states).Set(id, st)
    {
      states := states.Set(id, st);
    }

    /** A remote peer departs (its state is removed). */
    method RemoveRemoteClient(id: int)
      requires Valid() && id != clientID
      modifies this`states
      ensures Valid() && states == old(states).Delete(id)
    {
      states := states.Delete(id);
    }
  }
}
