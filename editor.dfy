/**
 * The Editor component (src/components/Editor.tsx): the collaborator list,
 * the remote cursor map, the local cursor publish and the guard of the
 * document binding step.
 */
module EditorView {
  import opened Wrappers
  import opened Presence
  import YjsHook

  /**
   * `Array.from(users.values()).map(s => s.user).filter(u => u.id !== currentId)`.
   * The filter reads `user.id`, so a state without `user` throws (`None`).
   */
  function CollaboratorsOf(states: seq<State>, currentId: int): (r: Option<seq<User>>)
    ensures r.Some? ==> |r.value| <= |states|
    ensures r.Some? ==> forall j :: 0 <= j < |r.value| ==> r.value[j].id != currentId
    decreases |states|
  {
    if states == [] then Some([])
    else match states[0].user
      case None => None
      case Some(u) =>
        match CollaboratorsOf(states[1..], currentId)
        case None => None
        case Some(rest) => Some(if u.id != currentId then [u] + rest else rest)
  }

  /** The derivation throws exactly when some state has no `user` field. */
  lemma {:induction false} CollaboratorsThrowIff(states: seq<State>, currentId: int)
    ensures CollaboratorsOf(states, currentId).None? <==> exists i :: 0 <= i < |states| && states[i].user.None?
    decreases |states|
  {
    if states != [] {
      CollaboratorsThrowIff(states[1..], currentId);
      if states[0].user.Some? && exists i :: 0 <= i < |states| && states[i].user.None? {
        var i :| 0 <= i < |states| && states[i].user.None?;
        assert states[1..][i - 1] == states[i];
      }
      if exists i :: 0 <= i < |states[1..]| && states[1..][i].user.None? {
        var i :| 0 <= i < |states[1..]| && states[1..][i].user.None?;
        assert states[i + 1] == states[1..][i];
      }
    }
  }

  /** When it succeeds, the list holds exactly the users, other than the current one, of the states. */
  lemma {:induction false} CollaboratorsMembers(states: seq<State>, currentId: int)
    requires CollaboratorsOf(states, currentId).Some?
    ensures forall u :: u in CollaboratorsOf(states, currentId).value <==>
      exists i :: 0 <= i < |states| && states[i].user == Some(u) && u.id != currentId
    decreases |states|
  {
    if states != [] {
      CollaboratorsMembers(states[1..], currentId);
      var cs := CollaboratorsOf(states, currentId).value;
      var rest := CollaboratorsOf(states[1..], currentId).value;
      forall u | u in cs
        ensures exists i :: 0 <= i < |states| && states[i].user == Some(u) && u.id != currentId
      {
        if u !in rest {
          assert states[0].user == Some(u) && u.id != currentId;
        } else {
          var i :| 0 <= i < |states[1..]| && states[1..][i].user == Some(u) && u.id != currentId;
          assert states[i + 1] == states[1..][i];
        }
      }
      forall u | exists i :: 0 <= i < |states| && states[i].user == Some(u) && u.id != currentId
        ensures u in cs
      {
        var i :| 0 <= i < |states| && states[i].user == Some(u) && u.id != currentId;
        if i > 0 {
          assert states[1..][i - 1] == states[i];
        }
      }
    }
  }


  /**
   * Two participants, one of which has published no `user`: the awareness
   * map holds both, and the collaborator derivation throws rather than
   * leaving the incomplete one out.
   */
  lemma IncompletePeerBreaksCollaborators(local: User)
    ensures var states := NoStates.Set(local.id, State(Some(local), None)).Set(local.id + 1, EmptyState);
      |states.entries| == 2 && CollaboratorsOf(states.Values(), local.id) == None
  {
    var states := NoStates.Set(local.id, State(Some(local), None)).Set(local.id + 1, EmptyState);
    assert states.entries.Keys == {local.id, local.id + 1};
    CollaboratorsThrowIff(states.Values(), local.id);
    assert states.order == [local.id, local.id + 1];
    assert states.Values()[1].user.None?;
  }

  /** The remote cursor map: every other client that has a `cursor`, with that cursor. */
  function CursorsOf(states: StateMap, self: int): (m: map<int, Cursor>)
    requires states.Valid()
    ensures self !in m && m.Keys <= states.entries.Keys
    ensures forall k :: k in m ==> states.entries[k].cursor == Some(m[k])
  {
    map k | k in states.entries && k != self && states.entries[k].cursor.Some? :: states.entries[k].cursor.value
  }

  /**
   * `handleAwarenessChange`: walks `getStates()` in order and fills an
   * empty `positions` record with the cursor of every other client that
   * has one.
   */
  method BuildCursorPositions(states: StateMap, self: int) returns (positions: map<int, Cursor>)
    requires states.Valid()
    ensures positions == CursorsOf(states, self)
  {
    positions := map[];
    var i := 0;
    while i < |states.order|
      invariant 0 <= i <= |states.order|
      invariant forall k :: k in positions ==>
        k in states.order[..i] && k in states.entries && k != self &&
        states.entries[k].cursor == Some(positions[k])
      invariant forall j :: 0 <= j < i && states.order[j] != self && states.entries[states.order[j]].cursor.Some? ==>
        states.order[j] in positions
    {
      var clientId := states.order[i];
      assert clientId in states.order;
      var state := states.entries[clientId];
      if clientId != self && state.cursor.Some? {
        positions := positions[clientId := state.cursor.value];
      }
      i := i + 1;
    }
    assert states.order[..i] == states.order;
    var expected := CursorsOf(states, self);
    forall k | k in expected ensures k in positions && positions[k] == expected[k] {
      assert k in states.order;
    }
    forall k | k in positions ensures k in expected {
      assert states.entries[k].cursor.Some?;
    }
  }

  /** A client's cursor is seen by every other client exactly as published. */
  lemma PublishedCursorSeenByOthers(states: StateMap, publisher: int, observer: int, c: Cursor)
    requires states.Valid() && publisher in states.entries && observer != publisher
    ensures var seen := CursorsOf(Publish(states, publisher, CursorField(c)), observer);
      publisher in seen && seen[publisher] == c
  {
  }

  /** A departed client has no entry, whatever it published before. */
  lemma DepartedClientHasNoCursor(states: StateMap, departed: int, self: int)
    requires states.Valid()
    ensures departed !in CursorsOf(states.Delete(departed), self)
    ensures self !in CursorsOf(states, self)
  {
  }

  /** The local cursor: the pointer position minus the editor's top-left corner. */
  function PointerOffset(clientX: real, clientY: real, top: real, left: real): (c: Cursor)
    ensures c.x + left == clientX && c.y + top == clientY
  {
    Cursor(clientX - left, clientY - top)
  }

  /** Moving the pointer and the editor by the same amount publishes the same cursor. */
  lemma PointerOffsetIsRelative(clientX: real, clientY: real, top: real, left: real, dx: real, dy: real)
    ensures PointerOffset(clientX + dx, clientY + dy, top + dy, left + dx) == PointerOffset(clientX, clientY, top, left)
  {
  }

  /** What the binding effect does. */
  datatype Binding = Skipped | Bound(loadsExistingContent: bool)

  /** The binding effect's guard; `isSynced` is `None` when the prop is not passed. */
  function BindingStep(editorReady: bool, providerPresent: bool, isSynced: Option<bool>, fragmentHasFirstChild: bool): (b: Binding)
    ensures b.Bound? <==> editorReady && providerPresent && isSynced == Some(true)
    ensures b.Bound? ==> (b.loadsExistingContent <==> fragmentHasFirstChild)
  {
    if !editorReady || !providerPresent || isSynced != Some(true) then Skipped
    else Bound(fragmentHasFirstChild)
  }

  /** The cursors drawn over the editor: one per collaborator that has a position. */
  function DrawnCursors(collaborators: seq<User>, positions: map<int, Cursor>): (d: seq<(User, Cursor)>)
    ensures |d| <= |collaborators|
    ensures forall j :: 0 <= j < |d| ==> d[j].0.id in positions && positions[d[j].0.id] == d[j].1
    decreases |collaborators|
  {
    if collaborators == [] then []
    else
      var u := collaborators[0];
      (if u.id in positions then [(u, positions[u.id])] else []) + DrawnCursors(collaborators[1..], positions)
  }

  /** A collaborator is drawn iff it has a position, and then at that position; no one else is drawn. */
  lemma {:induction false} DrawnCursorsIff(collaborators: seq<User>, positions: map<int, Cursor>)
    ensures forall u, c :: (u, c) in DrawnCursors(collaborators, positions) <==>
      u in collaborators && u.id in positions && positions[u.id] == c
    decreases |collaborators|
  {
    if collaborators != [] {
      DrawnCursorsIff(collaborators[1..], positions);
      assert collaborators == [collaborators[0]] + collaborators[1..];
    }
  }

  class Editor {
    const provider: YjsHook.Provider?
    const currentUser: User
    /** Whether `useEditor` has returned an editor. */
    const editorReady: bool
    const isSynced: Option<bool>
    var collaborators: seq<User>
    var cursorPositions: map<int, Cursor>

    constructor (provider: YjsHook.Provider?, currentUser: User, editorReady: bool, isSynced: Option<bool>)
      ensures this.provider == provider && this.currentUser == currentUser
      ensures this.editorReady == editorReady && this.isSynced == isSynced
      ensures collaborators == [] && cursorPositions == map[]
    {
      this.provider := provider;
      this.currentUser := currentUser;
      this.editorReady := editorReady;
      this.isSynced := isSynced;
      collaborators := [];
      cursorPositions := map[];
    }

    /** The collaborators effect; `threw` when the derivation throws, leaving the list as it was. */
    method SyncCollaborators(users: StateMap) returns (threw: bool)
      requires users.Valid()
      modifies this`collaborators
      ensures threw <==> CollaboratorsOf(users.Values(), currentUser.id).None?
      ensures threw <==> exists k :: k in users.entries && users.entries[k].user.None?
      ensures !threw ==> forall u :: u in collaborators <==>
        exists k :: k in users.entries && users.entries[k].user == Some(u) && u.id != currentUser.id
      ensures !threw ==> collaborators == CollaboratorsOf(users.Values(), currentUser.id).value
      ensures threw ==> collaborators == old(collaborators)
    {
      var derived := CollaboratorsOf(users.Values(), currentUser.id);
      CollaboratorsThrowIff(users.Values(), currentUser.id);
      if exists k :: k in users.entries && users.entries[k].user.None? {
        var k :| k in users.entries && users.entries[k].user.None?;
        assert k in users.order;
        var i :| 0 <= i < |users.order| && users.order[i] == k;
        assert users.Values()[i].user.None?;
      }
      if exists i :: 0 <= i < |users.Values()| && users.Values()[i].user.None? {
        var i :| 0 <= i < |users.Values()| && users.Values()[i].user.None?;
        assert users.order[i] in users.order;
      }
      match derived
      case None =>
        threw := true;
      case Some(cs) =>
        threw := false;
        CollaboratorsMembers(users.Values(), currentUser.id);
        collaborators := cs;
        forall u ensures u in cs <==>
          exists k :: k in users.entries && users.entries[k].user == Some(u) && u.id != currentUser.id
        {
          if exists k :: k in users.entries && users.entries[k].user == Some(u) && u.id != currentUser.id {
            var k :| k in users.entries && users.entries[k].user == Some(u) && u.id != currentUser.id;
            assert k in users.order;
            var i :| 0 <= i < |users.order| && users.order[i] == k;
            assert users.Values()[i].user == Some(u);
          }
          if u in cs {
            var i :| 0 <= i < |users.order| && users.Values()[i].user == Some(u) && u.id != currentUser.id;
            assert users.order[i] in users.order;
          }
        }
    }

    /** The cursor effect: subscribes `handleAwarenessChange` when there is a provider. */
    method SubscribeCursors()
      modifies if provider != null then {provider.awareness} else {}
      ensures provider != null ==> provider.awareness.listeners == old(provider.awareness.listeners) + {CursorsListener}
      ensures provider != null ==> provider.awareness.states == old(provider.awareness.states)
    {
      if provider != null {
        provider.awareness.On(CursorsListener);
      }
    }

    /** The cursor effect's cleanup. */
    method UnsubscribeCursors()
      modifies if provider != null then {provider.awareness} else {}
      ensures provider != null ==> provider.awareness.listeners == old(provider.awareness.listeners) - {CursorsListener}
      ensures provider != null ==> provider.awareness.states == old(provider.awareness.states)
    {
      if provider != null {
        provider.awareness.Off(CursorsListener);
      }
    }

    /** An awareness `change` event reaching this editor: the cursor map is rebuilt from scratch. */
    method OnAwarenessChange()
      requires provider != null ==> provider.awareness.Valid()
      modifies this`cursorPositions
      ensures provider != null && CursorsListener in provider.awareness.listeners ==>
        cursorPositions == CursorsOf(provider.awareness.states, provider.awareness.clientID)
      ensures !(provider != null && CursorsListener in provider.awareness.listeners) ==>
        cursorPositions == old(cursorPositions)
    {
      if provider != null && CursorsListener in provider.awareness.listeners {
        cursorPositions := BuildCursorPositions(provider.awareness.GetStates(), provider.awareness.clientID);
      }
    }

    /** `handleEditorMouseMove`: publishes the local cursor unless the editor or the provider is missing. */
    method HandleEditorMouseMove(clientX: real, clientY: real, top: real, left: real)
      requires provider != null ==> provider.awareness.Valid()
      modifies if provider != null then {provider.awareness} else {}
      ensures provider != null ==> provider.awareness.Valid()
      ensures provider != null ==> provider.awareness.listeners == old(provider.awareness.listeners)
      ensures editorReady && provider != null ==>
        provider.awareness.states ==
          Publish(old(provider.awareness.states), provider.awareness.clientID,
                  CursorField(PointerOffset(clientX, clientY, top, left)))
      ensures !editorReady && provider != null ==> provider.awareness.states == old(provider.awareness.states)
    {
      if !editorReady || provider == null {
        return;
      }
      provider.awareness.SetLocalStateField(CursorField(PointerOffset(clientX, clientY, top, left)));
    }

    /** The binding effect for the given document fragment. */
    function Binding(fragmentHasFirstChild: bool): Binding
    {
      BindingStep(editorReady, provider != null, isSynced, fragmentHasFirstChild)
    }
  }
}
