/** The App component (src/App.tsx): which screen is produced, and for whom. */
module App {
  import opened Wrappers
  import opened Presence
  import EditorView

  const RoomId := "collab-editor-demo-room"
  const AnonymousName := "anonymous"

  /** JavaScript truthiness of the `username` state: `null` and `""` are falsy. */
  predicate LoggedIn(username: Option<string>)
  {
    username.Some? && username.value != ""
  }

  /** The arguments of `useYjs(roomId, username || 'anonymous')`. */
  function HookArguments(username: Option<string>): (args: (string, string))
    ensures args.0 == RoomId
    ensures LoggedIn(username) ==> args.1 == username.value
    ensures !LoggedIn(username) ==> args.1 == AnonymousName
  {
    (RoomId, if LoggedIn(username) then username.value else AnonymousName)
  }

  /** `handleLogin(name)`: the new `username` state. */
  function HandleLogin(name: string): (username: Option<string>)
    ensures LoggedIn(username) <==> name != ""
    ensures HookArguments(username).1 == if name == "" then AnonymousName else name
  {
    Some(name)
  }

  /** The outcome of `find(state => state.user.name === username)?.user`. */
  datatype Lookup = Found(user: User) | NotFound | Threw

  /** Searches the states in map order; reading `user.name` of a state without `user` throws. */
  function FindCurrentUser(states: seq<State>, username: string): (r: Lookup)
    ensures r.Found? ==> r.user.name == username
    ensures r.Found? ==> exists i :: 0 <= i < |states| && states[i].user == Some(r.user)
    decreases |states|
  {
    if states == [] then NotFound
    else match states[0].user
      case None => Threw
      case Some(u) => if u.name == username then Found(u) else FindCurrentUser(states[1..], username)
  }

  /** The first `n` states all have a `user`, and none of them is named `username`. */
  ghost predicate PassedOver(states: seq<State>, username: string, n: nat)
    requires n <= |states|
  {
    forall j :: 0 <= j < n ==> states[j].user.Some? && states[j].user.value.name != username
  }

  /**
   * The search stops at the first state that either lacks `user` (it
   * throws) or carries `username` (that user is chosen); it finds nothing
   * only when every state has a user with another name.
   */
  lemma {:induction false} FindCurrentUserIsFirstMatch(states: seq<State>, username: string)
    ensures forall u :: FindCurrentUser(states, username) == Found(u) <==>
      exists i :: 0 <= i < |states| && PassedOver(states, username, i) && states[i].user == Some(u) && u.name == username
    ensures FindCurrentUser(states, username) == Threw <==>
      exists i :: 0 <= i < |states| && PassedOver(states, username, i) && states[i].user.None?
    ensures FindCurrentUser(states, username) == NotFound <==> PassedOver(states, username, |states|)
    decreases |states|
  {
    if states != [] {
      var rest := states[1..];
      FindCurrentUserIsFirstMatch(rest, username);
      forall i | 0 < i <= |states|
        ensures PassedOver(states, username, i) <==>
          states[0].user.Some? && states[0].user.value.name != username && PassedOver(rest, username, i - 1)
      {
        if PassedOver(states, username, i) {
          forall j | 0 <= j < i - 1 ensures rest[j].user.Some? && rest[j].user.value.name != username {
            assert rest[j] == states[j + 1];
          }
        }
        if states[0].user.Some? && states[0].user.value.name != username && PassedOver(rest, username, i - 1) {
          forall j | 0 <= j < i ensures states[j].user.Some? && states[j].user.value.name != username {
            if j > 0 { assert states[j] == rest[j - 1]; }
          }
        }
      }
      assert PassedOver(states, username, 0);
      forall u ensures FindCurrentUser(states, username) == Found(u) <==>
        exists i :: 0 <= i < |states| && PassedOver(states, username, i) && states[i].user == Some(u) && u.name == username
      {
        if exists i :: 0 <= i < |states| && PassedOver(states, username, i) && states[i].user == Some(u) && u.name == username {
          var i :| 0 <= i < |states| && PassedOver(states, username, i) && states[i].user == Some(u) && u.name == username;
          if i > 0 { assert rest[i - 1] == states[i]; }
        }
        if FindCurrentUser(states, username) == Found(u) && states[0].user != Some(u) {
          var i :| 0 <= i < |rest| && PassedOver(rest, username, i) && rest[i].user == Some(u) && u.name == username;
          assert states[i + 1] == rest[i];
        }
      }
      if exists i :: 0 <= i < |states| && PassedOver(states, username, i) && states[i].user.None? {
        var i :| 0 <= i < |states| && PassedOver(states, username, i) && states[i].user.None?;
        if i > 0 { assert rest[i - 1] == states[i]; }
      }
      if FindCurrentUser(states, username) == Threw && states[0].user.Some? {
        var i :| 0 <= i < |rest| && PassedOver(rest, username, i) && rest[i].user.None?;
        assert states[i + 1] == rest[i];
      }
    }
  }

  /**
   * When the first client in map order is `self` and it has published
   * `local` (as the awareness object keeps its own client first and
   * `setupAwareness` publishes the local user), that user is found.
   */
  lemma LocalUserFoundFirst(users: StateMap, self: int, local: User)
    requires users.Valid() && users.order != [] && users.order[0] == self
    requires self in users.entries && users.entries[self].user == Some(local)
    ensures FindCurrentUser(users.Values(), local.name) == Found(local)
  {
    assert users.Values()[0] == users.entries[self];
  }

  /** Only names are compared: a peer with the login name that comes first in map order is chosen. */
  lemma PeerWithSameNameIsChosen(peer: User, local: User)
    requires peer.name == local.name && peer.id != local.id
    ensures FindCurrentUser([State(Some(peer), None), State(Some(local), None)], local.name) == Found(peer)
  {
  }

  /** What App produces. */
  datatype Screen =
    | LoginScreen
    | LoadingUserData
    | LoadingEditor
    | EditorScreen(currentUser: User)
    | RenderThrew

  /** App's render for the `username` state, whether the hook has a provider, and the users view. */
  function Render(username: Option<string>, providerPresent: bool, users: StateMap): (sc: Screen)
    requires users.Valid()
    ensures sc == LoginScreen <==> !LoggedIn(username)
    ensures sc.EditorScreen? ==>
      && LoggedIn(username) && providerPresent && sc.currentUser.name == username.value
      && exists i :: 0 <= i < |users.Values()| && users.Values()[i].user == Some(sc.currentUser)
    ensures sc == LoadingEditor ==> !providerPresent
    ensures sc == LoadingUserData <==> LoggedIn(username) && PassedOver(users.Values(), username.value, |users.Values()|)
  {
    if !LoggedIn(username) then LoginScreen
    else
      FindCurrentUserIsFirstMatch(users.Values(), username.value);
      match FindCurrentUser(users.Values(), username.value)
      case Threw => RenderThrew
      case NotFound => LoadingUserData
      case Found(u) => if providerPresent then EditorScreen(u) else LoadingEditor
  }


  /**
   * The users view right after the hook's `connect` holds only the local
   * client with its published user; with a provider and a non-empty login
   * name, App then renders the Editor for that user.
   */
  lemma EditorShownAfterSetup(name: string, self: int, color: string)
    requires name != ""
    ensures var local := User(self, name, color);
      Render(HandleLogin(name), true, StateMap([self], map[self := State(Some(local), None)])) == EditorScreen(local)
  {
    var local := User(self, name, color);
    var users := StateMap([self], map[self := State(Some(local), None)]);
    LocalUserFoundFirst(users, self, local);
  }

  /** A non-empty login name leaves the login screen; an empty one stays on it. */
  lemma LoginLeavesLoginScreen(name: string, providerPresent: bool, users: StateMap)
    requires users.Valid()
    ensures Render(HandleLogin(name), providerPresent, users) == LoginScreen <==> name == ""
  {
  }

  /** App renders Editor without `isSynced`, so the binding step never gets past its guard. */
  lemma AppEditorNeverBinds(editorReady: bool, fragmentHasFirstChild: bool)
    ensures EditorView.BindingStep(editorReady, true, None, fragmentHasFirstChild) == EditorView.Skipped
  {
  }
}
