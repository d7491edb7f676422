/**
 * The `useYjs` hook (src/hooks/useYjs.ts). One `Hook` object holds the
 * hook's React state (`provider`, `users`, `isSynced`, `connectionError`)
 * and the closure variables of the current effect run (`retries`,
 * `yProvider`); each effect run, transport event, timer and cleanup is a
 * method.
 */
module YjsHook {
  import opened Wrappers
  import opened Presence
  import opened Reconnect
  import AwarenessSetup

  /** `20 + Math.floor(random * 15)` for a draw `random` of `Math.random()`. */
  function MaxConns(random: real): (n: int)
    requires 0.0 <= random < 1.0
    ensures 20 <= n <= 34
  {
    20 + (random * 15.0).Floor
  }

  /** Every connection limit from 20 to 34 is chosen by some draw. */
  lemma EveryMaxConnsReachable(n: int)
    requires 20 <= n <= 34
    ensures exists random: real :: 0.0 <= random < 1.0 && MaxConns(random) == n
  {
    var random := (n - 20) as real / 15.0;
    assert random * 15.0 == (n - 20) as real;
    assert MaxConns(random) == n;
  }

  /** The transport provider: an opaque object owning one awareness object. */
  class Provider {
    const roomId: string
    const maxConns: int
    const awareness: Awareness
    var destroyed: bool

    constructor (roomId: string, maxConns: int, clientID: int)
      ensures this.roomId == roomId && this.maxConns == maxConns && !destroyed
      ensures fresh(awareness) && awareness.Valid() && awareness.clientID == clientID
      ensures awareness.states == StateMap([clientID], map[clientID := EmptyState])
      ensures awareness.listeners == {}
    {
      this.roomId := roomId;
      this.maxConns := maxConns;
      awareness := new Awareness(clientID);
      destroyed := false;
    }

    method Destroy()
      modifies this
      ensures destroyed
    {
      destroyed := true;
    }
  }

  /**
   * What one call of `connect` meets: the provider constructor either
   * returns, with the two `Math.random()` draws made along the way (the
   * connection limit and the palette colour), or throws with a message.
   */
  datatype Construction =
    | Constructed(connsRandom: real, colorRandom: real)
    | Threw(message: string)
  {
    predicate DrawsInRange()
    {
      Constructed? ==> 0.0 <= connsRandom < 1.0 && 0.0 <= colorRandom < 1.0
    }
  }

  class Hook {
    /** The client id of the hook's document, which every provider's awareness uses. */
    const clientID: int

    // React state of the hook
    var provider: Provider?
    var users: StateMap
    var isSynced: bool
    var connectionError: Option<string>

    // closure variables of the current effect run
    var roomId: string
    var username: string
    var retries: nat
    var yProvider: Provider?
    /** The providers this run constructed, oldest first. */
    var constructed: seq<Provider>
    /** The delays passed to `setTimeout(connect, …)`, in order. */
    var delays: seq<nat>
    /** How many of those timers have fired. */
    var fired: nat
    /** Whether the effect is installed (run and not yet cleaned up). */
    var mounted: bool

    ghost function SessionView(): Session
      reads this
    {
      Session(retries, delays, isSynced, connectionError)
    }

    ghost predicate Valid()
      reads this
    {
      && users.Valid()
      && Bounded(SessionView())
      && fired <= |delays|
      && (forall i, j :: 0 <= i < j < |constructed| ==> constructed[i] != constructed[j])
      && yProvider == (if constructed == [] then null else constructed[|constructed| - 1])
      && (constructed != [] ==> provider == yProvider)
      && (forall p :: p in constructed ==>
            p.roomId == roomId && 20 <= p.maxConns <= 34 && p.awareness.clientID == clientID)
    }

    /** The first render: no provider, no users, not synced, no error. */
    constructor (clientID: int)
      ensures Valid() && this.clientID == clientID && !mounted
      ensures provider == null && users == NoStates && !isSynced && connectionError == None
      ensures SessionView() == Initial
    {
      this.clientID := clientID;
      provider := null;
      users := NoStates;
      isSynced := false;
      connectionError := None;
      roomId, username := "", "";
      retries, yProvider, constructed, delays, fired := 0, null, [], [], 0;
      mounted := false;
    }

    /**
     * `connect`: construct a provider, subscribe its events, set up its
     * awareness and publish it; if the constructor throws, only the error
     * message is recorded.
     */
    method Connect(outcome: Construction)
      requires Valid() && outcome.DrawsInRange()
      modifies this
      ensures Valid()
      ensures roomId == old(roomId) && username == old(username) && mounted == old(mounted)
      ensures fired == old(fired)
      ensures outcome.Threw? ==>
        && SessionView() == Step(old(SessionView()), ConstructorThrew(outcome.message))
        && constructed == old(constructed) && yProvider == old(yProvider)
        && provider == old(provider) && users == old(users)
      ensures outcome.Constructed? ==>
        && SessionView() == old(SessionView())
        && |constructed| == |old(constructed)| + 1 && constructed[..|old(constructed)|] == old(constructed)
        && yProvider != null && fresh(yProvider) && fresh(yProvider.awareness)
        && provider == yProvider && !yProvider.destroyed
        && yProvider.maxConns == MaxConns(outcome.connsRandom)
        && yProvider.awareness.listeners == {UsersListener}
        && users == yProvider.awareness.states
        && users == StateMap([clientID], map[clientID := State(
             Some(AwarenessSetup.LocalUser(yProvider.awareness, username, outcome.colorRandom)), None)])
    {
      match outcome
      case Threw(message) =>
        connectionError := Some(message);
      case Constructed(connsRandom, colorRandom) =>
        var p := new Provider(roomId, MaxConns(connsRandom), clientID);
        var snapshot := AwarenessSetup.SetupAwareness(p.awareness, username, colorRandom);
        users := snapshot;
        provider := p;
        constructed := constructed + [p];
        yProvider := p;
    }

    /** The effect body: a new run starts with `retries = 0` and no provider, then calls `connect`. */
    method RunEffect(roomId: string, username: string, outcome: Construction)
      requires Valid() && !mounted && outcome.DrawsInRange()
      modifies this
      ensures Valid() && mounted
      ensures this.roomId == roomId && this.username == username
      ensures delays == [] && fired == 0
      ensures SessionView() == (match outcome
        case Threw(m) => Step(Restart(old(SessionView())), ConstructorThrew(m))
        case Constructed(_, _) => Restart(old(SessionView())))
      ensures outcome.Threw? ==>
        constructed == [] && yProvider == null && provider == old(provider) && users == old(users)
      ensures outcome.Constructed? ==>
        && |constructed| == 1 && provider == yProvider == constructed[0]
        && fresh(yProvider) && fresh(yProvider.awareness) && !yProvider.destroyed
        && yProvider.maxConns == MaxConns(outcome.connsRandom)
        && yProvider.awareness.listeners == {UsersListener}
        && users == yProvider.awareness.states
        && users == StateMap([clientID], map[clientID := State(
             Some(AwarenessSetup.LocalUser(yProvider.awareness, username, outcome.colorRandom)), None)])
    {
      this.roomId, this.username := roomId, username;
      retries, yProvider, constructed, delays, fired := 0, null, [], [], 0;
      mounted := true;
      Connect(outcome);
    }

    /** The `synced` handler. */
    method OnSynced()
      requires Valid()
      modifies this`isSynced
      ensures Valid() && SessionView() == Step(old(SessionView()), Synced)
    {
      isSynced := true;
    }

    /** The `connection-close` handler. */
    method OnConnectionClose()
      requires Valid()
      modifies this`isSynced
      ensures Valid() && SessionView() == Step(old(SessionView()), ConnectionClose)
    {
      isSynced := false;
    }

    /** The `connection-error` handler: schedule `connect` after `1000 * retries` ms, or give up. */
    method OnConnectionError()
      requires Valid()
      modifies this`retries, this`delays, this`connectionError
      ensures Valid() && SessionView() == Step(old(SessionView()), ConnectionError)
    {
      ErrorStep(SessionView());
      if retries < MaxRetries {
        retries := retries + 1;
        delays := delays + [RetryDelayUnit * retries];
      } else {
        connectionError := Some(ExhaustedMessage);
      }
    }

    /** The next scheduled `connect` fires; nothing cancels it, not even the effect cleanup. */
    method OnRetryTimer(outcome: Construction)
      requires Valid() && fired < |delays| && outcome.DrawsInRange()
      modifies this
      ensures Valid() && fired == old(fired) + 1 && mounted == old(mounted)
      ensures roomId == old(roomId) && username == old(username)
      ensures outcome.Threw? ==>
        && SessionView() == Step(old(SessionView()), ConstructorThrew(outcome.message))
        && constructed == old(constructed) && yProvider == old(yProvider)
        && provider == old(provider) && users == old(users)
      ensures outcome.Constructed? ==>
        && SessionView() == old(SessionView())
        && constructed == old(constructed) + [yProvider]
        && fresh(yProvider) && fresh(yProvider.awareness)
        && provider == yProvider && !yProvider.destroyed
        && yProvider.maxConns == MaxConns(outcome.connsRandom)
        && yProvider.awareness.listeners == {UsersListener}
        && users == yProvider.awareness.states
        && users == StateMap([clientID], map[clientID := State(
             Some(AwarenessSetup.LocalUser(yProvider.awareness, username, outcome.colorRandom)), None)])
    {
      Connect(outcome);
      fired := fired + 1;
    }

    /** An awareness `change` event: `updateUsers` runs only where it is still subscribed. */
    method OnAwarenessChange(awareness: Awareness)
      requires Valid() && awareness.Valid()
      modifies this`users
      ensures Valid()
      ensures UsersListener in awareness.listeners ==> users == awareness.states
      ensures UsersListener !in awareness.listeners ==> users == old(users)
    {
      if UsersListener in awareness.listeners {
        users := AwarenessSetup.UpdateUsers(awareness);
      }
    }

    /**
     * The effect cleanup: destroys `yProvider`, the last provider this run
     * constructed. The cleanup `connect` returned was dropped, so earlier
     * providers stay alive, no listener is unsubscribed and a pending
     * retry timer stays scheduled.
     */
    method Teardown()
      requires Valid() && mounted
      modifies this`mounted, yProvider
      ensures Valid() && !mounted
      ensures yProvider != null ==> yProvider.destroyed
      ensures forall i :: 0 <= i < |constructed| - 1 ==> constructed[i].destroyed == old(constructed[i].destroyed)
      ensures forall p :: p in constructed ==> p.awareness.listeners == old(p.awareness.listeners)
    {
      if yProvider != null {
        yProvider.Destroy();
      }
      mounted := false;
    }
  }

  /** Four connection errors after a successful start: three retries at 1000, 2000, 3000 ms, then the terminal error. */
  method FourthErrorIsTerminal(clientID: int)
  {
    var hook := new Hook(clientID);
    hook.RunEffect("room-1", "alice", Constructed(0.5, 0.5));
    hook.OnConnectionError();
    hook.OnConnectionError();
    hook.OnConnectionError();
    assert hook.retries == 3 && hook.connectionError == None;
    assert hook.delays == [1000, 2000, 3000];
    hook.OnConnectionError();
    assert hook.retries == 3 && hook.connectionError == Some(ExhaustedMessage);
    hook.OnSynced();
    assert hook.retries == 3 && hook.isSynced;
  }

  /** A retry scheduled before the cleanup still fires afterwards and constructs a provider nobody destroys. */
  method RetryOutlivesTeardown(clientID: int)
  {
    var hook := new Hook(clientID);
    hook.RunEffect("room-1", "alice", Constructed(0.0, 0.0));
    var first := hook.yProvider;
    hook.OnConnectionError();
    hook.Teardown();
    assert first.destroyed && !hook.mounted;
    hook.OnRetryTimer(Constructed(0.0, 0.0));
    assert |hook.constructed| == 2 && !hook.yProvider.destroyed && hook.yProvider != first;
  }
}
