/** The `useAuth` hook of hooks/use-auth.ts. Each component that calls the
    hook owns an `AuthHook` with the React state `user`, `isLoading` and
    `mounted`; the "auth-change" event on `window` is `AuthEvents`, which
    counts the events dispatched and knows which hooks listen for them. */
module UseAuth {
  import opened Wrappers
  import opened Js
  import Auth

  /** The "auth-change" channel of one browser window. */
  class AuthEvents {
    const window: Auth.Browser
    /** How many "auth-change" events were dispatched. */
    var dispatched: nat
    /** The hooks whose listener is registered (mounted and not yet unmounted). */
    var listeners: set<AuthHook>

    constructor(window: Auth.Browser)
      ensures this.window == window && dispatched == 0 && listeners == {}
    {
      this.window := window;
      dispatched := 0;
      listeners := {};
    }

    /** `emitAuthChange()`: in a browser, one event, and every listening
        hook re-reads the stored user into its `user`. */
    method Emit()
      modifies this`dispatched, listeners`user
      ensures dispatched == old(dispatched) + if window.isBrowser then 1 else 0
      ensures window.isBrowser ==> forall h :: h in listeners ==> h.user == Auth.StoredUser(window)
      ensures !window.isBrowser ==> forall h :: h in listeners ==> h.user == old(h.user)
    {
      if window.isBrowser {
        dispatched := dispatched + 1;
        var stored := Auth.GetStoredUser(window);
        forall h | h in listeners {
          h.user := stored;
        }
      }
    }
  }

  class AuthHook {
    const events: AuthEvents
    var user: Option<Auth.User>
    var isLoading: bool
    var mounted: bool

    /** The first render: no user, loading, not mounted. */
    constructor(events: AuthEvents)
      ensures this.events == events
      ensures user.None? && isLoading && !mounted
      ensures ExposedIsLoading() && !IsAuthenticated() && !IsAdmin()
    {
      this.events := events;
      user := None;
      isLoading := true;
      mounted := false;
    }

    /** The `isLoading` the hook returns. */
    predicate ExposedIsLoading()
      reads this
    {
      !mounted || isLoading
    }

    /** `user?.role === "admin"` */
    predicate IsAdmin()
      reads this
    {
      user.Some? && Get(user.value, "role") == Str("admin")
    }

    /** `!!user` */
    predicate IsAuthenticated()
      reads this
    {
      user.Some?
    }

    /** The two mount effects: the stored user is read and loading ends,
        then (now that `mounted` is true) the listener is registered.
        Effects only run in a browser. */
    method Mount()
      requires events.window.isBrowser
      modifies this, events`listeners
      ensures mounted && !isLoading && !ExposedIsLoading()
      ensures user == Auth.StoredUser(events.window)
      ensures events.listeners == old(events.listeners) + {this}
    {
      mounted := true;
      user := Auth.GetStoredUser(events.window);
      isLoading := false;
      events.listeners := events.listeners + {this};
    }

    /** The listener effect's clean-up. */
    method Unmount()
      modifies events`listeners
      ensures events.listeners == old(events.listeners) - {this}
    {
      events.listeners := events.listeners - {this};
    }

    /** `login`: on success the user is set and exactly one event is sent;
        on failure the error is rethrown with `user`, storage and the event
        count untouched. Loading is over either way. */
    method Login(email: string, password: string, backend: Auth.Backend) returns (r: Result<Auth.User, Auth.AuthError>)
      modifies this, events`dispatched, events.listeners`user, events.window`localStorage
      ensures r == Auth.LoginOutcome(backend, email, password)
      ensures !isLoading && mounted == old(mounted)
      ensures events.listeners == old(events.listeners)
      ensures r.Ok? ==> user == Some(r.value)
      ensures r.Ok? ==> events.window.localStorage
                        == Auth.StorageAfterSet(events.window.isBrowser, old(events.window.localStorage), Some(r.value))
      ensures r.Ok? ==> events.dispatched == old(events.dispatched) + if events.window.isBrowser then 1 else 0
      ensures r.Ok? && events.window.isBrowser ==> forall h :: h in events.listeners ==> h.user == Some(r.value)
      ensures r.Err? ==> user == old(user) && events.dispatched == old(events.dispatched)
      ensures r.Err? ==> events.window.localStorage == old(events.window.localStorage)
      ensures r.Err? ==> forall h :: h in events.listeners ==> h.user == old(h.user)
    {
      isLoading := true;
      r := Auth.Login(events.window, email, password, backend);
      if r.Ok? {
        user := Some(r.value);
        events.Emit();
      }
      isLoading := false;
    }

    /** `register`: the same contract as `login`, for `Auth.Register`. */
    method Register(email: string, password: string, name: string, cpf: string, role: Auth.Role,
                    extra: Option<Auth.AdditionalFields>, backend: Auth.Backend)
      returns (r: Result<Auth.User, Auth.AuthError>)
      modifies this, events`dispatched, events.listeners`user, events.window`localStorage
      ensures r == Auth.RegisterOutcome(backend, email, password, name, cpf, role, extra)
      ensures !isLoading && mounted == old(mounted)
      ensures events.listeners == old(events.listeners)
      ensures r.Ok? ==> user == Some(r.value)
      ensures r.Ok? ==> events.window.localStorage
                        == Auth.StorageAfterSet(events.window.isBrowser, old(events.window.localStorage), Some(r.value))
      ensures r.Ok? ==> events.dispatched == old(events.dispatched) + if events.window.isBrowser then 1 else 0
      ensures r.Ok? && events.window.isBrowser ==> forall h :: h in events.listeners ==> h.user == Some(r.value)
      ensures r.Err? ==> user == old(user) && events.dispatched == old(events.dispatched)
      ensures r.Err? ==> events.window.localStorage == old(events.window.localStorage)
      ensures r.Err? ==> forall h :: h in events.listeners ==> h.user == old(h.user)
    {
      isLoading := true;
      r := Auth.Register(events.window, email, password, name, cpf, role, extra, backend);
      if r.Ok? {
        user := Some(r.value);
        events.Emit();
      }
      isLoading := false;
    }

    /** `logout`: storage cleared, `user` null in this hook and, through the
        one event sent, in every listening hook. */
    method Logout()
      modifies this, events`dispatched, events.listeners`user, events.window`localStorage
      ensures user.None? && !IsAuthenticated() && !IsAdmin()
      ensures Auth.StoredUser(events.window).None?
      ensures events.window.localStorage == Auth.StorageAfterSet(events.window.isBrowser, old(events.window.localStorage), None)
      ensures events.dispatched == old(events.dispatched) + if events.window.isBrowser then 1 else 0
      ensures events.window.isBrowser ==> forall h :: h in events.listeners ==> h.user.None?
      ensures events.listeners == old(events.listeners)
      ensures isLoading == old(isLoading) && mounted == old(mounted)
    {
      Auth.Logout(events.window);
      user := None;
      events.Emit();
    }
  }

  /** Being an admin implies being signed in. */
  lemma AdminIsAuthenticated(h: AuthHook)
    ensures h.IsAdmin() ==> h.IsAuthenticated()
  {
  }
}
