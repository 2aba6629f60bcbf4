/**
 * The signed-in user: the provider's state, restored from and saved to the one browser-storage
 * key "afh_user", and the hook that hands it out.
 */
module Auth {
  import opened Wrappers

  /** A signed-in user; `role` is "owner" or "staff" when written by the app, any text when read back. */
  datatype User = User(id: string, name: string, role: string, email: string)

  const StorageKey: string := "afh_user"

  /** The browser storage, reduced to the value under `StorageKey`. */
  class LocalStorage {
    var afhUser: Option<string>

    constructor(initial: Option<string>)
      ensures afhUser == initial
    {
      afhUser := initial;
    }
  }

  /** The state handed to the pages. */
  datatype AuthContextValue = AuthContextValue(user: Option<User>, isLoading: bool)

  /** `useAuth`: the provider's value, or the error raised when no provider is above the caller. */
  function UseAuth(context: Option<AuthContextValue>): (r: Result<AuthContextValue, string>)
    ensures r.Ok? <==> context.Some?
    ensures r.Ok? ==> r.value == context.value
    ensures r.Err? ==> r.error == "useAuth must be used within an AuthProvider"
  {
    if context.None? then Err("useAuth must be used within an AuthProvider") else Ok(context.value)
  }

  class AuthProvider {
    var user: Option<User>
    var isLoading: bool

    constructor()
      ensures user == None && isLoading
    {
      user, isLoading := None, true;
    }

    function Value(): AuthContextValue
      reads this
    {
      AuthContextValue(user, isLoading)
    }

    /**
     * The mount effect: a non-empty stored value that parses becomes the user; one that does not
     * parse is removed from storage; loading ends either way. `parse` stands for `JSON.parse`,
     * `None` meaning it throws.
     */
    method Restore(store: LocalStorage, parse: string -> Option<User>)
      modifies this, store
      ensures !isLoading
      ensures (old(store.afhUser).Some? && old(store.afhUser).value != "" && parse(old(store.afhUser).value).Some?) ==>
        user == parse(old(store.afhUser).value) && store.afhUser == old(store.afhUser)
      ensures (old(store.afhUser).Some? && old(store.afhUser).value != "" && parse(old(store.afhUser).value).None?) ==>
        user == old(user) && store.afhUser == None
      ensures (old(store.afhUser).None? || old(store.afhUser).value == "") ==>
        user == old(user) && store.afhUser == old(store.afhUser)
    {
      var stored := store.afhUser;
      if stored.Some? && stored.value != "" {
        var parsed := parse(stored.value);
        if parsed.Some? {
          user := parsed;
        } else {
          store.afhUser := None;
        }
      }
      isLoading := false;
    }

    /** `login`: the user is set and saved; `stringify` stands for `JSON.stringify`. */
    method Login(u: User, store: LocalStorage, stringify: User -> string)
      modifies this, store
      ensures user == Some(u) && store.afhUser == Some(stringify(u))
      ensures isLoading == old(isLoading)
    {
      user := Some(u);
      store.afhUser := Some(stringify(u));
    }

    /** `logout`: the user and the saved value are dropped; the page then goes to "/". */
    method Logout(store: LocalStorage) returns (redirectTo: string)
      modifies this, store
      ensures user == None && store.afhUser == None
      ensures isLoading == old(isLoading)
      ensures redirectTo == "/"
    {
      user := None;
      store.afhUser := None;
      redirectTo := "/";
    }
  }

  /**
   * A session survives a reload: after a login, a new provider restoring from the same storage
   * gets the same user back, provided parsing undoes stringifying and the text is non-empty
   * (as every JSON object text is).
   */
  method LoginSurvivesReload(u: User, stringify: User -> string, parse: string -> Option<User>)
    returns (restored: Option<User>, loading: bool)
    requires stringify(u) != "" && parse(stringify(u)) == Some(u)
    ensures restored == Some(u) && !loading
  {
    var store := new LocalStorage(None);
    var first := new AuthProvider();
    first.Login(u, store, stringify);
    var second := new AuthProvider();
    second.Restore(store, parse);
    restored, loading := second.user, second.isLoading;
  }

  /** After a logout, a reload restores nobody. */
  method LogoutSurvivesReload(u: User, stringify: User -> string, parse: string -> Option<User>)
    returns (restored: Option<User>)
    ensures restored == None
  {
    var store := new LocalStorage(None);
    var first := new AuthProvider();
    first.Login(u, store, stringify);
    var _ := first.Logout(store);
    var second := new AuthProvider();
    second.Restore(store, parse);
    restored := second.user;
  }
}
