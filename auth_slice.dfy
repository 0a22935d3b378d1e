/** The auth slice of the Redux store: who is logged in, and the request status. */
module AuthSlice {
  import opened Js

  /** The actions the slice handles, each with its payload. */
  datatype AuthAction =
    | AuthStart
    | AuthFailure(error: Value)
    | LoginSuccess(user: Value)
    | Logout

  class AuthStore {
    var user: Value
    var isAuthenticated: bool
    var loading: bool
    var error: Value

    /** The slice's invariant: an authenticated store always holds a (truthy) user. */
    predicate Valid()
      reads this
    {
      isAuthenticated ==> Truthy(user)
    }

    /** The store holds exactly `initialState`. */
    predicate IsInitial()
      reads this
    {
      user == Null && !isAuthenticated && !loading && error == Null
    }

    /** The store as created from `initialState`. */
    constructor ()
      ensures IsInitial() && Valid()
    {
      user, isAuthenticated, loading, error := Null, false, false, Null;
    }

    method AuthStart()
      modifies this
      ensures loading && error == Null
      ensures user == old(user) && isAuthenticated == old(isAuthenticated)
      ensures Valid() == old(Valid())
    {
      loading := true;
      error := Null;
    }

    method AuthFailure(payload: Value)
      modifies this
      ensures !loading && error == payload
      ensures user == old(user) && isAuthenticated == old(isAuthenticated)
      ensures Valid() == old(Valid())
    {
      loading := false;
      error := payload;
    }

    /** `loginSuccess(null)` stores no user and leaves the store unauthenticated. */
    method LoginSuccess(payload: Value)
      modifies this
      ensures !loading && error == Null && user == payload
      ensures isAuthenticated == Truthy(payload)
      ensures Valid()
    {
      loading := false;
      isAuthenticated := if Truthy(payload) then true else false;
      user := payload;
      error := Null;
    }

    /** `logout` puts the store back to `initialState`, whatever it held. */
    method Logout()
      modifies this
      ensures IsInitial() && Valid()
    {
      user := Null;
      isAuthenticated := false;
      loading := false;
      error := Null;
    }

    /**
     * `dispatch(action)`: runs the reducer the action names. Every reducer
     * keeps `Valid()`, and the constructor establishes it, so every sequence
     * of dispatches from `initialState` keeps it.
     */
    method Dispatch(action: AuthAction)
      modifies this
      ensures old(Valid()) ==> Valid()
      ensures action.AuthStart? ==> loading && error == Null && user == old(user) && isAuthenticated == old(isAuthenticated)
      ensures action.AuthFailure? ==> !loading && error == action.error && user == old(user) && isAuthenticated == old(isAuthenticated)
      ensures action.LoginSuccess? ==> !loading && error == Null && user == action.user && isAuthenticated == Truthy(action.user)
      ensures action.Logout? ==> IsInitial()
    {
      match action
      case AuthStart => AuthStart();
      case AuthFailure(e) => AuthFailure(e);
      case LoginSuccess(u) => LoginSuccess(u);
      case Logout => Logout();
    }

    /** A run of dispatches, in order. */
    method DispatchAll(actions: seq<AuthAction>)
      modifies this
      ensures old(Valid()) ==> Valid()
      ensures |actions| > 0 && actions[|actions| - 1].Logout? ==> IsInitial()
    {
      var i := 0;
      while i < |actions|
        invariant 0 <= i <= |actions|
        invariant old(Valid()) ==> Valid()
        invariant 0 < i && actions[i - 1].Logout? ==> IsInitial()
      {
        Dispatch(actions[i]);
        i := i + 1;
      }
    }
  }

  /** From `initialState`, any sequence of actions leaves a user behind an authenticated store. */
  method ReachableStoresAreValid(actions: seq<AuthAction>) returns (store: AuthStore)
    ensures store.Valid()
    ensures store.isAuthenticated ==> Truthy(store.user)
  {
    store := new AuthStore();
    store.DispatchAll(actions);
  }
}
