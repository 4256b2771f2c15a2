/** The auth slice: the signed-in user, a loading flag and the last error,
    changed by the sign-in and sign-out thunks and by the auth-state observer. */
module AuthSlice {
  import opened Wrappers
  import opened Entities

  /** The identity provider's user object, reduced to the four members read.
      Only `uid` is never null. */
  datatype ProviderUser = ProviderUser(uid: string, displayName: Option<string>, email: Option<string>, photoURL: Option<string>)

  /** The identity record built from a provider user, on both sign-in paths. */
  function ToIdentity(u: ProviderUser): (r: User)
    ensures r.id == u.uid && r.name == u.displayName
    ensures r.email == u.email && r.photoUrl == u.photoURL
  {
    User(u.uid, u.displayName, u.email, u.photoURL)
  }

  /** The body of `signInWithGoogle`: the popup's user becomes an identity
      record; a failed popup rejects with its message. */
  function SignInWithGoogle(popup: Outcome<ProviderUser>): (r: Outcome<User>)
    ensures r.Ok? <==> popup.Ok?
    ensures popup.Ok? ==> r.data == ToIdentity(popup.data)
    ensures popup.Err? ==> r.msg == popup.msg
  {
    match popup
    case Ok(u) => Ok(ToIdentity(u))
    case Err(m) => Err(m)
  }

  /** The actions the auth reducer sees: the lifecycles of the three thunks,
      and the plain `setLoading` action. */
  datatype AuthAction =
    | SignIn(signIn: Phase<User>)
    | SignOut(signOut: Phase<()>)
    | CheckAuth(check: Phase<()>)
    | SetLoading(loading: bool)

  /** What the `checkAuthState` listener dispatches for one observed auth
      state: a present user yields the fulfilled sign-in action with the record
      the sign-in thunk would build, an absent one the fulfilled sign-out. */
  function ObservedAction(observed: Option<ProviderUser>): (a: AuthAction)
    ensures observed.Some? ==> a == SignIn(Settle(SignInWithGoogle(Ok(observed.value))))
    ensures observed.None? ==> a == SignOut(Fulfilled(()))
  {
    match observed
    case Some(u) => SignIn(Fulfilled(ToIdentity(u)))
    case None => SignOut(Fulfilled(()))
  }

  /** The slice's state, `{user, isLoading, error}`, updated in place. */
  class AuthStore {
    var user: Option<User>
    var isLoading: bool
    var error: Option<string>

    /** The initial state: nobody signed in, loading, no error. */
    constructor ()
      ensures user == None && isLoading && error == None
    {
      user := None;
      isLoading := true;
      error := None;
    }

    /** The reducer: the `setLoading` case and the six thunk cases. The lifecycle
        actions of `checkAuthState` have no case and change nothing. */
    method Dispatch(a: AuthAction)
      modifies this
      ensures match a
        case SetLoading(b) => isLoading == b && user == old(user) && error == old(error)
        case SignIn(Pending) => isLoading && error == None && user == old(user)
        case SignOut(Pending) => isLoading && error == None && user == old(user)
        case SignIn(Fulfilled(u)) => !isLoading && user == Some(u) && error == old(error)
        case SignOut(Fulfilled(_)) => !isLoading && user == None && error == old(error)
        case SignIn(Rejected(m)) => !isLoading && error == Some(m) && user == old(user)
        case SignOut(Rejected(m)) => !isLoading && error == Some(m) && user == old(user)
        case CheckAuth(_) => isLoading == old(isLoading) && error == old(error) && user == old(user)
    {
      match a
      case SetLoading(b) =>
        isLoading := b;
      case SignIn(Pending) =>
        isLoading := true;
        error := None;
      case SignIn(Fulfilled(u)) =>
        isLoading := false;
        user := Some(u);
      case SignIn(Rejected(m)) =>
        isLoading := false;
        error := Some(m);
      case SignOut(Pending) =>
        isLoading := true;
        error := None;
      case SignOut(Fulfilled(_)) =>
        isLoading := false;
        user := None;
      case SignOut(Rejected(m)) =>
        isLoading := false;
        error := Some(m);
      case CheckAuth(_) =>
    }

    /** `signInWithGoogle` dispatched and settled as one step: afterwards the
        slice is not loading, and either holds the new identity with no error or
        keeps its user and records the popup's error. */
    method RunSignIn(popup: Outcome<ProviderUser>)
      modifies this
      ensures !isLoading
      ensures popup.Ok? ==> user == Some(ToIdentity(popup.data)) && error == None
      ensures popup.Err? ==> user == old(user) && error == Some(popup.msg)
    {
      Dispatch(SignIn(Pending));
      Dispatch(SignIn(Settle(SignInWithGoogle(popup))));
    }

    /** `signOutUserAsync` dispatched and settled as one step: a successful
        sign-out clears the user and the error; a failed one keeps the user. */
    method RunSignOut(signOut: Outcome<()>)
      modifies this
      ensures !isLoading
      ensures signOut.Ok? ==> user == None && error == None
      ensures signOut.Err? ==> user == old(user) && error == Some(signOut.msg)
    {
      Dispatch(SignOut(Pending));
      Dispatch(SignOut(Settle(signOut)));
    }

    /** One event of the auth-state observer registered by `checkAuthState`:
        the same transition as a fulfilled sign-in or sign-out, error untouched. */
    method Observe(observed: Option<ProviderUser>)
      modifies this
      ensures !isLoading && error == old(error)
      ensures observed.Some? ==> user == Some(ToIdentity(observed.value))
      ensures observed.None? ==> user == None
    {
      Dispatch(ObservedAction(observed));
    }
  }

  /** A dismissed popup followed by a successful retry: the failure leaves
      nobody signed in, not loading, with the popup's message recorded, and the
      retry signs the user in and clears that message. */
  method SignInRetry(failure: string, u: ProviderUser)
    returns (store: AuthStore, userAfterFailure: Option<User>, loadingAfterFailure: bool, errorAfterFailure: Option<string>)
    ensures userAfterFailure == None && !loadingAfterFailure && errorAfterFailure == Some(failure)
    ensures store.user == Some(ToIdentity(u)) && store.error == None && !store.isLoading
  {
    store := new AuthStore();
    store.RunSignIn(Err(failure));
    userAfterFailure, loadingAfterFailure, errorAfterFailure := store.user, store.isLoading, store.error;
    store.RunSignIn(Ok(u));
  }
}
