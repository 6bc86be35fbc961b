/**
 * The front end's authentication state: the reducer that every auth action goes
 * through, the mock login and registration (with the ".edu" plan rule), and the
 * provider that dispatches those actions and keeps the token in browser storage.
 */
module AuthContext {
  import opened Wrappers
  import opened Text

  datatype Plan = Free | Premium | Enterprise

  /** The user record, without the creation and update time stamps. */
  datatype User = User(
    id: string,
    email: string,
    firstName: string,
    lastName: string,
    avatar: Option<string>,
    university: Option<string>,
    major: Option<string>,
    graduationYear: Option<int>,
    plan: Plan,
    isEduEmail: bool)

  /** A partial user: a field that is Some overrides the user's field. */
  datatype UserUpdate = UserUpdate(
    id: Option<string>,
    email: Option<string>,
    firstName: Option<string>,
    lastName: Option<string>,
    avatar: Option<Option<string>>,
    university: Option<Option<string>>,
    major: Option<Option<string>>,
    graduationYear: Option<Option<int>>,
    plan: Option<Plan>,
    isEduEmail: Option<bool>)

  datatype AuthState = AuthState(user: Option<User>, isAuthenticated: bool, isLoading: bool, error: Option<string>)

  datatype Action =
    | SetLoading(loading: bool)
    | SetUser(newUser: User)
    | SetError(message: string)
    | ClearError
    | Logout
    | UpdateProfile(updates: UserUpdate)
    | Unrecognised

  /** No user, not authenticated, loading, no error. */
  const InitialState: AuthState := AuthState(None, false, true, None)

  /** `{ ...user, ...updates }`. */
  function Merge(u: User, p: UserUpdate): User {
    User(p.id.GetOr(u.id), p.email.GetOr(u.email), p.firstName.GetOr(u.firstName),
         p.lastName.GetOr(u.lastName), p.avatar.GetOr(u.avatar), p.university.GetOr(u.university),
         p.major.GetOr(u.major), p.graduationYear.GetOr(u.graduationYear), p.plan.GetOr(u.plan),
         p.isEduEmail.GetOr(u.isEduEmail))
  }

  /** `authReducer`. */
  function Reduce(state: AuthState, action: Action): AuthState {
    match action
    case SetLoading(loading) => state.(isLoading := loading)
    case SetUser(u) => state.(user := Some(u), isAuthenticated := true, isLoading := false, error := None)
    case SetError(message) => state.(error := Some(message), isLoading := false)
    case ClearError => state.(error := None)
    case Logout => InitialState.(isLoading := false)
    case UpdateProfile(p) => state.(user := if state.user.Some? then Some(Merge(state.user.value, p)) else None)
    case Unrecognised => state
  }

  /** The actions applied one after the other. */
  function ReduceAll(state: AuthState, actions: seq<Action>): AuthState
    decreases |actions|
  {
    if actions == [] then state else ReduceAll(Reduce(state, actions[0]), actions[1..])
  }

  /** What each action does, and that it leaves every other field alone. */
  lemma ReduceFacts(s: AuthState, b: bool, u: User, m: string)
    ensures Reduce(s, SetLoading(b)) == s.(isLoading := b)
    ensures var t := Reduce(s, SetUser(u));
      t.user == Some(u) && t.isAuthenticated && !t.isLoading && t.error.None?
    ensures var t := Reduce(s, SetError(m));
      t.error == Some(m) && !t.isLoading && t.user == s.user && t.isAuthenticated == s.isAuthenticated
    ensures Reduce(s, ClearError) == s.(error := None)
    ensures Reduce(s, Unrecognised) == s
  {
  }

  /** Logging out gives the initial state with loading off, whatever came before, so a
      second logout changes nothing. */
  lemma LogoutResets(s: AuthState, t: AuthState)
    ensures Reduce(s, Logout) == Reduce(t, Logout)
    ensures var r := Reduce(s, Logout); r.user.None? && !r.isAuthenticated && !r.isLoading && r.error.None?
    ensures Reduce(Reduce(s, Logout), Logout) == Reduce(s, Logout)
  {
  }

  /** A field after an update: the given value when the update has one, the previous one otherwise. */
  predicate Takes<T(==)>(field: T, given: Option<T>, prev: T) {
    (given.Some? ==> field == given.value) && (given.None? ==> field == prev)
  }

  /** A profile update overrides exactly the fields it gives, keeps a missing user missing,
      and touches no other part of the state. */
  lemma UpdateProfileFacts(s: AuthState, p: UserUpdate)
    ensures var t := Reduce(s, UpdateProfile(p));
      t.isAuthenticated == s.isAuthenticated && t.isLoading == s.isLoading && t.error == s.error
    ensures s.user.None? ==> Reduce(s, UpdateProfile(p)).user.None?
    ensures s.user.Some? ==> var u, prev := Reduce(s, UpdateProfile(p)).user.value, s.user.value;
      && Takes(u.id, p.id, prev.id) && Takes(u.email, p.email, prev.email)
      && Takes(u.firstName, p.firstName, prev.firstName) && Takes(u.lastName, p.lastName, prev.lastName)
      && Takes(u.avatar, p.avatar, prev.avatar) && Takes(u.university, p.university, prev.university)
      && Takes(u.major, p.major, prev.major) && Takes(u.graduationYear, p.graduationYear, prev.graduationYear)
      && Takes(u.plan, p.plan, prev.plan) && Takes(u.isEduEmail, p.isEduEmail, prev.isEduEmail)
    ensures s.user.Some? && p == UserUpdate(None, None, None, None, None, None, None, None, None, None) ==>
      Reduce(s, UpdateProfile(p)) == s
  {
  }

  /** "Authenticated exactly when a user is present" holds at the start. */
  predicate Consistent(s: AuthState) {
    s.isAuthenticated <==> s.user.Some?
  }

  /** Every action keeps the state consistent. */
  lemma ReducePreservesConsistent(s: AuthState, a: Action)
    requires Consistent(s)
    ensures Consistent(Reduce(s, a))
  {
  }

  lemma {:induction false} ReduceAllPreservesConsistent(s: AuthState, actions: seq<Action>)
    requires Consistent(s)
    ensures Consistent(ReduceAll(s, actions))
    decreases |actions|
  {
    if actions != [] {
      ReducePreservesConsistent(s, actions[0]);
      ReduceAllPreservesConsistent(Reduce(s, actions[0]), actions[1..]);
    }
  }

  /** Whatever actions are dispatched from the start, a user is present exactly when the
      state says it is authenticated. */
  lemma InitialStateConsistent(actions: seq<Action>)
    ensures Consistent(InitialState)
    ensures Consistent(ReduceAll(InitialState, actions))
  {
    ReduceAllPreservesConsistent(InitialState, actions);
  }

  // ---------------------------------------------------------------------------
  // Mock login and registration

  /** The plan rule of login and registration. */
  function PlanFor(email: string): (plan: Plan)
    ensures plan == Premium <==> Contains(email, ".edu")
    ensures plan != Enterprise
  {
    if Contains(email, ".edu") then Premium else Free
  }

  function LoginUser(email: string): (u: User)
    ensures u.plan == Premium <==> u.isEduEmail
    ensures u.isEduEmail <==> Contains(email, ".edu")
    ensures u.email == email
  {
    User("1", email, "John", "Doe", None, None, None, None, PlanFor(email), Contains(email, ".edu"))
  }

  datatype RegisterData = RegisterData(email: string, password: string, firstName: string, lastName: string,
                                       university: Option<string>, major: Option<string>,
                                       graduationYear: Option<int>)

  function RegisteredUser(d: RegisterData): (u: User)
    ensures u.plan == Premium <==> u.isEduEmail
    ensures u.isEduEmail <==> Contains(d.email, ".edu")
    ensures u.email == d.email && u.firstName == d.firstName && u.lastName == d.lastName
    ensures u.university == d.university && u.major == d.major && u.graduationYear == d.graduationYear
  {
    User("1", d.email, d.firstName, d.lastName, None, d.university, d.major, d.graduationYear,
         PlanFor(d.email), Contains(d.email, ".edu"))
  }

  // ---------------------------------------------------------------------------
  // The provider

  /** The storage key the provider keeps the token under, and the token it stores. */
  const AuthTokenKey: string := "authToken"
  const MockToken: string := "mock-token"

  /** The messages the `catch` blocks of login and registration set. */
  const LoginFailed: string := "Login failed. Please try again."
  const RegistrationFailed: string := "Registration failed. Please try again."

  /** The provider's reducer state and the browser storage it writes. */
  class AuthProvider {
    var state: AuthState
    var storage: map<string, string>

    constructor (storage0: map<string, string>)
      ensures state == InitialState && storage == storage0
    {
      state := InitialState;
      storage := storage0;
    }

    /** The first effect: loading ends (after a delay when a token is stored). */
    method Mount()
      modifies this
      ensures state == Reduce(old(state), SetLoading(false)) && storage == old(storage)
    {
      state := Reduce(state, SetLoading(false));
    }

    /** `login`: loading on, error cleared, the mock user set, then the token stored. When
        storing throws (`storeFails`: the storage is full or blocked), the `catch` sets the
        login error on top of the user already set, and nothing is stored. */
    method Login(email: string, password: string, storeFails: bool)
      modifies this
      ensures var signedIn := Reduce(Reduce(Reduce(old(state), SetLoading(true)), ClearError), SetUser(LoginUser(email)));
        state == if storeFails then Reduce(signedIn, SetError(LoginFailed)) else signedIn
      ensures state.user == Some(LoginUser(email)) && state.isAuthenticated && !state.isLoading
      ensures state.error == if storeFails then Some(LoginFailed) else None
      ensures storage == if storeFails then old(storage) else old(storage)[AuthTokenKey := MockToken]
    {
      state := Reduce(state, SetLoading(true));
      state := Reduce(state, ClearError);
      state := Reduce(state, SetUser(LoginUser(email)));
      if storeFails {
        state := Reduce(state, SetError(LoginFailed));
      } else {
        storage := storage[AuthTokenKey := MockToken];
      }
    }

    /** `register`: as login, with the user built from the registration data and its own
        error message. */
    method Register(data: RegisterData, storeFails: bool)
      modifies this
      ensures var signedIn := Reduce(Reduce(Reduce(old(state), SetLoading(true)), ClearError), SetUser(RegisteredUser(data)));
        state == if storeFails then Reduce(signedIn, SetError(RegistrationFailed)) else signedIn
      ensures state.user == Some(RegisteredUser(data)) && state.isAuthenticated && !state.isLoading
      ensures state.error == if storeFails then Some(RegistrationFailed) else None
      ensures storage == if storeFails then old(storage) else old(storage)[AuthTokenKey := MockToken]
    {
      state := Reduce(state, SetLoading(true));
      state := Reduce(state, ClearError);
      state := Reduce(state, SetUser(RegisteredUser(data)));
      if storeFails {
        state := Reduce(state, SetError(RegistrationFailed));
      } else {
        storage := storage[AuthTokenKey := MockToken];
      }
    }

    /** `logout`: the token is removed and the state reset. */
    method Logout()
      modifies this
      ensures state == Reduce(old(state), Action.Logout)
      ensures state.user.None? && !state.isAuthenticated && !state.isLoading
      ensures storage == old(storage) - {AuthTokenKey}
    {
      storage := storage - {AuthTokenKey};
      state := Reduce(state, Action.Logout);
    }

    /** `updateProfile`. */
    method UpdateProfile(updates: UserUpdate)
      modifies this
      ensures state == Reduce(old(state), Action.UpdateProfile(updates)) && storage == old(storage)
    {
      state := Reduce(state, Action.UpdateProfile(updates));
    }
  }
}
