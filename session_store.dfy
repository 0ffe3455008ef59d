/**
 * The session store of `useStore.ts`: the signed-in user, whether the
 * session is authenticated, and whether sound is on, with the four actions
 * that change them. Each action replaces only the fields it names; the
 * functions below give the new state, and the class `Store` holds the
 * fields and is proved to make exactly those changes.
 */
module SessionStore {

  import opened Optional

  datatype User = User(id: string, username: string, avatar: string, balance: int, level: int)

  datatype StoreState = StoreState(user: Option<User>, isAuthenticated: bool, soundEnabled: bool)

  const InitialState := StoreState(None, false, true)

  /** Logging in always leaves a consistent session, whatever it was before. */
  function LoginStep(s: StoreState, u: User): (r: StoreState)
    ensures AuthConsistent(r) && r.soundEnabled == s.soundEnabled
  {
    s.(user := Some(u), isAuthenticated := true)
  }

  function LogoutStep(s: StoreState): (r: StoreState)
    ensures AuthConsistent(r) && r.soundEnabled == s.soundEnabled
  {
    s.(user := None, isAuthenticated := false)
  }

  function ToggleSoundStep(s: StoreState): (r: StoreState)
    ensures AuthConsistent(r) <==> AuthConsistent(s)
    ensures r.soundEnabled != s.soundEnabled
  {
    s.(soundEnabled := !s.soundEnabled)
  }

  /** The `updateBalance` updater on the user: credit a present user, keep an absent one absent. */
  function Credit(user: Option<User>, amount: int): (credited: Option<User>)
    ensures credited.Some? <==> user.Some?
    ensures credited.Some? ==> credited.value.balance - user.value.balance == amount
  {
    match user
    case None => None
    case Some(u) => Some(u.(balance := u.balance + amount))
  }

  function UpdateBalanceStep(s: StoreState, amount: int): (r: StoreState)
    ensures AuthConsistent(r) <==> AuthConsistent(s)
    ensures r.isAuthenticated == s.isAuthenticated && r.soundEnabled == s.soundEnabled
  {
    s.(user := Credit(s.user, amount))
  }

  /** The session is authenticated exactly when a user is stored. */
  predicate AuthConsistent(s: StoreState) {
    s.isAuthenticated <==> s.user.Some?
  }

  class Store {
    var user: Option<User>
    var isAuthenticated: bool
    var soundEnabled: bool

    function State(): StoreState
      reads this
    {
      StoreState(user, isAuthenticated, soundEnabled)
    }

    constructor ()
      ensures State() == InitialState
    {
      user, isAuthenticated, soundEnabled := None, false, true;
    }

    method Login(u: User)
      modifies this
      ensures State() == LoginStep(old(State()), u)
    {
      user, isAuthenticated := Some(u), true;
    }

    method Logout()
      modifies this
      ensures State() == LogoutStep(old(State()))
    {
      user, isAuthenticated := None, false;
    }

    method ToggleSound()
      modifies this
      ensures State() == ToggleSoundStep(old(State()))
    {
      soundEnabled := !soundEnabled;
    }

    method UpdateBalance(amount: int)
      modifies this
      ensures State() == UpdateBalanceStep(old(State()), amount)
    {
      user := Credit(user, amount);
    }
  }

  /** The store opens signed out with sound on. */
  lemma InitialSignedOut()
    ensures InitialState.user.None? && !InitialState.isAuthenticated && InitialState.soundEnabled
    ensures AuthConsistent(InitialState)
  {
  }

  /** Logging in stores the user and authenticates; logging out clears both; neither touches sound. */
  lemma LoginLogoutEffects(s: StoreState, u: User)
    ensures var r := LoginStep(s, u); r.user == Some(u) && r.isAuthenticated && r.soundEnabled == s.soundEnabled
    ensures var r := LogoutStep(s); r.user.None? && !r.isAuthenticated && r.soundEnabled == s.soundEnabled
  {
  }

  /** Toggling flips only the sound setting, and twice is no change at all. */
  lemma ToggleSoundInvolution(s: StoreState)
    ensures var r := ToggleSoundStep(s);
            r.soundEnabled == !s.soundEnabled && r.user == s.user && r.isAuthenticated == s.isAuthenticated
    ensures ToggleSoundStep(ToggleSoundStep(s)) == s
  {
  }

  /** A credit changes only the balance, by exactly the amount, and finds no user where there is none. */
  lemma CreditChangesOnlyBalance(user: Option<User>, amount: int)
    ensures Credit(user, amount).Some? <==> user.Some?
    ensures user.Some? ==>
              var u, v := user.value, Credit(user, amount).value;
              && v.balance == u.balance + amount
              && v.id == u.id && v.username == u.username && v.avatar == u.avatar && v.level == u.level
  {
  }

  /** Two balance updates are one update by their sum. */
  lemma UpdateBalanceAdditive(s: StoreState, a: int, b: int)
    ensures UpdateBalanceStep(UpdateBalanceStep(s, a), b) == UpdateBalanceStep(s, a + b)
    ensures UpdateBalanceStep(s, 0) == s
  {
  }

  /** Every action keeps the session authenticated exactly when a user is stored. */
  lemma ActionsKeepAuthConsistent(s: StoreState, u: User, amount: int)
    requires AuthConsistent(s)
    ensures AuthConsistent(LoginStep(s, u))
    ensures AuthConsistent(LogoutStep(s))
    ensures AuthConsistent(ToggleSoundStep(s))
    ensures AuthConsistent(UpdateBalanceStep(s, amount))
  {
  }
}
