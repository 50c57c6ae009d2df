/**
 * The session store of the casino front end (`AuthManager`): the signed-in user, the session
 * token, and the two browser-storage entries `pridex_token` and `pridex_user` that mirror them.
 * Network delays are taken as instantaneous, `Date.now()` is a parameter, and the toasts,
 * loading overlay and DOM refresh are no-op collaborators.
 */
module Auth {
  import opened Wrappers
  import opened Strings

  /** The JavaScript values the user records hold. */
  datatype JsValue = JsNum(num: real) | JsStr(str: string)

  /** A plain JavaScript object: property name to value (a later spread or assignment replaces a key). */
  type JsObject = map<string, JsValue>

  /** A `localStorage` entry: a plain string, or the `JSON.stringify` of an object. */
  datatype StoredItem = Text(text: string) | Json(obj: JsObject)

  /** The browser's `localStorage`. */
  type Storage = map<string, StoredItem>

  const TokenKey: string := "pridex_token"
  const UserKey: string := "pridex_user"
  const TokenPrefix: string := "demo_token_"
  /** The balance every freshly signed-in or registered user starts with (100.00). */
  const StartingBalance: real := 100.0
  /** The shortest password `validateUserData` accepts, in UTF-16 code units. */
  const MinPasswordLength: nat := 6

  /** What `register` receives: the three fields it checks, plus whatever else the caller put in the object. */
  datatype UserData = UserData(email: string, password: string, confirmPassword: string, others: JsObject)

  /** The object `userData` itself, as the spread `...userData` copies it. */
  function Fields(data: UserData): (obj: JsObject)
    ensures obj.Keys == data.others.Keys + {"email", "password", "confirmPassword"}
    ensures obj["email"] == JsStr(data.email) && obj["password"] == JsStr(data.password)
    ensures obj["confirmPassword"] == JsStr(data.confirmPassword)
  {
    data.others["email" := JsStr(data.email)]["password" := JsStr(data.password)]
      ["confirmPassword" := JsStr(data.confirmPassword)]
  }

  /** The abstract state of an `AuthManager`: its two fields and the storage it writes. */
  datatype Session = Session(currentUser: Option<JsObject>, token: Option<string>, store: Storage)

  predicate HasBalance(user: JsObject) {
    "balance" in user && user["balance"].JsNum?
  }

  function BalanceOf(user: JsObject): real
    requires HasBalance(user)
  {
    user["balance"].num
  }

  /** Every user record the store installs carries a numeric balance. */
  predicate WellFormed(s: Session) {
    s.currentUser.Some? ==> HasBalance(s.currentUser.value)
  }

  /** `'demo_token_' + Date.now()`. */
  function DemoToken(now: nat): (token: string)
    ensures TokenPrefix <= token && |token| > |TokenPrefix|
  {
    TokenPrefix + Decimal(now)
  }

  /** Tokens handed out at different instants differ. */
  lemma DemoTokenInjective(a: nat, b: nat)
    requires DemoToken(a) == DemoToken(b)
    ensures a == b
  {
    assert Decimal(a) == DemoToken(a)[|TokenPrefix|..];
    assert Decimal(b) == DemoToken(b)[|TokenPrefix|..];
    DecimalInjective(a, b);
  }

  /** The record `login` builds: no check of the address, username = text before the first '@'. */
  function LoginUser(email: string, now: nat): (user: JsObject)
    ensures HasBalance(user) && BalanceOf(user) == StartingBalance
    ensures user.Keys == {"id", "email", "username", "balance"}
    ensures user["email"] == JsStr(email) && user["username"] == JsStr(LocalPart(email))
    ensures user["id"] == JsNum(now as real)
  {
    map["id" := JsNum(now as real), "email" := JsStr(email),
        "username" := JsStr(LocalPart(email)), "balance" := JsNum(StartingBalance)]
  }

  /** `{ id: Date.now(), ...userData, balance: 100.00 }`. */
  function RegisteredUser(data: UserData, now: nat): (user: JsObject)
    ensures user.Keys == data.others.Keys + {"id", "balance", "email", "password", "confirmPassword"}
    ensures HasBalance(user) && BalanceOf(user) == StartingBalance
  {
    map["id" := JsNum(now as real)] + Fields(data) + map["balance" := JsNum(StartingBalance)]
  }

  /**
   * Whatever the input carries, the registered record has the starting balance; every other
   * field of the input, the password and its confirmation included, is copied, and the
   * timestamp id is kept only when the input has no `id` of its own.
   */
  lemma RegisteredUserFields(data: UserData, now: nat)
    ensures var user := RegisteredUser(data, now);
      && HasBalance(user) && BalanceOf(user) == StartingBalance
      && user.Keys == data.others.Keys + {"id", "balance", "email", "password", "confirmPassword"}
      && user["email"] == JsStr(data.email) && user["password"] == JsStr(data.password)
      && user["confirmPassword"] == JsStr(data.confirmPassword)
      && (forall key :: (key in data.others && key != "balance" && key != "email"
            && key != "password" && key != "confirmPassword") ==> user[key] == data.others[key])
      && user["id"] == (if "id" in data.others then data.others["id"] else JsNum(now as real))
  {
  }

  /** `validateUserData`: the e-mail pattern, at least six UTF-16 code units, and a matching confirmation. */
  predicate ValidateUserData(data: UserData)
    ensures ValidateUserData(data) ==>
      && MatchesEmailPattern(data.email)
      && 3 <= |data.password| && data.confirmPassword == data.password
  {
    ValidateEmailIsPattern(data.email);
    && ValidateEmail(data.email)
    && Utf16Length(data.password) >= MinPasswordLength
    && data.password == data.confirmPassword
  }

  /** Installing a user and token and persisting both keys, as `login` and `register` do. */
  function SignedIn(s: Session, user: JsObject, token: string): (t: Session)
    ensures t.currentUser == Some(user) && t.token == Some(token)
    ensures t.store.Keys == s.store.Keys + {TokenKey, UserKey}
    ensures t.store[TokenKey] == Text(token) && t.store[UserKey] == Json(user)
    ensures forall key :: key in s.store && key != TokenKey && key != UserKey ==> t.store[key] == s.store[key]
  {
    Session(Some(user), Some(token), s.store[TokenKey := Text(token)][UserKey := Json(user)])
  }

  /** `logout`: both fields cleared and both keys removed. */
  function SignedOut(s: Session): (t: Session)
    ensures t.currentUser.None? && t.token.None?
    ensures t.store.Keys == s.store.Keys - {TokenKey, UserKey}
    ensures forall key :: key in t.store ==> t.store[key] == s.store[key]
  {
    Session(None, None, s.store - {TokenKey, UserKey})
  }

  /** `updateBalance(amount)`: with a user, `balance += amount`, not clamped and not persisted. */
  function Credited(s: Session, amount: real): (t: Session)
    requires WellFormed(s)
    ensures WellFormed(t) && t.token == s.token && t.store == s.store
    ensures t.currentUser.Some? <==> s.currentUser.Some?
    ensures s.currentUser.Some? ==> BalanceOf(t.currentUser.value) == BalanceOf(s.currentUser.value) + amount
    ensures s.currentUser.Some? ==> t.currentUser.value.Keys == s.currentUser.value.Keys
    ensures s.currentUser.Some? ==>
      forall key :: key in s.currentUser.value && key != "balance" ==>
        t.currentUser.value[key] == s.currentUser.value[key]
  {
    match s.currentUser
    case None => s
    case Some(user) =>
      s.(currentUser := Some(user["balance" := JsNum(BalanceOf(user) + amount)]))
  }

  /** Logging out a second time changes nothing. */
  lemma LogoutIdempotent(s: Session)
    ensures SignedOut(SignedOut(s)) == SignedOut(s)
  {
  }

  /** Signing in replaces the whole session: the earlier user and token leave no trace. */
  lemma SignInReplaces(s: Session, u1: JsObject, t1: string, u2: JsObject, t2: string)
    ensures SignedIn(SignedIn(s, u1, t1), u2, t2) == SignedIn(s, u2, t2)
  {
  }

  /** Signing in and then out leaves storage as a logout alone would have left it. */
  lemma SignOutUndoesSignIn(s: Session, user: JsObject, token: string)
    ensures SignedOut(SignedIn(s, user, token)) == SignedOut(s)
  {
  }

  /** Two balance updates add up; a repeated settlement is applied twice. */
  lemma CreditsAdd(s: Session, a: real, b: real)
    requires WellFormed(s)
    ensures Credited(Credited(s, a), b) == Credited(s, a + b)
  {
    if s.currentUser.Some? {
      assert Credited(Credited(s, a), b).currentUser.value == Credited(s, a + b).currentUser.value;
    }
  }

  /** There is no lower clamp: a debit larger than the balance leaves it negative. */
  lemma CreditCanOverdraw(s: Session, amount: real)
    requires WellFormed(s) && s.currentUser.Some?
    requires amount < -BalanceOf(s.currentUser.value)
    ensures BalanceOf(Credited(s, amount).currentUser.value) < 0.0
  {
  }

  /** The token `AuthManager`'s constructor reads from storage. */
  function SavedToken(saved: Storage): Option<string> {
    if TokenKey in saved && saved[TokenKey].Text? then Some(saved[TokenKey].text) else None
  }

  class AuthManager {
    var currentUser: Option<JsObject>
    var token: Option<string>
    /** Stands in for the browser's `localStorage`. */
    var store: Storage

    function State(): Session
      reads this
    {
      Session(currentUser, token, store)
    }

    ghost predicate Valid()
      reads this
    {
      WellFormed(State())
    }

    /** No user yet; the token is whatever storage holds under `pridex_token`. */
    constructor (saved: Storage)
      ensures Valid()
      ensures State() == Session(None, SavedToken(saved), saved)
    {
      currentUser := None;
      token := SavedToken(saved);
      store := saved;
    }

    /** `getCurrentUser`. */
    function GetCurrentUser(): (user: Option<JsObject>)
      reads this
      ensures Valid() && user.Some? ==> HasBalance(user.value)
    {
      currentUser
    }

    /** `login` always succeeds: the password is not looked at and the address is not checked. */
    method Login(email: string, password: string, now: nat) returns (ok: bool)
      requires Valid()
      modifies this
      ensures Valid() && ok
      ensures State() == SignedIn(old(State()), LoginUser(email, now), DemoToken(now))
    {
      var user := LoginUser(email, now);
      currentUser := Some(user);
      token := Some(DemoToken(now));
      store := store[TokenKey := Text(token.value)];
      store := store[UserKey := Json(user)];
      ok := true;
    }

    /** `register`: invalid data is rejected before anything is touched. */
    method Register(data: UserData, now: nat) returns (ok: bool)
      requires Valid()
      modifies this
      ensures Valid()
      ensures ok == ValidateUserData(data)
      ensures ok ==> State() == SignedIn(old(State()), RegisteredUser(data, now), DemoToken(now))
      ensures !ok ==> State() == old(State())
    {
      if !ValidateUserData(data) {
        return false;
      }
      var user := RegisteredUser(data, now);
      RegisteredUserFields(data, now);
      currentUser := Some(user);
      token := Some(DemoToken(now));
      store := store[TokenKey := Text(token.value)];
      store := store[UserKey := Json(user)];
      ok := true;
    }

    /** `logout`, safe with no session. */
    method Logout()
      requires Valid()
      modifies this
      ensures Valid()
      ensures State() == SignedOut(old(State()))
    {
      currentUser := None;
      token := None;
      store := store - {TokenKey};
      store := store - {UserKey};
      assert store == old(store) - {TokenKey, UserKey};
    }

    /** `updateBalance`: true and `balance += amount` with a user; false and no change without one. */
    method UpdateBalance(amount: real) returns (ok: bool)
      requires Valid()
      modifies this
      ensures Valid()
      ensures ok <==> old(currentUser).Some?
      ensures State() == Credited(old(State()), amount)
    {
      if currentUser.Some? {
        var user := currentUser.value;
        currentUser := Some(user["balance" := JsNum(BalanceOf(user) + amount)]);
        return true;
      }
      return false;
    }
  }
}
