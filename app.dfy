/**
 * The page controller (`PrideXApp`): the game name and icon lookups, and the login and
 * registration form handlers with the user record each installs. The DOM, the simulated
 * socket and the periodic statistics are outside the model; a handler returns the
 * notification it shows instead of drawing it.
 */
module App {
  import opened Wrappers
  import opened Strings
  import opened Auth
  import Games

  datatype NoticeKind = Info | Success | Warning | Error
  datatype Notice = Notice(message: string, kind: NoticeKind)

  const InvalidEmail: Notice := Notice("Введите корректный email", Error)
  const PasswordMismatch: Notice := Notice("Пароли не совпадают", Error)
  const PasswordTooShort: Notice := Notice("Пароль должен быть не менее 6 символов", Error)
  const LoginSucceeded: Notice := Notice("Успешный вход!", Success)
  const RegisterSucceeded: Notice := Notice("Регистрация успешна! Добро пожаловать!", Success)

  const DefaultGameName: string := "Игра"
  const DefaultGameIcon: string := "gamepad"

  /** `getGameName`: the page's names agree with the game catalog; any other id is a generic "game". */
  function GetGameName(gameType: string): (name: string)
    ensures gameType in Games.AvailableGames() ==> name == Games.AvailableGames()[gameType].name
    ensures gameType !in Games.AvailableGames() ==> name == DefaultGameName
  {
    var games := map[
      "slots" := "Слоты", "roulette" := "Рулетка", "blackjack" := "Блэкджек",
      "poker" := "Покер", "crash" := "Crash"];
    if gameType in games then games[gameType] else DefaultGameName
  }

  /** `getGameIcon`: each catalog game has its own icon; any other id gets the gamepad. */
  function GetGameIcon(gameType: string): (icon: string)
    ensures icon == DefaultGameIcon <==> gameType !in Games.AvailableGames()
  {
    var icons := map[
      "slots" := "dice", "roulette" := "chess-board", "blackjack" := "club",
      "poker" := "spade", "crash" := "chart-line"];
    if gameType in icons then icons[gameType] else DefaultGameIcon
  }

  /** The record `handleLogin` installs: id 1, username from the address, balance 1000.00. */
  function LoginProfile(email: string): (user: JsObject)
    ensures user.Keys == {"id", "email", "username", "balance"}
    ensures HasBalance(user) && BalanceOf(user) == 1000.0
    ensures user["email"] == JsStr(email) && user["username"] == JsStr(LocalPart(email))
  {
    map["id" := JsNum(1.0), "email" := JsStr(email), "username" := JsStr(LocalPart(email)),
        "balance" := JsNum(1000.0)]
  }

  /** The record `handleRegister` installs: id 2, the form's username, balance 100.00. */
  function RegisterProfile(email: string, username: string): (user: JsObject)
    ensures user.Keys == {"id", "email", "username", "balance"}
    ensures HasBalance(user) && BalanceOf(user) == StartingBalance
    ensures user["email"] == JsStr(email) && user["username"] == JsStr(username)
  {
    map["id" := JsNum(2.0), "email" := JsStr(email), "username" := JsStr(username),
        "balance" := JsNum(100.0)]
  }

  /**
   * The first check of `handleRegister` that fails, in the order the form runs them:
   * the address, then the confirmation, then the length. The form accepts exactly the
   * data the session store's `validateUserData` accepts.
   */
  function RegisterFormError(email: string, password: string, confirmPassword: string): (error: Option<Notice>)
    ensures !ValidateEmail(email) ==> error == Some(InvalidEmail)
    ensures ValidateEmail(email) && password != confirmPassword ==> error == Some(PasswordMismatch)
    ensures error == Some(PasswordTooShort) <==>
      ValidateEmail(email) && password == confirmPassword && Utf16Length(password) < MinPasswordLength
    ensures error.None? <==> ValidateUserData(UserData(email, password, confirmPassword, map[]))
  {
    if !ValidateEmail(email) then Some(InvalidEmail)
    else if password != confirmPassword then Some(PasswordMismatch)
    else if Utf16Length(password) < MinPasswordLength then Some(PasswordTooShort)
    else None
  }

  /** The two sign-in paths of the page differ: the form's login credits 1000.00, the store's 100.00. */
  lemma LoginBalancesDiffer(email: string, now: nat)
    ensures HasBalance(LoginProfile(email)) && BalanceOf(LoginProfile(email)) == 1000.0
    ensures BalanceOf(LoginProfile(email)) == 10.0 * BalanceOf(LoginUser(email, now))
    ensures LoginProfile(email)["username"] == LoginUser(email, now)["username"]
  {
  }

  class PrideXApp {
    var currentGame: Option<string>
    var user: Option<JsObject>

    constructor ()
      ensures currentGame == None && user == None
    {
      currentGame := None;
      user := None;
    }

    /** `loadGame`: the requested id becomes current whether or not anyone is signed in. */
    method LoadGame(gameType: string)
      modifies this
      ensures currentGame == Some(gameType) && user == old(user)
    {
      currentGame := Some(gameType);
    }

    /** `handleLogin`: an invalid address is refused; otherwise the login record is installed. */
    method HandleLogin(email: string, password: string) returns (notice: Notice)
      modifies this
      ensures currentGame == old(currentGame)
      ensures !ValidateEmail(email) ==> notice == InvalidEmail && user == old(user)
      ensures ValidateEmail(email) ==> notice == LoginSucceeded && user == Some(LoginProfile(email))
    {
      if !ValidateEmail(email) {
        return InvalidEmail;
      }
      user := Some(LoginProfile(email));
      return LoginSucceeded;
    }

    /** `handleRegister`: the first failing check is reported and nothing changes; otherwise the new record is installed. */
    method HandleRegister(email: string, username: string, password: string, confirmPassword: string)
      returns (notice: Notice)
      modifies this
      ensures currentGame == old(currentGame)
      ensures RegisterFormError(email, password, confirmPassword).Some? ==>
        notice == RegisterFormError(email, password, confirmPassword).value && user == old(user)
      ensures RegisterFormError(email, password, confirmPassword).None? ==>
        notice == RegisterSucceeded && user == Some(RegisterProfile(email, username))
    {
      if !ValidateEmail(email) {
        return InvalidEmail;
      }
      if password != confirmPassword {
        return PasswordMismatch;
      }
      if Utf16Length(password) < MinPasswordLength {
        return PasswordTooShort;
      }
      user := Some(RegisterProfile(email, username));
      return RegisterSucceeded;
    }
  }
}
