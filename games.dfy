/**
 * The game catalog and round engine (`GameManager`): loading a game, placing a bet within the
 * catalog's limits and the user's balance, and settling a round into the session's balance.
 * `Math.random()` is a sequence of draws in [0, 1) passed in, consumed in the order the source
 * draws them; timers are taken as instantaneous and notifications are no-ops.
 */
module Games {
  import opened Wrappers
  import Auth

  datatype GameInfo = GameInfo(name: string, minBet: real, maxBet: real, demo: bool)

  /** The five games, their betting limits and whether they can be played without signing in. */
  function AvailableGames(): (games: map<string, GameInfo>)
    ensures games.Keys == {"slots", "roulette", "blackjack", "poker", "crash"}
    ensures forall id :: id in games ==> 0.0 < games[id].minBet <= games[id].maxBet
    ensures forall id :: id in games ==> (!games[id].demo <==> id == "blackjack" || id == "poker")
  {
    map[
      "slots" := GameInfo("Слоты", 1.0, 1000.0, true),
      "roulette" := GameInfo("Рулетка", 5.0, 5000.0, true),
      "blackjack" := GameInfo("Блэкджек", 10.0, 10000.0, false),
      "poker" := GameInfo("Покер", 20.0, 20000.0, false),
      "crash" := GameInfo("Crash", 1.0, 5000.0, true)
    ]
  }

  /** `getGameInfo`: the catalog entry, absent for an unknown id. */
  function GetGameInfo(gameId: string): (info: Option<GameInfo>)
    ensures info.None? <==> gameId !in AvailableGames()
    ensures info.Some? ==> 0.0 < info.value.minBet <= info.value.maxBet
  {
    if gameId in AvailableGames() then Some(AvailableGames()[gameId]) else None
  }

  /** What one round reports. Slots add the reels shown; crash adds the crash point. */
  datatype GameResult =
    | Outcome(win: bool, multiplier: real, amount: real)
    | SlotsOutcome(win: bool, multiplier: real, amount: real, reels: seq<string>)
    | CrashOutcome(win: bool, multiplier: real, amount: real, crashedAt: real)

  /** A stream of `Math.random()` results: enough for one round, each in [0, 1). */
  predicate ValidDraws(draws: seq<real>) {
    |draws| >= 4 && forall k :: 0 <= k < |draws| ==> 0.0 <= draws[k] < 1.0
  }

  const Symbols: seq<string> := ["7", "BAR", "CHERRY", "BELL", "DIAMOND"]

  /** `Math.floor(draw * symbols.length)`: a valid reel position, each taking a fifth of [0, 1). */
  function ReelIndex(draw: real): (i: nat)
    requires 0.0 <= draw < 1.0
    ensures i < |Symbols|
    ensures (i as real) / 5.0 <= draw < (i as real + 1.0) / 5.0
  {
    (draw * (|Symbols| as real)).Floor
  }

  /** `simulateSlots`: three equal reels pay ten times the bet, a pair pays twice, otherwise nothing. */
  function SimulateSlots(bet: real, d1: real, d2: real, d3: real): (r: GameResult)
    requires 0.0 <= d1 < 1.0 && 0.0 <= d2 < 1.0 && 0.0 <= d3 < 1.0
    ensures r.SlotsOutcome?
    ensures r.reels == [Symbols[ReelIndex(d1)], Symbols[ReelIndex(d2)], Symbols[ReelIndex(d3)]]
    ensures r.amount == bet * r.multiplier
    ensures r.win <==> r.multiplier != 0.0
  {
    var reels := [Symbols[ReelIndex(d1)], Symbols[ReelIndex(d2)], Symbols[ReelIndex(d3)]];
    var allSame := reels[0] == reels[1] && reels[1] == reels[2];
    var twoSame := reels[0] == reels[1] || reels[1] == reels[2] || reels[0] == reels[2];
    if allSame then SlotsOutcome(true, 10.0, bet * 10.0, reels)
    else if twoSame then SlotsOutcome(true, 2.0, bet * 2.0, reels)
    else SlotsOutcome(false, 0.0, 0.0, reels)
  }

  /** The slots multiplier depends only on how many different symbols the three reels show. */
  lemma SlotsPayByDistinctSymbols(bet: real, d1: real, d2: real, d3: real)
    requires 0.0 <= d1 < 1.0 && 0.0 <= d2 < 1.0 && 0.0 <= d3 < 1.0
    ensures var r := SimulateSlots(bet, d1, d2, d3);
      var distinct := |{r.reels[0], r.reels[1], r.reels[2]}|;
      && (distinct == 1 <==> r.multiplier == 10.0)
      && (distinct == 2 <==> r.multiplier == 2.0)
      && (distinct == 3 <==> !r.win && r.multiplier == 0.0 && r.amount == 0.0)
  {
  }

  /** The generic round: a win exactly when the first draw exceeds 0.4, paying 1x up to 4x. */
  function SimulateGeneric(bet: real, first: real, second: real): (r: GameResult)
    requires 0.0 <= first < 1.0 && 0.0 <= second < 1.0
    ensures r.Outcome?
    ensures r.win <==> first > 0.4
    ensures r.win ==> 1.0 <= r.multiplier < 4.0 && r.amount == bet * r.multiplier
    ensures !r.win ==> r.multiplier == 0.0 && r.amount == 0.0
  {
    if first > 0.4 then
      var multiplier := 1.0 + second * 3.0;
      Outcome(true, multiplier, bet * multiplier)
    else
      Outcome(false, 0.0, 0.0)
  }

  /**
   * `simulateCrash` as it returns: the interval that would raise the multiplier and set
   * `crashed` cannot run before `return`, so the round is a win at 1x; the crash point is only reported.
   */
  function SimulateCrash(bet: real, draw: real): (r: GameResult)
    requires 0.0 <= draw < 1.0
    ensures r.CrashOutcome? && r.win && r.multiplier == 1.0 && r.amount == bet
    ensures 1.0 <= r.crashedAt < 11.0
  {
    CrashOutcome(true, 1.0, bet * 1.0, 1.0 + draw * 10.0)
  }

  /** `simulateGameResult`: one draw is always taken first; slots and crash then draw their own. */
  function SimulateGameResult(game: string, bet: real, draws: seq<real>): (r: GameResult)
    requires ValidDraws(draws)
    ensures r.SlotsOutcome? <==> game == "slots"
    ensures r.CrashOutcome? <==> game == "crash"
    ensures r.win ==> 1.0 <= r.multiplier <= 10.0 && r.amount == bet * r.multiplier
    ensures !r.win ==> r.multiplier == 0.0 && r.amount == 0.0
  {
    if game == "slots" then SimulateSlots(bet, draws[1], draws[2], draws[3])
    else if game == "crash" then SimulateCrash(bet, draws[1])
    else SimulateGeneric(bet, draws[0], draws[1])
  }

  /** The amount `play` passes to `updateBalance`: the payout on a win, minus the stake on a loss. */
  function Settlement(bet: real, result: GameResult): (delta: real)
    ensures bet > 0.0 && result.multiplier >= 0.0 ==> (delta >= 0.0 <==> result.win)
  {
    if result.win then bet * result.multiplier else -bet
  }

  /**
   * For a positive bet, a round moves the balance by minus the stake, or by the reported
   * payout, which lies between one and ten stakes.
   */
  lemma SettlementBounds(game: string, bet: real, draws: seq<real>)
    requires ValidDraws(draws) && bet > 0.0
    ensures var r := SimulateGameResult(game, bet, draws);
      var delta := Settlement(bet, r);
      && (!r.win <==> delta == -bet)
      && (r.win ==> delta == r.amount && bet <= delta <= 10.0 * bet)
  {
  }

  /**
   * A bet equal to the whole balance passes the funds check; since `play` keeps the bet,
   * losing twice leaves the balance negative.
   */
  lemma RepeatedLossOverdraws(s: Auth.Session, result: GameResult)
    requires Auth.WellFormed(s) && s.currentUser.Some? && !result.win
    requires Auth.BalanceOf(s.currentUser.value) > 0.0
    ensures var bet := Auth.BalanceOf(s.currentUser.value);
      var t := Auth.Credited(Auth.Credited(s, Settlement(bet, result)), Settlement(bet, result));
      Auth.BalanceOf(t.currentUser.value) == -bet < 0.0
  {
  }

  /**
   * The whole sequence behind `RepeatedLossOverdraws`: a fresh login (balance 100), roulette
   * loaded, a bet of the whole balance accepted by the funds check, and two losing rounds
   * settled with the same bet.
   */
  method ReplayedBetOverdraws() returns (balance: real)
    ensures balance == -100.0
  {
    var auth := new Auth.AuthManager(map[]);
    var _ := auth.Login("a@b.com", "secret", 0);
    var games := new GameManager();
    var loaded := games.LoadGame("roulette", auth);
    assert loaded == Normal(true);
    var placed := games.PlaceBet(100.0, auth);
    assert placed == Normal(true);
    var draws := [0.1, 0.5, 0.5, 0.5];
    var first := games.Play(auth, draws);
    var second := games.Play(auth, draws);
    assert !SimulateGameResult("roulette", 100.0, draws).win;
    balance := Auth.BalanceOf(auth.currentUser.value);
  }

  const DefaultGameBalance: real := 100.0

  /** `authManager.getCurrentUser()?.balance || 100`: a balance of 0 is falsy and also becomes 100. */
  function GameStateBalance(user: Option<Auth.JsObject>): (balance: real)
    requires user.Some? ==> Auth.HasBalance(user.value)
    ensures balance != 0.0
    ensures user.Some? && Auth.BalanceOf(user.value) != 0.0 ==> balance == Auth.BalanceOf(user.value)
    ensures user.None? || Auth.BalanceOf(user.value) == 0.0 ==> balance == DefaultGameBalance
  {
    match user
    case Some(u) => if Auth.BalanceOf(u) != 0.0 then Auth.BalanceOf(u) else DefaultGameBalance
    case None => DefaultGameBalance
  }

  /** `gameState`: the empty object until a game is initialised. */
  datatype GameState = Unloaded | Loaded(gameId: string, balance: real, bet: real)

  const GameNotFound: string := "Game not found"
  const GameNotLoaded: string := "Game not loaded"

  class GameManager {
    var currentGame: Option<string>
    var gameState: GameState

    /** A loaded round belongs to the current game and its bet is within that game's limits. */
    ghost predicate Valid()
      reads this
    {
      gameState.Loaded? ==>
        && gameState.gameId in AvailableGames()
        && currentGame == Some(gameState.gameId)
        && AvailableGames()[gameState.gameId].minBet <= gameState.bet <= AvailableGames()[gameState.gameId].maxBet
    }

    constructor ()
      ensures Valid()
      ensures currentGame == None && gameState == Unloaded
    {
      currentGame := None;
      gameState := Unloaded;
    }

    /**
     * `loadGame`: an unknown id throws; a game that is not a demo needs a signed-in user;
     * otherwise the game becomes current and its round is initialised.
     */
    method LoadGame(gameId: string, auth: Auth.AuthManager) returns (r: Completion<bool>)
      requires Valid() && auth.Valid()
      modifies this
      ensures Valid()
      ensures gameId !in AvailableGames() ==>
        r == Thrown(GameNotFound) && currentGame == old(currentGame) && gameState == old(gameState)
      ensures gameId in AvailableGames() && !AvailableGames()[gameId].demo && auth.currentUser.None? ==>
        r == Normal(false) && currentGame == old(currentGame) && gameState == old(gameState)
      ensures gameId in AvailableGames() && (AvailableGames()[gameId].demo || auth.currentUser.Some?) ==>
        && r == Normal(true) && currentGame == Some(gameId)
        && gameState == Loaded(gameId, GameStateBalance(auth.currentUser), AvailableGames()[gameId].minBet)
    {
      if gameId !in AvailableGames() {
        return Thrown(GameNotFound);
      }
      var game := AvailableGames()[gameId];
      if !game.demo && auth.GetCurrentUser().None? {
        return Normal(false);
      }
      currentGame := Some(gameId);
      InitializeGame(gameId, auth);
      return Normal(true);
    }

    /** `initializeGame`: a fresh round whose bet is the game's minimum. */
    method InitializeGame(gameId: string, auth: Auth.AuthManager)
      requires gameId in AvailableGames() && auth.Valid()
      modifies this`gameState
      ensures gameState == Loaded(gameId, GameStateBalance(auth.currentUser), AvailableGames()[gameId].minBet)
    {
      gameState := Loaded(gameId, GameStateBalance(auth.GetCurrentUser()), AvailableGames()[gameId].minBet);
    }

    /**
     * `placeBet`: throws when no game is loaded; refuses an amount outside the game's limits,
     * or above the balance of a signed-in user; otherwise records the amount as the bet.
     */
    method PlaceBet(amount: real, auth: Auth.AuthManager) returns (r: Completion<bool>)
      requires Valid() && auth.Valid()
      modifies this`gameState
      ensures Valid()
      ensures old(gameState).Unloaded? ==> r == Thrown(GameNotLoaded)
      ensures old(gameState).Loaded? ==>
        var game := AvailableGames()[old(gameState).gameId];
        var accepted := && game.minBet <= amount <= game.maxBet
                        && (auth.currentUser.Some? ==> amount <= Auth.BalanceOf(auth.currentUser.value));
        r == Normal(accepted)
      ensures r == Normal(true) ==> gameState == old(gameState).(bet := amount)
      ensures r != Normal(true) ==> gameState == old(gameState)
    {
      if gameState.Unloaded? {
        return Thrown(GameNotLoaded);
      }
      var game := AvailableGames()[currentGame.value];
      if amount < game.minBet || amount > game.maxBet {
        return Normal(false);
      }
      var user := auth.GetCurrentUser();
      if user.Some? && amount > Auth.BalanceOf(user.value) {
        return Normal(false);
      }
      gameState := gameState.(bet := amount);
      return Normal(true);
    }

    /**
     * `play`: throws when no game is loaded; otherwise settles one round into the signed-in
     * user's balance. The bet is left in place, so a further call settles again.
     */
    method Play(auth: Auth.AuthManager, draws: seq<real>) returns (r: Completion<Option<GameResult>>)
      requires Valid() && auth.Valid() && ValidDraws(draws)
      modifies auth
      ensures auth.Valid()
      ensures gameState == old(gameState) && currentGame == old(currentGame)
      ensures gameState.Unloaded? ==> r == Thrown(GameNotLoaded) && auth.State() == old(auth.State())
      ensures gameState.Loaded? ==>
        var result := SimulateGameResult(gameState.gameId, gameState.bet, draws);
        && r == Normal(Some(result))
        && auth.State() == Auth.Credited(old(auth.State()), Settlement(gameState.bet, result))
    {
      if gameState.Unloaded? {
        return Thrown(GameNotLoaded);
      }
      if gameState.bet == 0.0 {
        return Normal(None);
      }
      var result := SimulateGameResult(currentGame.value, gameState.bet, draws);
      if auth.GetCurrentUser().Some? {
        var winAmount := if result.win then gameState.bet * result.multiplier else -gameState.bet;
        assert winAmount == Settlement(gameState.bet, result);
        var _ := auth.UpdateBalance(winAmount);
      } else {
        assert auth.State() == Auth.Credited(auth.State(), Settlement(gameState.bet, result));
      }
      return Normal(Some(result));
    }
  }
}
