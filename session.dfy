/** The game page's session bookkeeping: the player's chips and bet across rounds,
    the round in progress and its row in the game table, resuming an unfinished
    round when the page opens, and the out-of-chips dialog. */
module Session {
  import opened Wrappers
  import opened Outcomes
  import opened Storage
  import opened Bidding

  /** The page's state; the defaults are a fresh session. */
  datatype UiState = UiState(
    chips: int := 100,
    betAmount: int := 25,
    gameOn: bool := false,
    gameID: int := 0,
    loading: bool := false,
    showOutOfChipsDialog: bool := false,
    gameCount: int := 0)

  /** The state the page opens with, given the table's newest unfinished round:
      that round is resumed with its chips, bet and key; with none, the session is
      fresh. */
  function ResumedState(last: Option<GameData>): (s: UiState)
  {
    if last.Some? && last.value.result.None? then
      UiState(chips := last.value.chipsValue, betAmount := last.value.betValue,
              gameID := last.value.uid, gameOn := true)
    else UiState()
  }

  /** Opening the page resumes a round exactly when the table holds an unfinished
      one, and then the newest of them, with its chips and bet. */
  lemma ResumesNewestUnfinishedRound(rows: seq<GameData>)
    ensures var s := ResumedState(LastUnresolved(rows));
      && (s.gameOn <==> exists g | g in rows :: g.result.None?)
      && (s.gameOn ==> exists g | g in rows && g.result.None? ::
            g.uid == s.gameID && g.chipsValue == s.chips && g.betValue == s.betAmount)
      && (s.gameOn ==> forall g | g in rows && g.result.None? :: g.uid <= s.gameID)
      && (!s.gameOn ==> s == UiState())
  {
    var last := LastUnresolved(rows);
    if last.Some? {
      assert last.value in rows && last.value.result.None?;
    }
  }

  /** The state after a round ends with `result`: the bet is won, lost or returned,
      the round is over and the round counter moves on. */
  function Settled(s: UiState, result: GameResult): (t: UiState)
    ensures t.chips - s.chips == ChipDelta(result, s.betAmount)
    ensures !t.gameOn && t.gameCount == s.gameCount + 1
    ensures t.(chips := s.chips, gameOn := s.gameOn, gameCount := s.gameCount) == s
  {
    s.(chips := s.chips + ChipDelta(result, s.betAmount), gameOn := false, gameCount := s.gameCount + 1)
  }

  /** The page's check before drawing: the out-of-chips dialog is forced on when the
      chips are gone, and shown while nothing is loading. */
  function OutOfChipsDialogShown(s: UiState): bool
  {
    (s.showOutOfChipsDialog || s.chips <= 0) && !s.loading
  }

  /** From a session with chips and an affordable bet, the chips run out exactly
      when the round loses the whole stack. */
  lemma OutOfChipsOnlyAfterLosingAll(s: UiState, result: GameResult)
    requires s.chips > 0 && 0 <= s.betAmount <= s.chips
    requires !s.showOutOfChipsDialog && !s.loading
    ensures OutOfChipsDialogShown(Settled(s, result)) <==> result == Lose && s.betAmount == s.chips
  {
    match result
    case Win =>
    case Lose =>
    case Draw =>
  }

  /** Going all in on the slider and losing ends the session. */
  lemma AllInLossEndsSession(s: UiState)
    requires s.chips > 0 && !s.showOutOfChipsDialog && !s.loading
    ensures var bet := BetPreset(3, s.chips, s.betAmount);
      OutOfChipsDialogShown(Settled(s.(betAmount := bet), Lose))
  {
    OutOfChipsOnlyAfterLosingAll(s.(betAmount := BetPreset(3, s.chips, s.betAmount)), Lose);
  }

  /** The row `onGameEnd` writes back: the round's key, the new chips, the bet and
      the result. It carries no seed, so the update clears the stored one. */
  function FinishedRow(s: UiState, result: GameResult, now: string): (row: GameData)
    ensures row.uid == s.gameID && row.result == Some(result) && row.deckSeed.None?
  {
    GameData(uid := s.gameID, chipsValue := s.chips, betValue := s.betAmount, date := now,
             result := Some(result))
  }

  /** Once a round's row is replaced by a finished one, no restart resumes it. */
  lemma {:induction false} FinishedRoundIsNotResumed(rows: seq<GameData>, row: GameData)
    requires row.result.Some?
    ensures var after := LastUnresolved(UpdateWhere(rows, row.uid, Replace(row)));
      after.Some? ==> after.value.uid != row.uid && after.value in rows
  {
    if rows != [] {
      var n := |rows|;
      assert UpdateWhere(rows, row.uid, Replace(row))[..n - 1] == UpdateWhere(rows[..n - 1], row.uid, Replace(row));
      FinishedRoundIsNotResumed(rows[..n - 1], row);
    }
  }

  /** `onGameEnd` refuses a round with no row of its own, after settling the chips. */
  datatype SessionError = InvalidGameId(gameID: int)

  class GamePageViewModel {
    const gameDao: GameTable
    var uiState: UiState

    /** Opening the page: the newest unfinished round in the table is resumed. */
    constructor (gameDao: GameTable)
      requires gameDao.Valid()
      ensures this.gameDao == gameDao
      ensures uiState == ResumedState(gameDao.GetLastGame())
    {
      this.gameDao := gameDao;
      uiState := UiState();
      var lastGame := gameDao.GetLastGame();
      if lastGame.Some? && lastGame.value.result.None? {
        uiState := UiState(chips := lastGame.value.chipsValue, betAmount := lastGame.value.betValue,
                           gameID := lastGame.value.uid, gameOn := true);
      }
    }

    /** Starts a round with the placed bet: a new unfinished row records the chips
        and the bet that were in force before, and the page takes the row's key and
        the new bet. A restart then resumes this round, with the earlier bet. */
    method CreateGame(betAmount: int, now: string)
      requires gameDao.Valid()
      modifies this, gameDao
      ensures gameDao.Valid() && gameDao.lastUid == old(gameDao.lastUid) + 1
      ensures var row := GameData(uid := gameDao.lastUid, chipsValue := old(uiState.chips),
                                  betValue := old(uiState.betAmount), date := now, result := None);
        gameDao.rows == old(gameDao.rows) + [row]
      ensures uiState == old(uiState).(gameID := gameDao.lastUid, gameOn := true, betAmount := betAmount, loading := false)
      ensures ResumedState(gameDao.GetLastGame()) ==
        UiState(chips := uiState.chips, betAmount := old(uiState.betAmount), gameID := uiState.gameID, gameOn := true)
    {
      uiState := uiState.(loading := true);
      var inserted := gameDao.InsertGame(GameData(chipsValue := uiState.chips, betValue := uiState.betAmount,
                                                  date := now, result := None));
      var gameID := inserted.value;
      NewestRowIsResumed(old(gameDao.rows), gameDao.rows[|gameDao.rows| - 1]);
      uiState := uiState.(gameID := gameID, gameOn := true, betAmount := betAmount, loading := false);
    }

    /** Back to a fresh session after running out of chips; only the round counter
        is kept. */
    method ResetGame()
      modifies this
      ensures uiState == UiState(gameCount := old(uiState.gameCount))
      ensures !OutOfChipsDialogShown(uiState)
    {
      uiState := uiState.(chips := 100, betAmount := 25, gameOn := false, gameID := 0, loading := false,
                          showOutOfChipsDialog := false);
    }

    /** Ends the round in progress: the chips are settled first; then a round with a
        key has its row replaced by the finished one, and a round without one is
        refused. */
    method OnGameEnd(result: GameResult, now: string) returns (r: Outcome<SessionError>)
      requires gameDao.Valid()
      modifies this, gameDao
      ensures gameDao.Valid() && gameDao.lastUid == old(gameDao.lastUid)
      ensures uiState == Settled(old(uiState), result)
      ensures r.Fail? <==> old(uiState.gameID) <= 0
      ensures r.Fail? ==> r.error == InvalidGameId(old(uiState.gameID)) && gameDao.rows == old(gameDao.rows)
      ensures r == Pass ==>
        var row := FinishedRow(uiState, result, now);
        && gameDao.rows == UpdateWhere(old(gameDao.rows), row.uid, Replace(row))
        && (LastUnresolved(gameDao.rows).Some? ==> LastUnresolved(gameDao.rows).value.uid != old(uiState.gameID))
    {
      uiState := uiState.(chips := uiState.chips + ChipDelta(result, uiState.betAmount));
      uiState := uiState.(gameOn := false, gameCount := uiState.gameCount + 1);
      assert uiState == Settled(old(uiState), result);
      if uiState.gameID > 0 {
        var row := FinishedRow(uiState, result, now);
        gameDao.UpdateGame(row);
        FinishedRoundIsNotResumed(old(gameDao.rows), row);
        r := Pass;
      } else {
        r := Fail(InvalidGameId(uiState.gameID));
      }
    }
  }
}
