/** The persisted game records: the row type, the converter that stores a result as
    its enum name, and the game table with the queries and updates the game uses,
    kept in memory. */
module Storage {
  import opened Wrappers
  import opened Outcomes

  /** One row of the game table. `uid` 0 asks the table to generate the key; a row
      whose `result` is None is a round still in progress. */
  datatype GameData = GameData(
    uid: int := 0,
    chipsValue: int,
    betValue: int,
    date: string,
    result: Option<GameResult>,
    deckSeed: Option<int> := None)

  // ---------------------------------------------------------------------------
  // GameResultConverter

  /** The enum constant's `name`. */
  function ResultName(r: GameResult): string
  {
    match r
    case Win => "WIN"
    case Lose => "LOSE"
    case Draw => "DRAW"
  }

  /** `valueOf` throws IllegalArgumentException for a string naming no constant. */
  datatype ConverterError = NoEnumConstant(name: string)

  function FromGameResult(value: Option<GameResult>): (s: Option<string>)
    ensures value.None? <==> s.None?
  {
    if value.Some? then Some(ResultName(value.value)) else None
  }

  function ToGameResult(value: Option<string>): (r: Result<Option<GameResult>, ConverterError>)
    ensures value.None? ==> r == Success(None)
    ensures r.Failure? <==> value.Some? && value.value !in {"WIN", "LOSE", "DRAW"}
    ensures r.Success? && r.value.Some? ==> value == Some(ResultName(r.value.value))
  {
    match value
    case None => Success(None)
    case Some(s) =>
      if s == "WIN" then Success(Some(Win))
      else if s == "LOSE" then Success(Some(Lose))
      else if s == "DRAW" then Success(Some(Draw))
      else Failure(NoEnumConstant(s))
  }

  /** Storing a result and reading it back gives the same result, and every string
      that reads back successfully is the one that result is stored as. */
  lemma ConverterRoundTrip(r: Option<GameResult>, s: Option<string>)
    ensures ToGameResult(FromGameResult(r)) == Success(r)
    ensures ToGameResult(s).Success? ==> FromGameResult(ToGameResult(s).value) == s
  {
  }

  // ---------------------------------------------------------------------------
  // Queries over the rows

  ghost predicate UniqueUids(rows: seq<GameData>)
  {
    forall i, j :: 0 <= i < j < |rows| ==> rows[i].uid != rows[j].uid
  }

  /** `SELECT * FROM gameData WHERE uid = :uid`. */
  function FindById(rows: seq<GameData>, uid: int): (r: Option<GameData>)
    ensures r.Some? ==> r.value in rows && r.value.uid == uid
    ensures r.None? <==> forall g | g in rows :: g.uid != uid
  {
    if rows == [] then None
    else if rows[|rows| - 1].uid == uid then Some(rows[|rows| - 1])
    else FindById(rows[..|rows| - 1], uid)
  }

  /** With unique keys the row found is the one row with that key. */
  lemma FindByIdIsUnique(rows: seq<GameData>, g: GameData)
    requires UniqueUids(rows) && g in rows
    ensures FindById(rows, g.uid) == Some(g)
  {
    var r := FindById(rows, g.uid);
    var i :| 0 <= i < |rows| && rows[i] == g;
    var j :| 0 <= j < |rows| && rows[j] == r.value;
    assert i == j;
  }

  /** `SELECT * FROM gameData WHERE result IS NULL ORDER BY uid DESC LIMIT 1`: the
      unfinished round with the largest key, if there is one. */
  function LastUnresolved(rows: seq<GameData>): (r: Option<GameData>)
    ensures r.Some? ==> r.value in rows && r.value.result.None?
    ensures r.Some? ==> forall g | g in rows && g.result.None? :: g.uid <= r.value.uid
    ensures r.None? <==> forall g | g in rows :: g.result.Some?
  {
    if rows == [] then None
    else
      var rest := LastUnresolved(rows[..|rows| - 1]);
      var g := rows[|rows| - 1];
      assert forall h | h in rows :: h == g || h in rows[..|rows| - 1];
      if g.result.None? && (rest.None? || g.uid > rest.value.uid) then Some(g) else rest
  }

  /** A new unfinished row with a key above every other is the one a restart resumes. */
  lemma NewestRowIsResumed(rows: seq<GameData>, row: GameData)
    requires row.result.None? && forall g | g in rows :: g.uid < row.uid
    ensures LastUnresolved(rows + [row]) == Some(row)
  {
    assert (rows + [row])[..|rows|] == rows;
  }

  /** The rows with the given key changed by f, every other row as it was. */
  function UpdateWhere(rows: seq<GameData>, uid: int, f: GameData -> GameData): (r: seq<GameData>)
    ensures |r| == |rows|
    ensures forall i :: 0 <= i < |rows| ==> r[i] == if rows[i].uid == uid then f(rows[i]) else rows[i]
  {
    seq(|rows|, i requires 0 <= i < |rows| => if rows[i].uid == uid then f(rows[i]) else rows[i])
  }

  function SetSeed(seed: int): GameData -> GameData
  {
    (g: GameData) => g.(deckSeed := Some(seed))
  }

  function SetResult(result: GameResult): GameData -> GameData
  {
    (g: GameData) => g.(result := Some(result))
  }

  function Replace(row: GameData): GameData -> GameData
  {
    (g: GameData) => row
  }

  /** An update that keeps the key keeps the keys unique. */
  lemma UpdateKeepsUidsUnique(rows: seq<GameData>, uid: int, f: GameData -> GameData)
    requires forall g: GameData :: g.uid == uid ==> f(g).uid == uid
    ensures UniqueUids(rows) ==> UniqueUids(UpdateWhere(rows, uid, f))
  {
  }

  /** Reading a row back after an update: the row with the updated key is the old
      row changed by f, and every other key reads as before. */
  lemma {:induction false} FindAfterUpdate(rows: seq<GameData>, uid: int, f: GameData -> GameData, key: int)
    requires forall g: GameData :: g.uid == uid ==> f(g).uid == uid
    ensures FindById(UpdateWhere(rows, uid, f), key) ==
      if key == uid && FindById(rows, key).Some? then Some(f(FindById(rows, key).value))
      else FindById(rows, key)
  {
    if rows != [] {
      var n := |rows|;
      assert UpdateWhere(rows, uid, f)[..n - 1] == UpdateWhere(rows[..n - 1], uid, f);
      FindAfterUpdate(rows[..n - 1], uid, f, key);
    }
  }

  /** The seed update leaves the result column alone, so the unfinished round the
      game resumes is the same round, with its new seed. */
  lemma {:induction false} LastUnresolvedAfterSeedUpdate(rows: seq<GameData>, uid: int, seed: int)
    ensures var before := LastUnresolved(rows);
      LastUnresolved(UpdateWhere(rows, uid, SetSeed(seed))) ==
        if before.Some? && before.value.uid == uid then Some(before.value.(deckSeed := Some(seed)))
        else before
  {
    if rows != [] {
      var n := |rows|;
      assert UpdateWhere(rows, uid, SetSeed(seed))[..n - 1] == UpdateWhere(rows[..n - 1], uid, SetSeed(seed));
      LastUnresolvedAfterSeedUpdate(rows[..n - 1], uid, seed);
    }
  }

  /** Writing a result finishes the round: the row no longer counts as unfinished. */
  lemma {:induction false} ResultUpdateFinishesRound(rows: seq<GameData>, uid: int, result: GameResult)
    ensures var after := LastUnresolved(UpdateWhere(rows, uid, SetResult(result)));
      after.Some? ==> after.value.uid != uid && after.value in rows
  {
    if rows != [] {
      var n := |rows|;
      assert UpdateWhere(rows, uid, SetResult(result))[..n - 1] == UpdateWhere(rows[..n - 1], uid, SetResult(result));
      ResultUpdateFinishesRound(rows[..n - 1], uid, result);
    }
  }

  // ---------------------------------------------------------------------------
  // The table

  /** Inserting a row whose key is taken violates the primary key. */
  datatype DaoError = UniqueConstraintFailed(uid: int)

  /** The game table. `lastUid` is the largest key ever handed out, from which an
      auto-generated key continues. */
  class GameTable {
    var rows: seq<GameData>
    var lastUid: int

    ghost predicate Valid()
      reads this
    {
      && UniqueUids(rows)
      && lastUid >= 0
      && forall g | g in rows :: g.uid != 0 && g.uid <= lastUid
    }

    constructor ()
      ensures Valid() && rows == [] && lastUid == 0
    {
      rows := [];
      lastUid := 0;
    }

    /** `insertGame`: a row with key 0 gets the next key; a row with a key of its own
        keeps it, unless the key is taken. Returns the row's key. */
    method InsertGame(g: GameData) returns (r: Result<int, DaoError>)
      requires Valid()
      modifies this
      ensures Valid()
      ensures g.uid == 0 ==> r == Success(old(lastUid) + 1) && rows == old(rows) + [g.(uid := old(lastUid) + 1)]
      ensures g.uid == 0 ==> lastUid == old(lastUid) + 1
      ensures g.uid != 0 && old(FindById(rows, g.uid)).Some? ==>
        r == Failure(UniqueConstraintFailed(g.uid)) && rows == old(rows) && lastUid == old(lastUid)
      ensures g.uid != 0 && old(FindById(rows, g.uid)).None? ==> r == Success(g.uid) && rows == old(rows) + [g]
      ensures g.uid != 0 && old(FindById(rows, g.uid)).None? ==>
        lastUid == if g.uid > old(lastUid) then g.uid else old(lastUid)
      ensures r.Success? ==> FindById(rows, r.value).Some?
    {
      if g.uid == 0 {
        var id := lastUid + 1;
        rows := rows + [g.(uid := id)];
        lastUid := id;
        r := Success(id);
      } else if FindById(rows, g.uid).Some? {
        r := Failure(UniqueConstraintFailed(g.uid));
      } else {
        rows := rows + [g];
        if g.uid > lastUid {
          lastUid := g.uid;
        }
        r := Success(g.uid);
      }
    }

    /** `getGameById`. */
    function GetGameById(uid: int): (r: Option<GameData>)
      reads this
      requires Valid()
      ensures r.Some? ==> r.value in rows && r.value.uid == uid
      ensures r.None? <==> forall g | g in rows :: g.uid != uid
    {
      FindById(rows, uid)
    }

    /** `getLastGame`. */
    function GetLastGame(): (r: Option<GameData>)
      reads this
      requires Valid()
      ensures r.Some? ==> r.value in rows && r.value.result.None?
      ensures r.Some? ==> forall g | g in rows && g.result.None? :: g.uid <= r.value.uid
      ensures r.None? <==> forall g | g in rows :: g.result.Some?
    {
      LastUnresolved(rows)
    }

    /** `updateGame`: the row with the record's key is replaced by the record. */
    method UpdateGame(g: GameData)
      requires Valid()
      modifies this
      ensures Valid()
      ensures rows == UpdateWhere(old(rows), g.uid, Replace(g)) && lastUid == old(lastUid)
    {
      UpdateKeepsUidsUnique(rows, g.uid, Replace(g));
      rows := UpdateWhere(rows, g.uid, Replace(g));
    }

    /** `updateGameSeed`: sets only the deck seed of the row with that key. */
    method UpdateGameSeed(uid: int, seed: int)
      requires Valid()
      modifies this
      ensures Valid()
      ensures rows == UpdateWhere(old(rows), uid, SetSeed(seed)) && lastUid == old(lastUid)
    {
      UpdateKeepsUidsUnique(rows, uid, SetSeed(seed));
      rows := UpdateWhere(rows, uid, SetSeed(seed));
    }

    /** `updateGameResult`: sets only the result of the row with that key. */
    method UpdateGameResult(uid: int, result: GameResult)
      requires Valid()
      modifies this
      ensures Valid()
      ensures rows == UpdateWhere(old(rows), uid, SetResult(result)) && lastUid == old(lastUid)
    {
      UpdateKeepsUidsUnique(rows, uid, SetResult(result));
      rows := UpdateWhere(rows, uid, SetResult(result));
    }

    /** `deleteGame`: removes the row with the record's key. */
    method DeleteGame(g: GameData)
      requires Valid()
      modifies this
      ensures Valid()
      ensures forall h :: h in rows <==> h in old(rows) && h.uid != g.uid
      ensures FindById(rows, g.uid).None? && lastUid == old(lastUid)
    {
      var kept: seq<GameData> := [];
      for i := 0 to |rows|
        invariant forall h :: h in kept <==> h in rows[..i] && h.uid != g.uid
        invariant UniqueUids(kept)
      {
        if rows[i].uid != g.uid {
          forall h | h in kept
            ensures h.uid != rows[i].uid
          {
            var x :| 0 <= x < i && rows[x] == h;
          }
          kept := kept + [rows[i]];
        }
      }
      assert rows[..|rows|] == rows;
      rows := kept;
    }
  }
}
