/** The leaderboard store (store/leaderboardStore.js): the game counters of
    the current round, the per-game leaderboard kept in score order by the
    real-time reducers, the global board and the signed-in user's profile.
    Remote queries are inputs (`Query`, `Status`), the session is a
    boolean, and each asynchronous call is one atomic step. */
module LeaderboardStore {
  import opened Common

  /** One row of the `LeaderBoard` table; `created_at` is left out. */
  datatype Entry = Entry(id: int, user_id: string, userName: string, difficulty: string,
                         words_typed: int, correct_words_typed: int, incorrect_words_typed: int, score: int)

  /** One row of the `global_board` aggregate. */
  datatype GlobalEntry = GlobalEntry(user_id: string, userName: string, total_score: int, total_wpm: int,
                                     highest_wpm: int, avg_accuracy: int, difficulties_played: string,
                                     last_played: Option<string>, total_games_played: int, rank: Option<int>)

  /** What a finished round hands to `saveLeaderboard`. */
  datatype SavePayload = SavePayload(userName: string, difficulty: string, words_typed: int,
                                     correct_words_typed: int, incorrect_words_typed: int, score: int)

  /** The row `saveLeaderboard` inserts: it has no score of its own. */
  datatype Submission = Submission(user_id: string, userName: string, difficulty: string, words_typed: int,
                                   correct_words_typed: int, incorrect_words_typed: int)

  // ---------------------------------------------------------------------
  // Ordering by score: the comparator `(a, b) => b.score - a.score` under
  // a stable sort

  predicate SortedDesc(s: seq<Entry>)
  {
    forall i, j :: 0 <= i < j < |s| ==> s[i].score >= s[j].score
  }

  /** The entries of `s` with score `v`, in their order. Two lists agree on
      every `WithScore` exactly when they order equal scores alike. */
  function WithScore(s: seq<Entry>, v: int): (r: seq<Entry>)
    ensures forall i :: 0 <= i < |r| ==> r[i].score == v
  {
    if s == [] then []
    else (if s[0].score == v then [s[0]] else []) + WithScore(s[1..], v)
  }

  /** Puts `e` before the first entry whose score is at most its own. */
  function InsertByScore(e: Entry, s: seq<Entry>): (r: seq<Entry>)
    ensures multiset(r) == multiset(s) + multiset{e}
    ensures |r| == |s| + 1
  {
    if s == [] || s[0].score <= e.score then [e] + s
    else
      var rest := InsertByScore(e, s[1..]);
      assert s == [s[0]] + s[1..];
      [s[0]] + rest
  }

  /** Inserting into a sorted list keeps it sorted; every entry of the
      result is the new one or an old one. */
  lemma {:induction false} InsertSorted(e: Entry, s: seq<Entry>)
    requires SortedDesc(s)
    ensures SortedDesc(InsertByScore(e, s))
    ensures forall i :: 0 <= i < |InsertByScore(e, s)| ==> InsertByScore(e, s)[i] == e || InsertByScore(e, s)[i] in s
  {
    if s != [] && s[0].score > e.score {
      InsertSorted(e, s[1..]);
      var rest := InsertByScore(e, s[1..]);
      assert forall i :: 0 <= i < |rest| ==> rest[i].score <= s[0].score by {
        forall i | 0 <= i < |rest| ensures rest[i].score <= s[0].score {
          if rest[i] != e {
            var k :| 0 <= k < |s[1..]| && s[1..][k] == rest[i];
            assert s[k + 1] == rest[i];
          }
        }
      }
    }
  }

  /** A stable sort, highest score first. */
  function SortByScore(s: seq<Entry>): (r: seq<Entry>)
    ensures multiset(r) == multiset(s)
    ensures SortedDesc(r)
  {
    if s == [] then []
    else
      assert s == [s[0]] + s[1..];
      var rest := SortByScore(s[1..]);
      InsertSorted(s[0], rest);
      InsertByScore(s[0], rest)
  }

  /** The real-time INSERT reducer:
      `[payload.new, ...state.leaderboard].sort((a, b) => b.score - a.score)`. */
  function ApplyInsert(board: seq<Entry>, entry: Entry): (r: seq<Entry>)
    ensures |r| == |board| + 1
    ensures multiset(r) == multiset(board) + multiset{entry}
    ensures SortedDesc(r)
  {
    SortByScore([entry] + board)
  }

  lemma {:induction false} WithScoreAppend(a: seq<Entry>, b: seq<Entry>, v: int)
    ensures WithScore(a + b, v) == WithScore(a, v) + WithScore(b, v)
  {
    if a == [] {
      assert a + b == b;
    } else {
      assert (a + b)[1..] == a[1..] + b;
      WithScoreAppend(a[1..], b, v);
    }
  }

  /** Inserting keeps the order among equal scores and places the new entry
      before the old entries of its score. */
  lemma {:induction false} InsertStable(e: Entry, s: seq<Entry>, v: int)
    ensures WithScore(InsertByScore(e, s), v) == (if e.score == v then [e] else []) + WithScore(s, v)
  {
    if s == [] || s[0].score <= e.score {
      WithScoreAppend([e], s, v);
    } else {
      InsertStable(e, s[1..], v);
      WithScoreAppend([s[0]], InsertByScore(e, s[1..]), v);
    }
  }

  /** The sort is stable: for every score, the entries with that score keep
      their relative order. */
  lemma {:induction false} SortStable(s: seq<Entry>, v: int)
    ensures WithScore(SortByScore(s), v) == WithScore(s, v)
  {
    if s != [] {
      SortStable(s[1..], v);
      InsertStable(s[0], SortByScore(s[1..]), v);
    }
  }

  /** `a` and `b` list the entries of every score in the same order. */
  ghost predicate SameScoreOrder(a: seq<Entry>, b: seq<Entry>)
  {
    forall v :: WithScore(a, v) == WithScore(b, v)
  }

  /** A sorted list holds an entry of score `v` only if its head scores at
      least `v`. */
  lemma {:induction false} WithScoreBound(s: seq<Entry>, v: int)
    requires SortedDesc(s) && WithScore(s, v) != []
    ensures s != [] && v <= s[0].score
  {
    if s[0].score != v {
      WithScoreBound(s[1..], v);
    }
  }

  lemma WithScoreOfHead(s: seq<Entry>)
    requires s != []
    ensures WithScore(s, s[0].score) != []
  {
  }

  /** Two lists sorted by score that order every score's entries alike are
      the same list. */
  lemma {:induction false} SortedUnique(a: seq<Entry>, b: seq<Entry>)
    requires SortedDesc(a) && SortedDesc(b)
    requires SameScoreOrder(a, b)
    ensures a == b
  {
    if b != [] && a == [] {
      WithScoreOfHead(b);
      assert false;
    } else if a != [] {
      var m := a[0].score;
      assert WithScore(a, m) == [a[0]] + WithScore(a[1..], m);
      WithScoreBound(b, m);
      var m' := b[0].score;
      assert WithScore(b, m') == [b[0]] + WithScore(b[1..], m');
      WithScoreBound(a, m');
      assert WithScore(b, m) == [b[0]] + WithScore(b[1..], m);
      assert a[0] == WithScore(a, m)[0] == WithScore(b, m)[0] == b[0];
      forall v ensures WithScore(a[1..], v) == WithScore(b[1..], v) {
        assert WithScore(a, v) == WithScore(b, v);
        if m == v {
          assert WithScore(a[1..], v) == WithScore(a, v)[1..];
          assert WithScore(b[1..], v) == WithScore(b, v)[1..];
        } else {
          assert WithScore(a[1..], v) == WithScore(a, v);
          assert WithScore(b[1..], v) == WithScore(b, v);
        }
      }
      SortedUnique(a[1..], b[1..]);
      assert a == [a[0]] + a[1..] && b == [b[0]] + b[1..];
    }
  }

  /** `SortByScore` is the one stable sort: a list is its result exactly when
      it is sorted by score and keeps the order of every score's entries. */
  lemma StableSortCharacterized(s: seq<Entry>, r: seq<Entry>)
    ensures r == SortByScore(s) <==> SortedDesc(r) && SameScoreOrder(r, s)
  {
    var sorted := SortByScore(s);
    forall v ensures WithScore(sorted, v) == WithScore(s, v) {
      SortStable(s, v);
    }
    assert SameScoreOrder(sorted, s);
    if SortedDesc(r) && SameScoreOrder(r, s) {
      assert SameScoreOrder(r, sorted) by {
        forall v ensures WithScore(r, v) == WithScore(sorted, v) {
          assert WithScore(r, v) == WithScore(s, v);
        }
      }
      SortedUnique(r, sorted);
    }
  }

  /** The inserted entry comes before every old entry with the same score,
      and the old entries of each score keep their order. */
  lemma InsertKeepsArrivalOrder(board: seq<Entry>, entry: Entry, v: int)
    ensures WithScore(ApplyInsert(board, entry), v) == (if entry.score == v then [entry] else []) + WithScore(board, v)
  {
    SortStable([entry] + board, v);
    WithScoreAppend([entry], board, v);
  }

  lemma {:induction false} SortOfSorted(s: seq<Entry>)
    requires SortedDesc(s)
    ensures SortByScore(s) == s
  {
    if s != [] {
      SortOfSorted(s[1..]);
      assert s == [s[0]] + s[1..];
    }
  }

  /** Inserting into a sorted board puts the entry before the first entry
      whose score is at most its own, and leaves the rest in place. */
  lemma {:induction false} InsertIntoSorted(board: seq<Entry>, entry: Entry) returns (k: nat)
    requires SortedDesc(board)
    ensures k <= |board|
    ensures ApplyInsert(board, entry) == board[..k] + [entry] + board[k..]
    ensures forall i :: 0 <= i < k ==> board[i].score > entry.score
    ensures forall i :: k <= i < |board| ==> board[i].score <= entry.score
  {
    SortOfSorted(board);
    k := InsertionPoint(entry, board);
  }

  lemma {:induction false} InsertionPoint(e: Entry, s: seq<Entry>) returns (k: nat)
    requires SortedDesc(s)
    ensures k <= |s| && InsertByScore(e, s) == s[..k] + [e] + s[k..]
    ensures forall i :: 0 <= i < k ==> s[i].score > e.score
    ensures forall i :: k <= i < |s| ==> s[i].score <= e.score
  {
    if s == [] || s[0].score <= e.score {
      k := 0;
    } else {
      var tail := s[1..];
      var j := InsertionPoint(e, tail);
      k := j + 1;
      assert InsertByScore(e, s) == [s[0]] + InsertByScore(e, tail);
      ConsSplit(s, j, e);
      forall i | 0 <= i < k ensures s[i].score > e.score {
        if i > 0 { assert s[i] == tail[i - 1]; }
      }
      forall i | k <= i < |s| ensures s[i].score <= e.score {
        assert s[i] == tail[i - 1];
      }
    }
  }

  lemma ConsSplit(s: seq<Entry>, j: nat, e: Entry)
    requires j < |s|
    ensures [s[0]] + (s[1..][..j] + [e] + s[1..][j..]) == s[..j + 1] + [e] + s[j + 1..]
  {
    assert s[..j + 1] == [s[0]] + s[1..][..j];
    assert s[j + 1..] == s[1..][j..];
  }

  /** Two INSERT events whose scores differ give the same board in either
      order of arrival. */
  lemma InsertCommutes(board: seq<Entry>, a: Entry, b: Entry)
    requires a.score != b.score
    ensures ApplyInsert(ApplyInsert(board, a), b) == ApplyInsert(ApplyInsert(board, b), a)
  {
    var ab, ba := ApplyInsert(ApplyInsert(board, a), b), ApplyInsert(ApplyInsert(board, b), a);
    forall v ensures WithScore(ab, v) == WithScore(ba, v) {
      InsertTwice(board, a, b, v);
      InsertTwice(board, b, a, v);
    }
    assert SameScoreOrder(ab, ba);
    SortedUnique(ab, ba);
  }

  lemma InsertTwice(board: seq<Entry>, first: Entry, second: Entry, v: int)
    requires first.score != second.score
    ensures first.score != v && second.score != v ==>
              WithScore(ApplyInsert(ApplyInsert(board, first), second), v) == WithScore(board, v)
    ensures first.score == v ==>
              WithScore(ApplyInsert(ApplyInsert(board, first), second), v) == [first] + WithScore(board, v)
    ensures second.score == v ==>
              WithScore(ApplyInsert(ApplyInsert(board, first), second), v) == [second] + WithScore(board, v)
  {
    var once := ApplyInsert(board, first);
    InsertKeepsArrivalOrder(board, first, v);
    InsertKeepsArrivalOrder(once, second, v);
    if first.score == v {
      assert WithScore(once, v) == [first] + WithScore(board, v);
      assert WithScore(ApplyInsert(once, second), v) == WithScore(once, v);
    } else if second.score == v {
      assert WithScore(once, v) == WithScore(board, v);
      assert WithScore(ApplyInsert(once, second), v) == [second] + WithScore(once, v);
    } else {
      assert WithScore(once, v) == WithScore(board, v);
      assert WithScore(ApplyInsert(once, second), v) == WithScore(once, v);
    }
  }

  // ---------------------------------------------------------------------
  // The real-time UPDATE reducer

  /** `state.leaderboard.map(entry => entry.id === payload.new.id ? payload.new : entry)`. */
  function ApplyUpdate(board: seq<Entry>, updated: Entry): (r: seq<Entry>)
    ensures |r| == |board|
    ensures forall i :: 0 <= i < |board| ==> r[i] == if board[i].id == updated.id then updated else board[i]
  {
    if board == [] then []
    else [if board[0].id == updated.id then updated else board[0]] + ApplyUpdate(board[1..], updated)
  }

  /** An update for an id the board does not hold leaves the board as it is. */
  lemma UpdateUnknownId(board: seq<Entry>, updated: Entry)
    requires forall i :: 0 <= i < |board| ==> board[i].id != updated.id
    ensures ApplyUpdate(board, updated) == board
  {
  }

  /** Updates keep every position's id, and applying one twice is applying
      it once. */
  lemma UpdateKeepsIds(board: seq<Entry>, updated: Entry)
    ensures forall i :: 0 <= i < |board| ==> ApplyUpdate(board, updated)[i].id == board[i].id
    ensures ApplyUpdate(ApplyUpdate(board, updated), updated) == ApplyUpdate(board, updated)
  {
  }

  /** The UPDATE reducer does not re-sort: a sorted board stays sorted when
      the update keeps the score of the entries it replaces. */
  lemma UpdateKeepsOrderIfScoreKept(board: seq<Entry>, updated: Entry)
    requires SortedDesc(board)
    requires forall i :: 0 <= i < |board| && board[i].id == updated.id ==> board[i].score == updated.score
    ensures SortedDesc(ApplyUpdate(board, updated))
  {
    var r := ApplyUpdate(board, updated);
    assert forall i :: 0 <= i < |board| ==> r[i].score == board[i].score;
  }

  /** ... and an update that raises a score can leave the board unsorted. */
  lemma UpdateCanUnsort()
    ensures exists board, updated :: SortedDesc(board) && !SortedDesc(ApplyUpdate(board, updated))
  {
    var first := Entry(1, "u1", "A", "easy", 10, 10, 0, 10);
    var second := Entry(2, "u2", "B", "easy", 5, 5, 0, 5);
    var raised := second.(score := 20);
    var r := ApplyUpdate([first, second], raised);
    assert r[0] == first && r[1] == raised;
    assert SortedDesc([first, second]) && !SortedDesc(r);
  }

  // ---------------------------------------------------------------------
  // The profile lookup

  /** The record `fetchProfileData` uses for a user the global board lacks. */
  function DefaultProfile(userId: string): (p: GlobalEntry)
    ensures p.user_id == userId && p.userName == "Anonymous" && p.difficulties_played == ""
    ensures p.total_score == 0 && p.total_wpm == 0 && p.highest_wpm == 0 && p.avg_accuracy == 0 && p.total_games_played == 0
    ensures p.last_played.None? && p.rank.None?
  {
    GlobalEntry(userId, "Anonymous", 0, 0, 0, 0, "", None, 0, None)
  }

  /** The position `leaderboardData.find(player => player?.user_id === userId)` finds. */
  function FindProfileIndex(board: seq<GlobalEntry>, userId: string): (r: Option<nat>)
    ensures r.None? <==> forall i :: 0 <= i < |board| ==> board[i].user_id != userId
    ensures r.Some? ==> r.value < |board| && board[r.value].user_id == userId
                        && forall j :: 0 <= j < r.value ==> board[j].user_id != userId
  {
    if board == [] then None
    else if board[0].user_id == userId then Some(0)
    else match FindProfileIndex(board[1..], userId)
      case None => None
      case Some(i) => Some(i + 1)
  }

  /** The profile stored for `userId`: its first entry on the global board,
      or the default record. It always belongs to `userId`. */
  function ProfileFor(board: seq<GlobalEntry>, userId: string): (p: GlobalEntry)
    ensures p.user_id == userId
    ensures (exists i :: 0 <= i < |board| && board[i].user_id == userId) ==>
              exists i :: 0 <= i < |board| && board[i] == p && forall j :: 0 <= j < i ==> board[j].user_id != userId
    ensures (forall i :: 0 <= i < |board| ==> board[i].user_id != userId) ==> p == DefaultProfile(userId)
  {
    match FindProfileIndex(board, userId)
    case None => DefaultProfile(userId)
    case Some(i) => board[i]
  }

  /** The result of one fetch on the list it replaces: the rows, the old
      list on a reported error, the empty list on an exception. */
  function AfterFetch<T>(previous: seq<T>, q: Query<T>): (r: seq<T>)
    ensures q.Ok? ==> r == q.rows
    ensures q.Err? ==> r == previous
    ensures q.Throw? ==> r == []
  {
    match q
    case Ok(rows) => rows
    case Err => previous
    case Throw => []
  }

  /** JavaScript truthiness of an optional string. */
  predicate Present(s: Option<string>)
  {
    s.Some? && s.value != ""
  }

  /** The remote `LeaderBoard` table as `saveLeaderboard` appends to it. */
  class LeaderboardTable {
    var rows: seq<Submission>

    constructor (rows: seq<Submission>)
      ensures this.rows == rows
    {
      this.rows := rows;
    }
  }

  // ---------------------------------------------------------------------
  // The store

  class Store {
    var userId: Option<string>
    var username: Option<string>
    /** The field as the initial state spells it; nothing writes it. */
    var profilData: Option<GlobalEntry>
    /** The field `fetchProfileData` writes; undefined at the start. */
    var profileData: Option<GlobalEntry>
    var score: int
    var words_typed: int
    var accuracy: int
    var difficulty: string
    var timePlayed: int
    var isGameOver: bool
    var leaderboard: seq<Entry>
    var globalLeaderboard: seq<GlobalEntry>
    var isLoading: bool
    /** Whether a successful `fetchLeaderboard` has registered the
        real-time handlers. */
    var subscribed: bool

    constructor ()
      ensures userId.None? && username.None? && profilData.None? && profileData.None?
      ensures score == 0 && words_typed == 0 && accuracy == 0 && difficulty == "easy" && timePlayed == 0
      ensures !isGameOver && leaderboard == [] && globalLeaderboard == [] && !isLoading && !subscribed
    {
      userId, username, profilData, profileData := None, None, None, None;
      score, words_typed, accuracy, difficulty, timePlayed := 0, 0, 0, "easy", 0;
      isGameOver, leaderboard, globalLeaderboard, isLoading := false, [], [], false;
      subscribed := false;
    }

    /** `setUserDetails`: the user's id and name, nothing else. */
    method SetUserDetails(userId: Option<string>, username: Option<string>)
      modifies this`userId, this`username
      ensures this.userId == userId && this.username == username
    {
      this.userId, this.username := userId, username;
    }

    /** `resetGame`: zero the round's counters; the user, the difficulty and
        both boards are left alone. */
    method ResetGame()
      modifies this`score, this`words_typed, this`accuracy, this`timePlayed, this`isGameOver
      ensures score == 0 && words_typed == 0 && accuracy == 0 && timePlayed == 0 && !isGameOver
      ensures userId == old(userId) && username == old(username) && difficulty == old(difficulty)
      ensures leaderboard == old(leaderboard) && globalLeaderboard == old(globalLeaderboard)
    {
      score, words_typed, accuracy, timePlayed, isGameOver := 0, 0, 0, 0, false;
    }

    /** `fetchGlobalLeaderboard`: the `global_board` rows, also returned.
        On a reported error it returns null and keeps the old list; on an
        exception it empties the list and returns undefined. */
    method FetchGlobalLeaderboard(session: bool, remote: Query<GlobalEntry>) returns (data: Option<seq<GlobalEntry>>)
      modifies this`globalLeaderboard, this`isLoading
      ensures !session ==> data.None? && globalLeaderboard == old(globalLeaderboard) && isLoading == old(isLoading)
      ensures session ==> !isLoading && globalLeaderboard == AfterFetch(old(globalLeaderboard), remote)
      ensures session && remote.Ok? ==> data == Some(remote.rows)
      ensures !remote.Ok? ==> data.None?
    {
      data := None;
      if !session {
        return;
      }
      isLoading := true;
      match remote {
        case Err =>
        case Ok(rows) =>
          globalLeaderboard := rows;
          data := Some(rows);
        case Throw =>
          globalLeaderboard, isLoading := [], false;
      }
      // `finally`
      isLoading := false;
    }

    /** `fetchLeaderboard`: the `LeaderBoard` rows in the server's score
        order; on success the real-time handlers are registered. */
    method FetchLeaderboard(session: bool, remote: Query<Entry>) returns (data: Option<seq<Entry>>)
      modifies this`leaderboard, this`isLoading, this`subscribed
      ensures !session ==> data.None? && leaderboard == old(leaderboard) && isLoading == old(isLoading)
      ensures !session ==> subscribed == old(subscribed)
      ensures session ==> !isLoading && leaderboard == AfterFetch(old(leaderboard), remote)
      ensures subscribed == (old(subscribed) || (session && remote.Ok?))
      ensures session && remote.Ok? ==> data == Some(remote.rows)
      ensures !remote.Ok? ==> data.None?
    {
      data := None;
      if !session {
        return;
      }
      isLoading := true;
      match remote {
        case Err =>
        case Ok(rows) =>
          leaderboard := rows;
          subscribed := true;
          data := Some(rows);
        case Throw =>
          leaderboard, isLoading := [], false;
      }
      isLoading := false;
    }

    /** A real-time INSERT event on `LeaderBoard`. */
    method OnInsert(entry: Entry)
      modifies this`leaderboard
      ensures leaderboard == if subscribed then ApplyInsert(old(leaderboard), entry) else old(leaderboard)
    {
      if subscribed {
        leaderboard := ApplyInsert(leaderboard, entry);
      }
    }

    /** A real-time UPDATE event on `LeaderBoard`. */
    method OnUpdate(entry: Entry)
      modifies this`leaderboard
      ensures leaderboard == if subscribed then ApplyUpdate(old(leaderboard), entry) else old(leaderboard)
    {
      if subscribed {
        leaderboard := ApplyUpdate(leaderboard, entry);
      }
    }

    /** `saveLeaderboard`: insert the round's row, then re-fetch both
        boards. The insert is awaited through a notification promise that
        fails only when the insert throws; an error the insert reports is
        shown as success, and the boards are re-fetched all the same. */
    method SaveLeaderboard(session: bool, userId: string, payload: SavePayload, table: LeaderboardTable,
                           insert: Status, board: Query<Entry>, global: Query<GlobalEntry>)
      modifies table, this`leaderboard, this`globalLeaderboard, this`isLoading, this`subscribed
      ensures !session || insert == Threw ==>
                leaderboard == old(leaderboard) && globalLeaderboard == old(globalLeaderboard) &&
                isLoading == old(isLoading) && subscribed == old(subscribed)
      ensures session && insert == Done ==>
                table.rows == old(table.rows) + [Submission(userId, payload.userName, payload.difficulty, payload.words_typed,
                                                            payload.correct_words_typed, payload.incorrect_words_typed)]
      ensures !(session && insert == Done) ==> table.rows == old(table.rows)
      ensures session && insert != Threw ==>
                !isLoading && leaderboard == AfterFetch(old(leaderboard), board) &&
                globalLeaderboard == AfterFetch(old(globalLeaderboard), global) &&
                subscribed == (old(subscribed) || board.Ok?)
    {
      if !session {
        return;
      }
      if insert == Threw {
        return;
      }
      if insert == Done {
        table.rows := table.rows + [Submission(userId, payload.userName, payload.difficulty, payload.words_typed,
                                               payload.correct_words_typed, payload.incorrect_words_typed)];
      }
      var _ := FetchLeaderboard(session, board);
      var _ := FetchGlobalLeaderboard(session, global);
    }

    /** `fetchProfileData`: the user's global-board record, or the default
        record for a user the board lacks. Without a session or a user id,
        or when the global fetch yields nothing, the profile is kept. */
    method FetchProfileData(session: bool, userId: Option<string>, global: Query<GlobalEntry>)
      modifies this`profileData, this`globalLeaderboard, this`isLoading
      ensures !(session && Present(userId)) ==>
                profileData == old(profileData) && globalLeaderboard == old(globalLeaderboard) && isLoading == old(isLoading)
      ensures session && Present(userId) ==> !isLoading && globalLeaderboard == AfterFetch(old(globalLeaderboard), global)
      ensures session && Present(userId) && global.Ok? ==> profileData == Some(ProfileFor(global.rows, userId.value))
      ensures !global.Ok? ==> profileData == old(profileData)
      ensures profilData == old(profilData)
    {
      if !session || !Present(userId) {
        return;
      }
      isLoading := true;
      var data := FetchGlobalLeaderboard(session, global);
      if data.None? {
        return;
      }
      var i := FindProfileIndex(data.value, userId.value);
      match i {
        case Some(k) =>
          profileData := Some(data.value[k]);
        case None =>
          profileData := Some(DefaultProfile(userId.value));
      }
    }
  }
}
