/** The play-progress store (store/playStore.js): a user's checkpoint rows,
    the word and paragraph lists for typing, the stories, and the gallery
    images the user's progress has unlocked. Every remote query is an input
    (`Query`), the signed-in session is a boolean, and each asynchronous
    call is one atomic step of a method on `Store`. */
module PlayStore {
  import opened Common

  /** One row of the `user_checkpoint` table; `created_at` is left out. */
  datatype CheckpointRow = CheckpointRow(id: int, chapter_id: int, last_chunk_id: int, user_id: string)

  /** The object passed to `updateCheckpoint`. Callers pass a chapter and a
      chunk; `user_id` is present only when the caller adds one. */
  datatype CheckpointData = CheckpointData(chapter_id: int, last_chunk_id: int, user_id: Option<string>)

  /** One row of `gallery_images`. */
  datatype GalleryImage = GalleryImage(id: int, chapter_id: int, unlock_chunk_id: int)

  /** Rows of the `words`, `paragraphs` and `stories` tables, with the
      fields the play pages read. */
  datatype Word = Word(id: int, word: string, difficulty: string)
  datatype Paragraph = Paragraph(id: int, para: string)
  datatype Chunk = Chunk(chunk_id: int, kind: string)
  datatype Story = Story(id: int, chapter_id: int, title: string, story_chunks: seq<Chunk>)

  /** `userId || ""`: a missing user id becomes the empty string. */
  function UserIdOrEmpty(userId: Option<string>): string
  {
    match userId
    case None => ""
    case Some(u) => u
  }

  /** The local fallback row used when no checkpoint could be fetched:
      the user's row at the start of chapter 1, which unlocks exactly the
      chapter-1 images that need no chunk. */
  function DefaultCheckpoint(userId: Option<string>): (r: CheckpointRow)
    ensures r.id == 0 && r.user_id == UserIdOrEmpty(userId)
    ensures forall img :: Unlocked([r], img) <==> img.chapter_id == 1 && img.unlock_chunk_id <= 0
  {
    CheckpointRow(0, 1, 0, UserIdOrEmpty(userId))
  }

  // ---------------------------------------------------------------------
  // The gallery unlock filter

  /** `checkpointData.find(cp => cp.chapter_id === chapter)`. */
  function FirstForChapter(cps: seq<CheckpointRow>, chapter: int): (r: Option<CheckpointRow>)
    ensures r.None? <==> forall i :: 0 <= i < |cps| ==> cps[i].chapter_id != chapter
    ensures r.Some? ==> exists i :: 0 <= i < |cps| && cps[i] == r.value && cps[i].chapter_id == chapter
                                  && forall j :: 0 <= j < i ==> cps[j].chapter_id != chapter
  {
    if cps == [] then None
    else if cps[0].chapter_id == chapter then Some(cps[0])
    else
      var r := FirstForChapter(cps[1..], chapter);
      assert r.Some? ==> exists i :: 1 <= i < |cps| && cps[i] == r.value && cps[i].chapter_id == chapter
                                   && forall j :: 0 <= j < i ==> cps[j].chapter_id != chapter by {
        if r.Some? {
          var i :| 0 <= i < |cps[1..]| && cps[1..][i] == r.value && cps[1..][i].chapter_id == chapter
                   && forall j :: 0 <= j < i ==> cps[1..][j].chapter_id != chapter;
          assert forall j :: 0 <= j < i + 1 ==> cps[j].chapter_id != chapter by {
            forall j | 0 <= j < i + 1 ensures cps[j].chapter_id != chapter {
              if j > 0 { assert cps[j] == cps[1..][j - 1]; }
            }
          }
        }
      }
      r
  }

  /** The test inside the gallery `filter`: the first checkpoint of the
      image's chapter exists and has reached the image's unlock chunk. */
  predicate Unlocked(cps: seq<CheckpointRow>, img: GalleryImage)
    ensures Unlocked(cps, img) <==>
            exists i :: 0 <= i < |cps| && cps[i].chapter_id == img.chapter_id && img.unlock_chunk_id <= cps[i].last_chunk_id
                        && forall j :: 0 <= j < i ==> cps[j].chapter_id != img.chapter_id
  {
    match FirstForChapter(cps, img.chapter_id)
    case None => false
    case Some(cp) => img.unlock_chunk_id <= cp.last_chunk_id
  }

  /** `a` is `b` with some elements removed, the rest in their order. */
  predicate IsSubsequence<T(==)>(a: seq<T>, b: seq<T>)
    decreases |b|
  {
    if a == [] then true
    else if b == [] then false
    else (a[0] == b[0] && IsSubsequence(a[1..], b[1..])) || IsSubsequence(a, b[1..])
  }

  /** `allImages.filter(...)`: the images the checkpoints unlock. */
  function VisibleImages(cps: seq<CheckpointRow>, images: seq<GalleryImage>): (r: seq<GalleryImage>)
    ensures IsSubsequence(r, images)
    ensures forall img :: img in r <==> img in images && Unlocked(cps, img)
    ensures forall img :: multiset(r)[img] == if Unlocked(cps, img) then multiset(images)[img] else 0
  {
    if images == [] then []
    else
      var rest := VisibleImages(cps, images[1..]);
      assert images == [images[0]] + images[1..];
      if Unlocked(cps, images[0]) then
        assert ([images[0]] + rest)[1..] == rest;
        [images[0]] + rest
      else
        assert rest != [] ==> rest[0] != images[0];
        rest
  }

  /** Every image a weaker set of checkpoints shows, a stronger one shows
      too, in the same order. */
  lemma {:induction false} VisibleMonotone(cps: seq<CheckpointRow>, more: seq<CheckpointRow>, images: seq<GalleryImage>)
    requires forall img :: Unlocked(cps, img) ==> Unlocked(more, img)
    ensures IsSubsequence(VisibleImages(cps, images), VisibleImages(more, images))
  {
    if images != [] {
      VisibleMonotone(cps, more, images[1..]);
      var a, b := VisibleImages(cps, images[1..]), VisibleImages(more, images[1..]);
      if Unlocked(cps, images[0]) {
        assert ([images[0]] + a)[1..] == a && ([images[0]] + b)[1..] == b;
      } else if Unlocked(more, images[0]) {
        assert ([images[0]] + b)[1..] == b;
        assert a == [] || IsSubsequence(a, ([images[0]] + b)[1..]);
      }
    }
  }

  /** Raising one checkpoint's `last_chunk_id` keeps every unlocked image
      unlocked. */
  lemma {:induction false} RaiseKeepsUnlocked(cps: seq<CheckpointRow>, k: nat, last: int, img: GalleryImage)
    requires k < |cps| && cps[k].last_chunk_id <= last
    ensures Unlocked(cps, img) ==> Unlocked(cps[k := cps[k].(last_chunk_id := last)], img)
  {
    var raised := cps[k := cps[k].(last_chunk_id := last)];
    if cps[0].chapter_id != img.chapter_id && k > 0 {
      RaiseKeepsUnlocked(cps[1..], k - 1, last, img);
      assert raised[1..] == cps[1..][k - 1 := cps[k].(last_chunk_id := last)];
    }
  }

  /** Raising a checkpoint's `last_chunk_id` never removes an image from the
      gallery, and keeps the order of those it shows. */
  lemma RaiseNeverHides(cps: seq<CheckpointRow>, k: nat, last: int, images: seq<GalleryImage>)
    requires k < |cps| && cps[k].last_chunk_id <= last
    ensures IsSubsequence(VisibleImages(cps, images), VisibleImages(cps[k := cps[k].(last_chunk_id := last)], images))
    ensures forall img :: img in VisibleImages(cps, images) ==> img in VisibleImages(cps[k := cps[k].(last_chunk_id := last)], images)
  {
    forall img | Unlocked(cps, img) ensures Unlocked(cps[k := cps[k].(last_chunk_id := last)], img) {
      RaiseKeepsUnlocked(cps, k, last, img);
    }
    VisibleMonotone(cps, cps[k := cps[k].(last_chunk_id := last)], images);
  }

  /** No two checkpoints name the same chapter. */
  predicate DistinctChapters(cps: seq<CheckpointRow>)
  {
    forall i, j :: 0 <= i < j < |cps| ==> cps[i].chapter_id != cps[j].chapter_id
  }

  /** With one checkpoint per chapter, an image is visible exactly when some
      checkpoint of its chapter has reached its unlock chunk. */
  lemma UnlockedIffReached(cps: seq<CheckpointRow>, img: GalleryImage)
    requires DistinctChapters(cps)
    ensures Unlocked(cps, img) <==>
            exists i :: 0 <= i < |cps| && cps[i].chapter_id == img.chapter_id && img.unlock_chunk_id <= cps[i].last_chunk_id
  {
    var r := FirstForChapter(cps, img.chapter_id);
    if r.Some? {
      var i :| 0 <= i < |cps| && cps[i] == r.value && cps[i].chapter_id == img.chapter_id
               && forall j :: 0 <= j < i ==> cps[j].chapter_id != img.chapter_id;
      assert forall j :: 0 <= j < |cps| && cps[j].chapter_id == img.chapter_id ==> j == i;
    }
  }

  // ---------------------------------------------------------------------
  // The `user_checkpoint` table as `updateCheckpoint` changes it

  /** The rows `.eq("user_id", userId)` selects. */
  function UserRows(rows: seq<CheckpointRow>, userId: string): (r: seq<CheckpointRow>)
    ensures forall x :: x in r <==> x in rows && x.user_id == userId
    ensures |r| <= |rows|
  {
    if rows == [] then []
    else (if rows[0].user_id == userId then [rows[0]] else []) + UserRows(rows[1..], userId)
  }

  /** A row after `.update(checkpointData)`: the fields the object carries
      are overwritten, the others kept. */
  function Patched(row: CheckpointRow, d: CheckpointData): CheckpointRow
  {
    row.(chapter_id := d.chapter_id, last_chunk_id := d.last_chunk_id,
         user_id := match d.user_id case None => row.user_id case Some(u) => u)
  }

  /** `.update(checkpointData).eq("user_id", userId)` on the whole table. */
  function UpdateRows(rows: seq<CheckpointRow>, userId: string, d: CheckpointData): (r: seq<CheckpointRow>)
    ensures |r| == |rows|
    ensures forall i :: 0 <= i < |rows| ==> r[i] == if rows[i].user_id == userId then Patched(rows[i], d) else rows[i]
  {
    if rows == [] then []
    else [if rows[0].user_id == userId then Patched(rows[0], d) else rows[0]] + UpdateRows(rows[1..], userId, d)
  }

  /** `.insert({ ...checkpointData, user_id: userId })`, with the id the
      table assigns: the explicit `user_id` wins over the spread one. */
  function InsertedRow(id: int, userId: string, d: CheckpointData): CheckpointRow
  {
    CheckpointRow(id, d.chapter_id, d.last_chunk_id, userId)
  }

  /** The table after a successful `updateCheckpoint`: update the user's
      rows when there are any, otherwise insert one. */
  function Upsert(rows: seq<CheckpointRow>, nextId: int, userId: string, d: CheckpointData): (r: seq<CheckpointRow>)
    ensures UserRows(rows, userId) != [] ==> |r| == |rows|
    ensures UserRows(rows, userId) != [] ==>
      forall i :: 0 <= i < |rows| ==>
        if rows[i].user_id == userId then r[i].chapter_id == d.chapter_id && r[i].last_chunk_id == d.last_chunk_id
        else r[i] == rows[i]
    ensures UserRows(rows, userId) == [] ==> r == rows + [CheckpointRow(nextId, d.chapter_id, d.last_chunk_id, userId)]
  {
    if UserRows(rows, userId) != [] then UpdateRows(rows, userId, d)
    else rows + [InsertedRow(nextId, userId, d)]
  }

  lemma {:induction false} UserRowsAppend(rows: seq<CheckpointRow>, extra: seq<CheckpointRow>, userId: string)
    ensures UserRows(rows + extra, userId) == UserRows(rows, userId) + UserRows(extra, userId)
  {
    if rows != [] {
      assert (rows + extra)[1..] == rows[1..] + extra;
      UserRowsAppend(rows[1..], extra, userId);
    } else {
      assert rows + extra == extra;
    }
  }

  lemma {:induction false} UpdateRowsOthers(rows: seq<CheckpointRow>, userId: string, d: CheckpointData, other: string)
    requires other != userId
    requires d.user_id.None? || d.user_id == Some(userId)
    ensures UserRows(UpdateRows(rows, userId, d), other) == UserRows(rows, other)
  {
    if rows != [] {
      UpdateRowsOthers(rows[1..], userId, d, other);
      var r := UpdateRows(rows, userId, d);
      assert r[1..] == UpdateRows(rows[1..], userId, d);
    }
  }

  /** What another user reads back is never changed by the upsert, as long
      as the data does not move rows to another user. */
  lemma UpsertKeepsOthers(rows: seq<CheckpointRow>, nextId: int, userId: string, d: CheckpointData, other: string)
    requires other != userId
    requires d.user_id.None? || d.user_id == Some(userId)
    ensures UserRows(Upsert(rows, nextId, userId, d), other) == UserRows(rows, other)
  {
    if UserRows(rows, userId) != [] {
      UpdateRowsOthers(rows, userId, d, other);
    } else {
      UserRowsAppend(rows, [InsertedRow(nextId, userId, d)], userId);
      UserRowsAppend(rows, [InsertedRow(nextId, userId, d)], other);
    }
  }

  /** After a successful upsert, a fetch of the user's rows finds at least
      one row, and every row it finds is at the written chapter and chunk. */
  lemma UpsertReadBack(rows: seq<CheckpointRow>, nextId: int, userId: string, d: CheckpointData)
    requires d.user_id.None? || d.user_id == Some(userId)
    ensures UserRows(Upsert(rows, nextId, userId, d), userId) != []
    ensures forall x :: x in UserRows(Upsert(rows, nextId, userId, d), userId) ==>
              x.chapter_id == d.chapter_id && x.last_chunk_id == d.last_chunk_id
  {
    var after := Upsert(rows, nextId, userId, d);
    if UserRows(rows, userId) != [] {
      var x := UserRows(rows, userId)[0];
      assert x in rows;
      var i :| 0 <= i < |rows| && rows[i] == x;
      assert after[i] in UserRows(after, userId);
      forall y | y in UserRows(after, userId) ensures y.chapter_id == d.chapter_id && y.last_chunk_id == d.last_chunk_id {
        var j :| 0 <= j < |after| && after[j] == y;
      }
    } else {
      UserRowsAppend(rows, [InsertedRow(nextId, userId, d)], userId);
      assert UserRows([InsertedRow(nextId, userId, d)], userId) == [InsertedRow(nextId, userId, d)];
    }
  }

  /** Running the same update twice changes nothing the first did not. */
  lemma UpdateRowsIdempotent(rows: seq<CheckpointRow>, userId: string, d: CheckpointData)
    ensures UpdateRows(UpdateRows(rows, userId, d), userId, d) == UpdateRows(rows, userId, d)
  {
    var once := UpdateRows(rows, userId, d);
    var twice := UpdateRows(once, userId, d);
    forall i | 0 <= i < |rows| ensures twice[i] == once[i] {
      if rows[i].user_id == userId {
        assert Patched(Patched(rows[i], d), d) == Patched(rows[i], d);
      }
    }
  }

  /** The remote `user_checkpoint` table: its rows and the id it gives the
      next inserted row. */
  class CheckpointTable {
    var rows: seq<CheckpointRow>
    var nextId: int

    constructor (rows: seq<CheckpointRow>, nextId: int)
      ensures this.rows == rows && this.nextId == nextId
    {
      this.rows := rows;
      this.nextId := nextId;
    }
  }

  // ---------------------------------------------------------------------
  // The store

  class Store {
    var words: seq<Word>
    var paras: seq<Paragraph>
    var gameData: seq<Story>
    var checkpoint: seq<CheckpointRow>
    var galleryImages: seq<GalleryImage>
    var isLoading: bool

    constructor ()
      ensures words == [] && paras == [] && gameData == [] && checkpoint == [] && galleryImages == []
      ensures !isLoading
    {
      words, paras, gameData, checkpoint, galleryImages := [], [], [], [], [];
      isLoading := false;
    }

    /** `fetchCheckpoint`: the user's rows, or the single default row when the
        query errs, throws or finds nothing. The default is kept locally and
        never written to the table. */
    method FetchCheckpoint(session: bool, userId: Option<string>, remote: Query<CheckpointRow>)
      modifies this`checkpoint, this`isLoading
      ensures !session ==> checkpoint == old(checkpoint) && isLoading == old(isLoading)
      ensures session ==> !isLoading && |checkpoint| >= 1
      ensures session && remote.Ok? && |remote.rows| > 0 ==> checkpoint == remote.rows
      ensures session && !(remote.Ok? && |remote.rows| > 0) ==>
                checkpoint == [CheckpointRow(0, 1, 0, UserIdOrEmpty(userId))]
    {
      if !session {
        return;
      }
      isLoading := true;
      match remote {
        case Err =>
          checkpoint, isLoading := [DefaultCheckpoint(userId)], false;
          return;
        case Ok(data) =>
          checkpoint := if |data| > 0 then data else [DefaultCheckpoint(userId)];
          isLoading := false;
        case Throw =>
          checkpoint, isLoading := [DefaultCheckpoint(userId)], false;
      }
    }

    /** `updateCheckpoint`: look up the user's rows, then update them or
        insert one. `lookup` is the outcome of the select, `write` that of
        the update or insert; a failed or thrown step writes nothing. */
    method UpdateCheckpoint(session: bool, userId: string, d: CheckpointData, table: CheckpointTable,
                            lookup: Status, write: Status)
      modifies this`isLoading, table
      ensures !session ==> isLoading == old(isLoading)
      ensures session ==> !isLoading
      ensures session && lookup == Done && write == Done ==>
                table.rows == Upsert(old(table.rows), old(table.nextId), userId, d)
      ensures session && lookup == Done && write == Done ==>
                table.nextId == if UserRows(old(table.rows), userId) == [] then old(table.nextId) + 1 else old(table.nextId)
      ensures !(session && lookup == Done && write == Done) ==>
                table.rows == old(table.rows) && table.nextId == old(table.nextId)
    {
      if !session {
        return;
      }
      isLoading := true;
      if lookup == Failed {
        isLoading := false;
        return;
      }
      if lookup == Done {
        var data := UserRows(table.rows, userId);
        if |data| > 0 {
          if write == Done {
            table.rows := UpdateRows(table.rows, userId, d);
          }
        } else {
          if write == Done {
            table.rows := table.rows + [InsertedRow(table.nextId, userId, d)];
            table.nextId := table.nextId + 1;
          }
        }
      }
      // the `catch` and the `finally` both clear the flag
      isLoading := false;
    }

    /** `fetchWords`: the rows of the given difficulty (the server applies
        the filter), or the empty list without a session or on failure. */
    method FetchWords(session: bool, difficulty: string, remote: Query<Word>)
      modifies this`words, this`isLoading
      ensures !isLoading
      ensures session && remote.Ok? ==> words == remote.rows
      ensures !(session && remote.Ok?) ==> words == []
    {
      if !session {
        words, isLoading := [], false;
        return;
      }
      isLoading := true;
      match remote {
        case Err =>
          words, isLoading := [], false;
          return;
        case Ok(data) =>
          words, isLoading := data, false;
        case Throw =>
          words, isLoading := [], false;
      }
    }

    /** `fetchParas`: the paragraphs, or the empty list without a session or
        on failure. */
    method FetchParas(session: bool, remote: Query<Paragraph>)
      modifies this`paras, this`isLoading
      ensures !isLoading
      ensures session && remote.Ok? ==> paras == remote.rows
      ensures !(session && remote.Ok?) ==> paras == []
    {
      if !session {
        paras, isLoading := [], false;
        return;
      }
      isLoading := true;
      match remote {
        case Err =>
          paras, isLoading := [], false;
          return;
        case Ok(data) =>
          paras, isLoading := data, false;
        case Throw =>
          paras, isLoading := [], false;
      }
    }

    /** `fetchStory`: the stories. On a reported error it returns without
        clearing `isLoading`, which then stays true. */
    method FetchStory(session: bool, remote: Query<Story>)
      modifies this`gameData, this`isLoading
      ensures !session ==> gameData == old(gameData) && isLoading == old(isLoading)
      ensures session && remote.Err? ==> gameData == old(gameData) && isLoading
      ensures session && remote.Ok? ==> gameData == remote.rows && !isLoading
      ensures session && remote.Throw? ==> gameData == [] && !isLoading
    {
      if !session {
        return;
      }
      isLoading := true;
      match remote {
        case Err =>
          return;
        case Ok(data) =>
          gameData, isLoading := data, false;
        case Throw =>
          gameData, isLoading := [], false;
      }
    }

    /** `fetchGallery`: fetch the user's checkpoints, then all images, and
        keep the unlocked ones; either failure empties the gallery. The
        checkpoints fetched here do not replace `checkpoint`. */
    method FetchGallery(session: bool, userId: string, checkpoints: Query<CheckpointRow>, images: Query<GalleryImage>)
      modifies this`galleryImages, this`isLoading
      ensures !session ==> galleryImages == old(galleryImages) && isLoading == old(isLoading)
      ensures session ==> !isLoading
      ensures session && checkpoints.Ok? && images.Ok? ==>
                galleryImages == VisibleImages(checkpoints.rows, images.rows)
      ensures session && !(checkpoints.Ok? && images.Ok?) ==> galleryImages == []
    {
      if !session {
        return;
      }
      isLoading := true;
      if !checkpoints.Ok? {
        // a reported error and a thrown one end alike
        galleryImages, isLoading := [], false;
        return;
      }
      if !images.Ok? {
        galleryImages, isLoading := [], false;
        return;
      }
      var filtered := VisibleImages(checkpoints.rows, images.rows);
      galleryImages, isLoading := filtered, false;
    }
  }
}
