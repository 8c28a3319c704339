/**
 The backend's liked-songs service over its repository. The repository is
 a table from user id to that user's `LikedSongs` record; the stored list
 of song ids is a value that each call replaces.
 */
module LikedSongsStore {
  import opened Songs

  const SongAdded := "Song added to liked list!"
  const NoLikedSongs := "No liked songs for user"
  const SongRemoved := "Song removed from liked list!"
  const SongNotFound := "Song not found in liked list"

  /** The persisted record of one user. */
  datatype LikedSongs = LikedSongs(userId: string, likedSongIds: seq<string>)

  predicate NoDuplicates(ids: seq<string>)
  {
    forall i, j :: 0 <= i < j < |ids| ==> ids[i] != ids[j]
  }

  /** The id list `addLikedSong` saves: `[songId]` for a user without a
      record, else the stored list with `songId` appended unless present. */
  function Added(stored: Option<seq<string>>, songId: string): (ids: seq<string>)
    ensures songId in ids
    ensures stored.None? ==> ids == [songId]
    ensures stored.Some? && songId in stored.value ==> ids == stored.value
    ensures stored.Some? && songId !in stored.value ==> ids == stored.value + [songId]
    ensures stored.Some? ==> forall x :: x in stored.value ==> x in ids
    ensures stored.Some? ==> forall x :: x in ids ==> x in stored.value || x == songId
    ensures stored.Some? && NoDuplicates(stored.value) ==> NoDuplicates(ids)
  {
    match stored
    case None => [songId]
    case Some(prev) => if songId in prev then prev else prev + [songId]
  }

  /** `List.indexOf(Object)` for an id that is listed. */
  function IndexOf(ids: seq<string>, songId: string): (i: nat)
    requires songId in ids
    ensures i < |ids| && ids[i] == songId && songId !in ids[..i]
  {
    if ids[0] == songId then 0
    else
      assert ids == [ids[0]] + ids[1..];
      var i := IndexOf(ids[1..], songId);
      assert ids[..i + 1] == [ids[0]] + ids[1..][..i];
      i + 1
  }

  /** Java's `List.remove(Object)`: drop the first occurrence, if any. */
  function RemoveFirst(ids: seq<string>, songId: string): (r: seq<string>)
    ensures songId !in ids ==> r == ids
    ensures songId in ids ==>
              exists i :: 0 <= i < |ids| && ids[i] == songId && songId !in ids[..i] && r == ids[..i] + ids[i + 1..]
    ensures multiset(r) == multiset(ids) - multiset{songId}
  {
    if songId in ids then
      var i := IndexOf(ids, songId);
      assert ids == ids[..i] + [songId] + ids[i + 1..];
      ids[..i] + ids[i + 1..]
    else
      ids
  }

  /** Removing what was just appended to a list without it gives the list
      back. */
  lemma RemoveAfterAdd(ids: seq<string>, songId: string)
    requires songId !in ids
    ensures RemoveFirst(Added(Some(ids), songId), songId) == ids
  {
    var added := ids + [songId];
    assert added[..|ids|] == ids;
    var i :| 0 <= i < |added| && added[i] == songId && songId !in added[..i] &&
             RemoveFirst(added, songId) == added[..i] + added[i + 1..];
    assert i == |ids|;
  }

  /** From a duplicate-free list, the removed id is gone and the list stays
      duplicate-free. */
  lemma RemoveFromUnique(ids: seq<string>, songId: string)
    requires NoDuplicates(ids)
    ensures songId !in RemoveFirst(ids, songId)
    ensures NoDuplicates(RemoveFirst(ids, songId))
  {
    var r := RemoveFirst(ids, songId);
    if songId in ids {
      var i :| 0 <= i < |ids| && ids[i] == songId && songId !in ids[..i] && r == ids[..i] + ids[i + 1..];
      forall a | 0 <= a < |r| ensures r[a] == ids[if a < i then a else a + 1] {
      }
      forall a, b | 0 <= a < b < |r| ensures r[a] != r[b] {
        var a' := if a < i then a else a + 1;
        var b' := if b < i then b else b + 1;
        assert r[a] == ids[a'] && r[b] == ids[b'];
      }
      forall a | 0 <= a < |r| ensures r[a] != songId {
        var a' := if a < i then a else a + 1;
        assert r[a] == ids[a'] && a' != i;
      }
    }
  }

  class LikedSongsService {
    /** `findByUserId` over the repository: user id to record. */
    var table: map<string, LikedSongs>

    /** Every record is filed under its own user id. */
    ghost predicate Valid()
      reads this
    {
      forall u :: u in table ==> table[u].userId == u
    }

    /** No stored list repeats an id. */
    ghost predicate NoDuplicateIds()
      reads this
    {
      forall u :: u in table ==> NoDuplicates(table[u].likedSongIds)
    }

    /** The stored list of `userId`, if a record exists. */
    function Stored(userId: string): (ids: Option<seq<string>>)
      reads this
      ensures ids.Some? <==> userId in table
    {
      if userId in table then Some(table[userId].likedSongIds) else None
    }

    constructor ()
      ensures Valid() && NoDuplicateIds() && table == map[]
    {
      table := map[];
    }

    /** `getLikedSongs(userId)`: the stored record, or null. */
    method GetLikedSongs(userId: string) returns (r: Option<LikedSongs>)
      requires Valid()
      ensures r.Some? <==> userId in table
      ensures r.Some? ==> r.value.userId == userId && Some(r.value.likedSongIds) == Stored(userId)
    {
      if userId in table {
        r := Some(table[userId]);
      } else {
        r := None;
      }
    }

    /** `addLikedSong(userId, songId)`: saves the user's record with `songId`
        added, touches no other user, and always answers `SongAdded`. */
    method AddLikedSong(userId: string, songId: string) returns (msg: string)
      requires Valid()
      modifies this
      ensures Valid()
      ensures msg == SongAdded
      ensures table == old(table)[userId := LikedSongs(userId, Added(old(Stored(userId)), songId))]
      ensures old(NoDuplicateIds()) ==> NoDuplicateIds()
    {
      var record: LikedSongs;
      if userId !in table {
        record := LikedSongs(userId, [songId]);
      } else {
        record := table[userId];
        if songId !in record.likedSongIds {
          record := record.(likedSongIds := record.likedSongIds + [songId]);
        }
      }
      table := table[userId := record];
      msg := SongAdded;
    }

    /** `removeLikedSong(userId, songId)`: without a record, or with
        `songId` not listed, nothing changes and the message says which;
        otherwise the first occurrence is dropped from that user's list. */
    method RemoveLikedSong(userId: string, songId: string) returns (msg: string)
      requires Valid()
      modifies this
      ensures Valid()
      ensures userId !in old(table) ==> msg == NoLikedSongs && table == old(table)
      ensures userId in old(table) && songId !in old(table[userId].likedSongIds) ==>
                msg == SongNotFound && table == old(table)
      ensures userId in old(table) && songId in old(table[userId].likedSongIds) ==>
                && msg == SongRemoved
                && table == old(table)[userId := LikedSongs(userId, RemoveFirst(old(table[userId].likedSongIds), songId))]
      ensures old(NoDuplicateIds()) ==> NoDuplicateIds()
    {
      if userId !in table {
        return NoLikedSongs;
      }
      var record := table[userId];
      if songId in record.likedSongIds {
        if NoDuplicates(record.likedSongIds) {
          RemoveFromUnique(record.likedSongIds, songId);
        }
        table := table[userId := record.(likedSongIds := RemoveFirst(record.likedSongIds, songId))];
        return SongRemoved;
      }
      return SongNotFound;
    }
  }
}
