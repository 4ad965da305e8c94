/**
 * The liked/recent track store: two lists of tracks that every action
 * replaces wholesale with a value computed from the previous one.
 */
module MusicStore {
  import opened Wrappers

  datatype Track = Track(
    id: string,
    title: string,
    description: Option<string>,
    mood: string,
    genre: string,
    audioUrl: string,
    duration: real)

  /** The recent list keeps at most this many tracks (`slice(0, 10)`). */
  const MaxRecent: nat := 10

  /** `tracks.some(t => t.id === id)`. */
  function HasId(tracks: seq<Track>, id: string): (b: bool)
    ensures b <==> exists i :: 0 <= i < |tracks| && tracks[i].id == id
  {
    if tracks == [] then false
    else if tracks[0].id == id then true
    else
      var b := HasId(tracks[1..], id);
      assert forall i :: 1 <= i < |tracks| ==> tracks[i] == tracks[1..][i - 1];
      b
  }

  /** No two entries share an id. */
  ghost predicate NoDupIds(tracks: seq<Track>)
  {
    forall i, j :: 0 <= i < j < |tracks| ==> tracks[i].id != tracks[j].id
  }

  /** `tracks.filter(t => t.id !== id)`. */
  function WithoutId(tracks: seq<Track>, id: string): (r: seq<Track>)
    ensures |r| <= |tracks|
    ensures forall i :: 0 <= i < |r| ==> r[i].id != id
    ensures !HasId(tracks, id) ==> r == tracks
  {
    if tracks == [] then []
    else
      var rest := WithoutId(tracks[1..], id);
      if tracks[0].id == id then rest else [tracks[0]] + rest
  }

  /** The filter keeps every entry with another id, as often as it occurred, and nothing else. */
  lemma {:induction false} WithoutIdKeepsOthers(tracks: seq<Track>, id: string)
    ensures forall t: Track :: t.id != id ==> multiset(WithoutId(tracks, id))[t] == multiset(tracks)[t]
    ensures forall t :: t in WithoutId(tracks, id) ==> t in tracks
  {
    if tracks != [] {
      WithoutIdKeepsOthers(tracks[1..], id);
      assert tracks == [tracks[0]] + tracks[1..];
    }
  }

  /** The new liked list of `addLikedTrack`: drop the old copy, append the track. */
  function AddLiked(liked: seq<Track>, track: Track): (r: seq<Track>)
    ensures |r| >= 1 && r[|r| - 1] == track
    ensures forall i :: 0 <= i < |r| - 1 ==> r[i].id != track.id
    ensures forall t: Track :: t.id != track.id ==> multiset(r)[t] == multiset(liked)[t]
  {
    WithoutIdKeepsOthers(liked, track.id);
    WithoutId(liked, track.id) + [track]
  }

  /** `slice(0, n)`: the first n elements, or all of them when there are fewer. */
  function Take(s: seq<Track>, n: nat): (r: seq<Track>)
    ensures |r| == if |s| <= n then |s| else n
    ensures r == s[..|r|]
  {
    if |s| <= n then s else s[..n]
  }

  /** The new recent list of `addRecentTrack`: the track first, its old copy gone, cut to ten. */
  function AddRecent(recent: seq<Track>, track: Track): (r: seq<Track>)
    ensures 1 <= |r| <= MaxRecent && r[0] == track
    ensures |r| == if |WithoutId(recent, track.id)| < MaxRecent
                   then |WithoutId(recent, track.id)| + 1 else MaxRecent
    ensures forall i :: 1 <= i < |r| ==> r[i].id != track.id
    ensures r[1..] == WithoutId(recent, track.id)[..|r| - 1]
  {
    var r := Take([track] + WithoutId(recent, track.id), MaxRecent);
    assert r[1..] == ([track] + WithoutId(recent, track.id))[1..|r|];
    r
  }

  // ---------------------------------------------------------------------------
  // Properties of the filter
  // ---------------------------------------------------------------------------

  /** Filtering distributes over concatenation, so it keeps the relative order of what it keeps. */
  lemma {:induction false} WithoutIdAppend(a: seq<Track>, b: seq<Track>, id: string)
    ensures WithoutId(a + b, id) == WithoutId(a, id) + WithoutId(b, id)
  {
    if a == [] {
      assert a + b == b;
    } else {
      assert (a + b)[0] == a[0];
      assert (a + b)[1..] == a[1..] + b;
      WithoutIdAppend(a[1..], b, id);
    }
  }

  /** Filtering never introduces an id that was absent. */
  lemma {:induction false} WithoutIdLacks(tracks: seq<Track>, id: string, other: string)
    requires !HasId(tracks, other)
    ensures !HasId(WithoutId(tracks, id), other)
  {
    if tracks != [] {
      WithoutIdLacks(tracks[1..], id, other);
    }
  }

  lemma NoDupTail(tracks: seq<Track>)
    requires NoDupIds(tracks) && tracks != []
    ensures NoDupIds(tracks[1..]) && !HasId(tracks[1..], tracks[0].id)
  {
    var rest := tracks[1..];
    forall i | 0 <= i < |rest| ensures rest[i] == tracks[i + 1] { }
  }

  lemma NoDupCons(a: Track, w: seq<Track>)
    requires NoDupIds(w) && !HasId(w, a.id)
    ensures NoDupIds([a] + w)
  {
    var s := [a] + w;
    forall k | 1 <= k < |s| ensures s[k] == w[k - 1] { }
  }

  lemma {:induction false} WithoutIdNoDup(tracks: seq<Track>, id: string)
    requires NoDupIds(tracks)
    ensures NoDupIds(WithoutId(tracks, id))
  {
    if tracks != [] {
      var rest := tracks[1..];
      NoDupTail(tracks);
      WithoutIdNoDup(rest, id);
      if tracks[0].id != id {
        WithoutIdLacks(rest, id, tracks[0].id);
        NoDupCons(tracks[0], WithoutId(rest, id));
      }
    }
  }

  /** Removing an absent id from a filtered list that already lacks it changes nothing. */
  lemma WithoutIdTwice(tracks: seq<Track>, id: string)
    ensures WithoutId(WithoutId(tracks, id), id) == WithoutId(tracks, id)
  {
  }

  // ---------------------------------------------------------------------------
  // Properties of the liked list
  // ---------------------------------------------------------------------------

  /** Besides the new track, the liked list holds exactly the old entries with other ids, in order. */
  lemma AddLikedKeepsOthers(liked: seq<Track>, track: Track)
    ensures WithoutId(AddLiked(liked, track), track.id) == WithoutId(liked, track.id)
  {
    WithoutIdAppend(WithoutId(liked, track.id), [track], track.id);
    WithoutIdTwice(liked, track.id);
  }

  lemma AddLikedIdempotent(liked: seq<Track>, track: Track)
    ensures AddLiked(AddLiked(liked, track), track) == AddLiked(liked, track)
  {
    AddLikedKeepsOthers(liked, track);
  }

  lemma AddLikedNoDup(liked: seq<Track>, track: Track)
    requires NoDupIds(liked)
    ensures NoDupIds(AddLiked(liked, track))
  {
    WithoutIdNoDup(liked, track.id);
  }

  /** Liking a track that was not liked and then unliking it restores the list. */
  lemma AddThenRemoveLiked(liked: seq<Track>, track: Track)
    requires !HasId(liked, track.id)
    ensures WithoutId(AddLiked(liked, track), track.id) == liked
  {
    AddLikedKeepsOthers(liked, track);
  }

  // ---------------------------------------------------------------------------
  // Properties of the recent list
  // ---------------------------------------------------------------------------

  lemma AddRecentNoDup(recent: seq<Track>, track: Track)
    requires NoDupIds(recent)
    ensures NoDupIds(AddRecent(recent, track))
  {
    WithoutIdNoDup(recent, track.id);
    var r := AddRecent(recent, track);
    var w := WithoutId(recent, track.id);
    forall i, j | 0 <= i < j < |r| ensures r[i].id != r[j].id
    {
      if i > 0 {
        assert r[i] == r[1..][i - 1] == w[i - 1];
        assert r[j] == r[1..][j - 1] == w[j - 1];
      }
    }
  }

  /** A new id on a full list goes to the head and evicts the oldest entry. */
  lemma AddRecentEvictsOldest(recent: seq<Track>, track: Track)
    requires |recent| == MaxRecent && !HasId(recent, track.id)
    ensures AddRecent(recent, track) == [track] + recent[..MaxRecent - 1]
  {
    var r := AddRecent(recent, track);
    assert r == [r[0]] + r[1..];
  }

  /** Filtering out the id of the only entry that carries it removes exactly that entry. */
  lemma WithoutIdSingle(before: seq<Track>, x: Track, after: seq<Track>)
    requires !HasId(before, x.id) && !HasId(after, x.id)
    ensures WithoutId(before + [x] + after, x.id) == before + after
  {
    var id := x.id;
    WithoutIdAppend(before + [x], after, id);
    assert WithoutId(before + [x] + after, id) == WithoutId(before + [x], id) + after;
    WithoutIdAppend(before, [x], id);
    assert WithoutId([x], id) == [];
    assert WithoutId(before + [x], id) == before;
  }

  /** Re-adding an id already at position k moves that entry to the head. */
  lemma AddRecentMovesToHead(recent: seq<Track>, track: Track, k: nat)
    requires NoDupIds(recent) && |recent| <= MaxRecent
    requires k < |recent| && recent[k].id == track.id
    ensures AddRecent(recent, track) == [track] + recent[..k] + recent[k + 1..]
  {
    var before, after := recent[..k], recent[k + 1..];
    assert recent == before + [recent[k]] + after;
    assert !HasId(before, track.id);
    assert !HasId(after, track.id) by {
      forall i | 0 <= i < |after| ensures after[i].id != track.id {
        assert after[i] == recent[k + 1 + i];
      }
    }
    WithoutIdSingle(before, recent[k], after);
    var w := WithoutId(recent, track.id);
    assert w == before + after;
    var r := AddRecent(recent, track);
    assert |r| == |w| + 1;
    assert r == [r[0]] + r[1..];
  }

  /** The recent list after a history of additions, starting from the empty list. */
  function RecentAfter(added: seq<Track>): seq<Track>
  {
    if added == [] then []
    else AddRecent(RecentAfter(added[..|added| - 1]), added[|added| - 1])
  }

  /** Whatever tracks are added, the recent list has distinct ids and at most ten entries. */
  lemma {:induction false} RecentAfterInvariant(added: seq<Track>)
    ensures NoDupIds(RecentAfter(added)) && |RecentAfter(added)| <= MaxRecent
  {
    if added != [] {
      RecentAfterInvariant(added[..|added| - 1]);
      AddRecentNoDup(RecentAfter(added[..|added| - 1]), added[|added| - 1]);
    }
  }

  // ---------------------------------------------------------------------------
  // The store object
  // ---------------------------------------------------------------------------

  class Store {
    var likedTracks: seq<Track>
    var recentTracks: seq<Track>

    ghost predicate Valid()
      reads this
    {
      NoDupIds(likedTracks) && NoDupIds(recentTracks) && |recentTracks| <= MaxRecent
    }

    /** The initial state: both lists empty. */
    constructor ()
      ensures Valid()
      ensures likedTracks == [] && recentTracks == []
    {
      likedTracks := [];
      recentTracks := [];
    }

    method AddLikedTrack(track: Track)
      requires Valid()
      modifies this
      ensures Valid()
      ensures likedTracks == AddLiked(old(likedTracks), track)
      ensures recentTracks == old(recentTracks)
    {
      AddLikedNoDup(likedTracks, track);
      likedTracks := AddLiked(likedTracks, track);
    }

    method RemoveLikedTrack(trackId: string)
      requires Valid()
      modifies this
      ensures Valid()
      ensures likedTracks == WithoutId(old(likedTracks), trackId)
      ensures recentTracks == old(recentTracks)
    {
      WithoutIdNoDup(likedTracks, trackId);
      likedTracks := WithoutId(likedTracks, trackId);
    }

    method AddRecentTrack(track: Track)
      requires Valid()
      modifies this
      ensures Valid()
      ensures recentTracks == AddRecent(old(recentTracks), track)
      ensures likedTracks == old(likedTracks)
    {
      AddRecentNoDup(recentTracks, track);
      recentTracks := AddRecent(recentTracks, track);
    }

    /** `isTrackLiked`: some liked entry carries the id. */
    function IsTrackLiked(trackId: string): (b: bool)
      reads this
      ensures b <==> exists i :: 0 <= i < |likedTracks| && likedTracks[i].id == trackId
    {
      HasId(likedTracks, trackId)
    }

    method ClearRecentTracks()
      requires Valid()
      modifies this
      ensures Valid()
      ensures recentTracks == [] && likedTracks == old(likedTracks)
    {
      recentTracks := [];
    }

    method ClearLikedTracks()
      requires Valid()
      modifies this
      ensures Valid()
      ensures likedTracks == [] && recentTracks == old(recentTracks)
    {
      likedTracks := [];
    }
  }
}
