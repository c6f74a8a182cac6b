/**
 * The gallery store: the in-memory list of finished videos, newest first.
 * Writing the list to device storage is not part of this model.
 */
module GalleryStore {
  import opened Wrappers

  datatype GalleryVideo = GalleryVideo(
    id: string,
    videoUrl: string,
    thumbnailUri: Option<string>,
    script: string,
    createdAt: int)

  /** The fields a caller supplies when adding a video; the store adds the id and time. */
  datatype NewVideo = NewVideo(videoUrl: string, thumbnailUri: Option<string>, script: string)

  /** What device storage held under the gallery key, when it held a non-empty string. */
  datatype StoredGallery = Saved(videos: seq<GalleryVideo>) | Unparseable

  /** `a` is `b` with some entries dropped and the rest in their original order. */
  predicate IsSubsequence<T(==)>(a: seq<T>, b: seq<T>)
    decreases |b|
  {
    if |a| == 0 then true
    else if |b| == 0 then false
    else if a[0] == b[0] then IsSubsequence(a[1..], b[1..])
    else IsSubsequence(a, b[1..])
  }

  /** Adding puts one new entry, built from the caller's fields, the fresh id and the time, in front. */
  function AddVideo(videos: seq<GalleryVideo>, video: NewVideo, freshId: string, now: int): (r: seq<GalleryVideo>)
    ensures |r| == |videos| + 1
    ensures r[1..] == videos
    ensures r[0].id == freshId && r[0].createdAt == now
    ensures r[0].videoUrl == video.videoUrl && r[0].thumbnailUri == video.thumbnailUri && r[0].script == video.script
  {
    [GalleryVideo(freshId, video.videoUrl, video.thumbnailUri, video.script, now)] + videos
  }

  /** Removing drops every entry with the id and keeps the others, in order. */
  function RemoveVideo(videos: seq<GalleryVideo>, id: string): (r: seq<GalleryVideo>)
    ensures forall i :: 0 <= i < |r| ==> r[i].id != id
    ensures forall v :: v in videos && v.id != id ==> v in r
    ensures IsSubsequence(r, videos)
    ensures |r| <= |videos|
    ensures (forall i :: 0 <= i < |videos| ==> videos[i].id != id) ==> r == videos
  {
    if |videos| == 0 then []
    else
      var rest := RemoveVideo(videos[1..], id);
      if videos[0].id == id then rest
      else [videos[0]] + rest
  }

  /** Clearing leaves an empty gallery. */
  function ClearGallery(videos: seq<GalleryVideo>): (r: seq<GalleryVideo>)
    ensures |r| == 0
  {
    []
  }

  /** Loading replaces the list with a readable stored one and otherwise keeps it. */
  function LoadGallery(videos: seq<GalleryVideo>, stored: Option<StoredGallery>): (r: seq<GalleryVideo>)
    ensures stored.Some? && stored.value.Saved? ==> r == stored.value.videos
    ensures stored.None? || stored.value.Unparseable? ==> r == videos
  {
    match stored
    case Some(Saved(vs)) => vs
    case _ => videos
  }

  /** Every entry with another id is kept exactly as many times as before. */
  lemma {:induction false} RemoveKeepsOthers(videos: seq<GalleryVideo>, id: string, v: GalleryVideo)
    requires v.id != id
    ensures multiset(RemoveVideo(videos, id))[v] == multiset(videos)[v]
    decreases |videos|
  {
    if |videos| > 0 {
      var rest := RemoveVideo(videos[1..], id);
      RemoveKeepsOthers(videos[1..], id, v);
      assert videos == [videos[0]] + videos[1..];
      assert multiset(videos) == multiset{videos[0]} + multiset(videos[1..]);
      if videos[0].id == id {
        assert RemoveVideo(videos, id) == rest;
        assert videos[0] != v;
      } else {
        assert RemoveVideo(videos, id) == [videos[0]] + rest;
        assert multiset([videos[0]] + rest) == multiset{videos[0]} + multiset(rest);
      }
    }
  }

  /** Removing the id just added restores the list, as long as the id was fresh. */
  lemma RemoveUndoesAdd(videos: seq<GalleryVideo>, video: NewVideo, freshId: string, now: int)
    requires forall i :: 0 <= i < |videos| ==> videos[i].id != freshId
    ensures RemoveVideo(AddVideo(videos, video, freshId, now), freshId) == videos
  {
    var added := AddVideo(videos, video, freshId, now);
    assert added[1..] == videos;
  }

  /** Removing is idempotent. */
  lemma RemoveIdempotent(videos: seq<GalleryVideo>, id: string)
    ensures RemoveVideo(RemoveVideo(videos, id), id) == RemoveVideo(videos, id)
  {
  }
}
