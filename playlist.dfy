/**
 * The playlist store's pure updaters: the `some`, spread, `filter` and `find`
 * lambdas that `updatePlaylist` hands to `setPlaylist` (client/components/App.jsx).
 * A playlist is an ordered sequence of tracks; its order is the display order.
 */
module Playlist {
  import opened Wrappers
  import opened JsValues

  /**
   * One playlist entry. The id is whatever value the caller supplied: the
   * initial track has the number 0, tracks added by voice carry the tool
   * argument `track_id` (a string, or `undefined` when the model left it out).
   * `hasRemoveHandler` records whether the entry carries an `onRemove`
   * callback; only the initial track does.
   */
  datatype Track = Track(id: JsValue, title: JsValue, artist: JsValue, url: JsValue, hasRemoveHandler: bool)

  /** The single track the playlist starts with. */
  const InitialTrack: Track :=
    Track(Num(0), Str("SoundHelix Song 1"), Str("Test Artist"),
          Str("https://www.soundhelix.com/examples/mp3/SoundHelix-Song-1.mp3"), true)

  /** No two entries share an id (compared with `===`). */
  ghost predicate UniqueIds(p: seq<Track>) {
    forall i, j :: 0 <= i < j < |p| ==> p[i].id != p[j].id
  }

  /** `p.some(t => t.id === id)` */
  function HasId(p: seq<Track>, id: JsValue): (r: bool)
    ensures r <==> exists i :: 0 <= i < |p| && p[i].id == id
  {
    if p == [] then false
    else if p[0].id == id then true
    else
      assert forall i :: 1 <= i < |p| ==> p[i] == p[1..][i - 1];
      HasId(p[1..], id)
  }

  /** The "add" updater: keep the playlist when the id is taken, else append a copy. */
  function AddTrack(p: seq<Track>, t: Track): (r: seq<Track>)
    ensures (exists i :: 0 <= i < |p| && p[i].id == t.id) ==> r == p
    ensures (forall i :: 0 <= i < |p| ==> p[i].id != t.id) ==> |r| == |p| + 1 && r[..|p|] == p && r[|p|] == t
    ensures UniqueIds(p) ==> UniqueIds(r)
  {
    if HasId(p, t.id) then p else p + [t]
  }

  /** `p.filter(t => t.id !== id)`: the "remove" updater. */
  function Without(p: seq<Track>, id: JsValue): (r: seq<Track>)
    ensures |r| <= |p|
    ensures forall t :: t in r <==> t in p && t.id != id
  {
    if p == [] then []
    else if p[0].id == id then Without(p[1..], id)
    else [p[0]] + Without(p[1..], id)
  }

  /** Filtering distributes over concatenation, so the kept tracks stay in their order. */
  lemma {:induction false} WithoutAppend(a: seq<Track>, b: seq<Track>, id: JsValue)
    ensures Without(a + b, id) == Without(a, id) + Without(b, id)
  {
    if a != [] {
      assert (a + b)[1..] == a[1..] + b;
      WithoutAppend(a[1..], b, id);
    } else {
      assert a + b == b;
    }
  }

  /** Removing an id that is not present leaves the playlist identical. */
  lemma {:induction false} WithoutAbsent(p: seq<Track>, id: JsValue)
    requires forall i :: 0 <= i < |p| ==> p[i].id != id
    ensures Without(p, id) == p
  {
    if p != [] {
      assert p[0].id != id;
      WithoutAbsent(p[1..], id);
      assert [p[0]] + p[1..] == p;
    }
  }

  /** Filtering keeps ids unique. */
  lemma {:induction false} WithoutUnique(p: seq<Track>, id: JsValue)
    requires UniqueIds(p)
    ensures UniqueIds(Without(p, id))
  {
    if p != [] {
      var rest := Without(p[1..], id);
      assert UniqueIds(p[1..]) by {
        forall i, j | 0 <= i < j < |p[1..]| ensures p[1..][i].id != p[1..][j].id {
          assert p[1..][i] == p[i + 1] && p[1..][j] == p[j + 1];
        }
      }
      WithoutUnique(p[1..], id);
      if p[0].id != id {
        forall k | 0 <= k < |rest| ensures rest[k].id != p[0].id {
          assert rest[k] in p[1..];
        }
        var r := [p[0]] + rest;
        forall i, j | 0 <= i < j < |r| ensures r[i].id != r[j].id {
          if i == 0 {
            assert r[j] == rest[j - 1];
          } else {
            assert r[i] == rest[i - 1] && r[j] == rest[j - 1];
          }
        }
      }
    }
  }

  /**
   * With unique ids, removing a present id shortens the playlist by exactly
   * one and the id is gone afterwards.
   */
  lemma {:induction false} WithoutPresent(p: seq<Track>, id: JsValue, k: nat)
    requires UniqueIds(p)
    requires k < |p| && p[k].id == id
    ensures |Without(p, id)| == |p| - 1
    ensures !HasId(Without(p, id), id)
  {
    assert p == p[..k] + [p[k]] + p[k + 1..];
    WithoutAppend(p[..k] + [p[k]], p[k + 1..], id);
    WithoutAppend(p[..k], [p[k]], id);
    WithoutAbsent(p[..k], id);
    var after := p[k + 1..];
    forall i | 0 <= i < |after| ensures after[i].id != id {
      assert after[i] == p[k + 1 + i];
    }
    WithoutAbsent(after, id);
    assert Without([p[k]], id) == [];
  }

  /** `p.find(t => t.id === id)`: the first entry with that id, if any. */
  function Find(p: seq<Track>, id: JsValue): (r: Option<Track>)
    ensures r.Some? <==> exists i :: 0 <= i < |p| && p[i].id == id
    ensures r.Some? ==> r.value in p && r.value.id == id
  {
    if p == [] then None
    else if p[0].id == id then Some(p[0])
    else
      assert forall i :: 1 <= i < |p| ==> p[i] == p[1..][i - 1];
      Find(p[1..], id)
  }

  /** Find returns the FIRST matching entry. */
  lemma {:induction false} FindFirst(p: seq<Track>, id: JsValue, k: nat)
    requires k < |p| && p[k].id == id
    requires forall j :: 0 <= j < k ==> p[j].id != id
    ensures Find(p, id) == Some(p[k])
  {
    if k > 0 {
      assert p[0].id != id;
      FindFirst(p[1..], id, k - 1);
    }
  }
}
