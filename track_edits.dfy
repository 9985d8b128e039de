/** The track-list updaters the session controller hands to `setTracks`:
    `prev.filter(track => track.id !== id)`,
    `prev.map(track => track.id === id ? { ...track, field } : track)` and
    `tracks.find(track => track.id === id)`. */
module TrackEdits {
  import opened AudioTypes

  /** The one field a `map` updater replaces in a matching track. */
  datatype TrackEdit =
    | SetVolume(volume: real)
    | SetEffects(effects: TrackEffects)
    | SetBuffer(buffer: Option<AudioBuffer>)

  /** `{ ...track, field }`: the edited field takes the new value, every
      other field keeps its old one. */
  function Edited(t: Track, edit: TrackEdit): (r: Track)
    ensures r.id == t.id && r.name == t.name
    ensures r.volume == if edit.SetVolume? then edit.volume else t.volume
    ensures r.effects == if edit.SetEffects? then edit.effects else t.effects
    ensures r.buffer == if edit.SetBuffer? then edit.buffer else t.buffer
  {
    match edit
    case SetVolume(v) => t.(volume := v)
    case SetEffects(e) => t.(effects := e)
    case SetBuffer(b) => t.(buffer := b)
  }

  /** `prev.filter(track => track.id !== id)`: the tracks kept are exactly
      the ones whose id differs. */
  function WithoutId(ts: seq<Track>, id: string): (r: seq<Track>)
    ensures |r| <= |ts|
    ensures forall t :: t in r <==> t in ts && t.id != id
  {
    if ts == [] then []
    else if ts[0].id == id then WithoutId(ts[1..], id)
    else [ts[0]] + WithoutId(ts[1..], id)
  }

  /** Filtering distributes over concatenation, so the kept tracks stay in
      their original order. */
  lemma {:induction false} WithoutIdConcat(a: seq<Track>, b: seq<Track>, id: string)
    ensures WithoutId(a + b, id) == WithoutId(a, id) + WithoutId(b, id)
  {
    if a == [] {
      assert a + b == b;
    } else {
      assert (a + b)[0] == a[0];
      assert (a + b)[1..] == a[1..] + b;
      WithoutIdConcat(a[1..], b, id);
    }
  }

  /** A list without the id is returned whole; in particular deleting an
      unknown id changes nothing. */
  lemma {:induction false} WithoutIdAbsent(ts: seq<Track>, id: string)
    requires forall i :: 0 <= i < |ts| ==> ts[i].id != id
    ensures WithoutId(ts, id) == ts
  {
    if ts != [] {
      WithoutIdAbsent(ts[1..], id);
    }
  }

  /** Deleting twice is deleting once. */
  lemma WithoutIdIdempotent(ts: seq<Track>, id: string)
    ensures WithoutId(WithoutId(ts, id), id) == WithoutId(ts, id)
  {
    var r := WithoutId(ts, id);
    forall i | 0 <= i < |r| ensures r[i].id != id {
      assert r[i] in r;
    }
    WithoutIdAbsent(r, id);
  }

  /** `prev.map(...)`: same length, and position by position a track is
      edited exactly when its id matches. */
  function UpdateWhere(ts: seq<Track>, id: string, edit: TrackEdit): (r: seq<Track>)
    ensures |r| == |ts|
    ensures forall i :: 0 <= i < |ts| ==> r[i] == if ts[i].id == id then Edited(ts[i], edit) else ts[i]
  {
    if ts == [] then []
    else [if ts[0].id == id then Edited(ts[0], edit) else ts[0]] + UpdateWhere(ts[1..], id, edit)
  }

  /** Applying the same edit twice is applying it once. */
  lemma UpdateWhereIdempotent(ts: seq<Track>, id: string, edit: TrackEdit)
    ensures UpdateWhere(UpdateWhere(ts, id, edit), id, edit) == UpdateWhere(ts, id, edit)
  {
    var once := UpdateWhere(ts, id, edit);
    var twice := UpdateWhere(once, id, edit);
    forall i | 0 <= i < |ts| ensures twice[i] == once[i] {
      if ts[i].id == id {
        assert Edited(Edited(ts[i], edit), edit) == Edited(ts[i], edit);
      }
    }
  }

  /** Position `i` holds the first track whose id is `id`. */
  ghost predicate FirstWithId(ts: seq<Track>, id: string, i: int)
  {
    0 <= i < |ts| && ts[i].id == id && forall j :: 0 <= j < i ==> ts[j].id != id
  }

  /** `ts.find(track => track.id === id)`: the first track with that id,
      or None when there is none. */
  function FindById(ts: seq<Track>, id: string): (r: Option<Track>)
    ensures r.None? <==> forall i :: 0 <= i < |ts| ==> ts[i].id != id
    ensures r.Some? ==> r.value.id == id && exists i :: FirstWithId(ts, id, i) && ts[i] == r.value
  {
    if ts == [] then None
    else if ts[0].id == id then Some(ts[0])
    else
      var rest := FindById(ts[1..], id);
      assert rest.Some? ==> exists i :: FirstWithId(ts, id, i) && ts[i] == rest.value by {
        if rest.Some? {
          var k :| FirstWithId(ts[1..], id, k) && ts[1..][k] == rest.value;
          forall j | 0 <= j < k + 1 ensures ts[j].id != id {
            if j > 0 { assert ts[j] == ts[1..][j - 1]; }
          }
          assert FirstWithId(ts, id, k + 1);
        }
      }
      rest
  }
}
