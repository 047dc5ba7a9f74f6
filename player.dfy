/**
 * `Player` of src/player.rs: the playlist, the playback cursor and the
 * id counter, with the operations the HTTP layer calls on them.
 *
 * Two effects are kept as ghost state so that contracts can speak of them:
 * `loaded`, every URL handed to the engine with a `loadfile` command, in
 * order; and `persisted`, the record the configuration file was last
 * written with (`dump_cfg`), `None` while nothing has been written.
 */
module Player {
  import opened Wrappers
  import opened Streams
  import opened Cursor

  class Player {
    /** `cfg.streams`, in playlist order. */
    var streams: seq<Stream>
    /** `cfg.current`: an index into `streams`, not always in range. */
    var current: Usize
    /** `cfg.last_id`: the last id handed out; never written to the file. */
    var lastId: Usize
    /** `cfg_path`: where `dump_cfg` writes. */
    const cfgPath: string

    /** URLs sent to the engine with `loadfile`, oldest first. */
    ghost var loaded: seq<string>
    /** What the file at `cfgPath` was last written with. */
    ghost var persisted: Option<SavedCfg>
    /** Every id this player has held since it was loaded. */
    ghost var seen: set<Usize>

    /** The list fits a `Vec`, and every listed id has been recorded as seen. */
    ghost predicate Valid()
      reads this
    {
      |streams| <= USIZE_MAX &&
      forall i :: 0 <= i < |streams| ==> streams[i].id in seen
    }

    /** No id this player has held is above the counter. */
    ghost predicate CounterAhead()
      reads this
    {
      forall id :: id in seen ==> id <= lastId
    }

    /**
     * `Player::from_file`. `saved` is the parsed file, or `None` when the
     * file could not be read, which yields an empty playlist.
     */
    constructor FromFile(path: string, saved: Option<SavedCfg>)
      requires saved.Some? ==> |saved.value.streams| <= USIZE_MAX
      ensures Valid() && CounterAhead()
      ensures cfgPath == path && loaded == []
      ensures seen == set i | 0 <= i < |streams| :: streams[i].id
      ensures saved.None? ==>
                streams == [] && current == 0 && lastId == 0 && persisted == None
      ensures saved.Some? ==>
                streams == saved.value.streams && current == saved.value.current &&
                persisted == saved
      ensures saved.Some? ==>
                (forall i :: 0 <= i < |streams| ==> streams[i].id <= lastId) &&
                (lastId == 0 || exists i :: 0 <= i < |streams| && streams[i].id == lastId)
    {
      cfgPath := path;
      loaded := [];
      var list: seq<Stream>;
      match saved {
        case Some(cfg) =>
          list := cfg.streams;
          current := cfg.current;
          lastId := MaxId(cfg.streams);
          persisted := saved;
        case None =>
          list := [];
          current := 0;
          lastId := 0;
          persisted := None;
      }
      streams := list;
      seen := set i | 0 <= i < |list| :: list[i].id;
    }

    /** `Player::get_playlist`: the list itself, in order. */
    function GetPlaylist(): (r: seq<Stream>)
      reads this
      ensures r == streams
    {
      streams
    }

    /** `Player::get_current`: the stream under the cursor, if the cursor is in range. */
    function GetCurrent(): (r: Option<Stream>)
      reads this
      ensures r.None? <==> current >= |streams|
      ensures r.Some? ==> r.value == streams[current]
    {
      if current < |streams| then Some(streams[current]) else None
    }

    /** `dump_cfg`: the file is rewritten with the list and the cursor. */
    method DumpCfg()
      modifies this`persisted
      ensures persisted == Some(SavedCfg(streams, current))
    {
      persisted := Some(SavedCfg(streams, current));
    }

    /** The engine command `["loadfile", url]`. */
    method LoadFile(url: string)
      modifies this`loaded
      ensures loaded == old(loaded) + [url]
    {
      loaded := loaded + [url];
    }

    /**
     * `Player::add`: the counter goes up by one and a stream with the new
     * counter as its id is appended, then the file is rewritten.
     */
    method Add(name: string, url: string) returns (r: Stream)
      requires Valid()
      requires |streams| < USIZE_MAX
      modifies this
      ensures Valid()
      ensures lastId == WrappingInc(old(lastId))
      ensures r == Stream(lastId, name, url)
      ensures streams == old(streams) + [r]
      ensures current == old(current) && loaded == old(loaded)
      ensures seen == old(seen) + {r.id}
      ensures persisted == Some(SavedCfg(streams, current))
      ensures old(CounterAhead()) && old(lastId) < USIZE_MAX ==>
                CounterAhead() && r.id == old(lastId) + 1 && r.id !in old(seen) &&
                forall i :: 0 <= i < |old(streams)| ==> old(streams)[i].id < r.id
    {
      lastId := WrappingInc(lastId);
      streams := streams + [Stream(lastId, name, url)];
      seen := seen + {lastId};
      DumpCfg();
      r := streams[|streams| - 1];
    }

    /**
     * `Player::play`: for a listed id, the cursor is set to `id - 1`
     * (whatever position the stream holds), its URL is loaded and the file
     * is rewritten; for an id not listed, nothing happens.
     */
    method Play(id: Usize) returns (r: Result<Stream, ()>)
      requires Valid()
      modifies this
      ensures Valid()
      ensures streams == old(streams) && lastId == old(lastId) && seen == old(seen)
      ensures r.Err? <==> forall j :: 0 <= j < |streams| ==> streams[j].id != id
      ensures r.Err? ==> unchanged(this)
      ensures r.Ok? ==>
                Position(streams, id).Some? && r.value == streams[Position(streams, id).value]
      ensures r.Ok? ==>
                r.value.id == id &&
                current == WrappingDec(id) &&
                loaded == old(loaded) + [r.value.url] &&
                persisted == Some(SavedCfg(streams, current))
    {
      match Position(streams, id)
      case None =>
        r := Err(());
      case Some(k) =>
        var stream := streams[k];
        current := WrappingDec(id);
        LoadFile(stream.url);
        DumpCfg();
        r := Ok(stream);
    }

    /**
     * `Player::next`: on a non-empty list the cursor moves one place round
     * the list, the stream now under it is loaded and the file is rewritten.
     * On an empty list nothing happens.
     */
    method Next()
      requires Valid()
      modifies this
      ensures Valid()
      ensures |streams| == 0 ==> unchanged(this)
      ensures streams == old(streams) && lastId == old(lastId) && seen == old(seen)
      ensures |streams| > 0 ==>
                current == NextCursor(old(current), |streams|) &&
                current < |streams| && GetCurrent() == Some(streams[current]) &&
                loaded == old(loaded) + [streams[current].url] &&
                persisted == Some(SavedCfg(streams, current))
    {
      if |streams| != 0 {
        current := NextCursor(current, |streams|);
        var nextUrl := GetCurrent().value.url;
        LoadFile(nextUrl);
        DumpCfg();
      }
    }

    /**
     * `Player::prev`: on a non-empty list the cursor moves one place back
     * round the list, the stream now under it is loaded and the file is
     * rewritten. On an empty list nothing happens.
     */
    method Prev()
      requires Valid()
      modifies this
      ensures Valid()
      ensures |streams| == 0 ==> unchanged(this)
      ensures streams == old(streams) && lastId == old(lastId) && seen == old(seen)
      ensures |streams| > 0 ==>
                current == PrevCursor(old(current), |streams|) &&
                current < |streams| && GetCurrent() == Some(streams[current]) &&
                loaded == old(loaded) + [streams[current].url] &&
                persisted == Some(SavedCfg(streams, current))
    {
      if |streams| != 0 {
        current := PrevCursor(current, |streams|);
        var prevUrl := GetCurrent().value.url;
        LoadFile(prevUrl);
        DumpCfg();
      }
    }

    /**
     * `Player::delete`: the first stream with that id is taken out of the
     * list and returned. The file is rewritten BEFORE the removal, so it
     * still lists the deleted stream; the cursor and the counter are left
     * as they were. For an id not listed, nothing happens.
     */
    method Delete(id: Usize) returns (r: Option<Stream>)
      requires Valid()
      modifies this
      ensures Valid()
      ensures current == old(current) && lastId == old(lastId)
      ensures seen == old(seen) && loaded == old(loaded)
      ensures r.None? <==> forall j :: 0 <= j < |old(streams)| ==> old(streams)[j].id != id
      ensures r.None? ==> unchanged(this)
      ensures r.Some? ==>
                Position(old(streams), id).Some? && r.value.id == id &&
                var k := Position(old(streams), id).value;
                r.value == old(streams)[k] && streams == RemoveAt(old(streams), k)
      ensures r.Some? ==>
                persisted == Some(SavedCfg(old(streams), old(current))) &&
                r.value in persisted.value.streams
    {
      match Position(streams, id) {
        case Some(pos) =>
          DumpCfg();
          var removed := streams[pos];
          streams := RemoveAt(streams, pos);
          r := Some(removed);
        case None =>
          r := None;
      }
    }
  }

  /**
   * Each stream's id is its position plus one: what a run of `add` calls
   * from an empty playlist leaves.
   */
  ghost predicate Dense(streams: seq<Stream>)
  {
    forall i :: 0 <= i < |streams| ==> streams[i].id == i + 1
  }

  /**
   * `add` on a dense list whose counter is its length appends the stream
   * with id `WrappingInc(lastId)` (see the contract of `Player.Add`), which
   * keeps the list dense and the counter equal to its length.
   */
  lemma AddKeepsDense(streams: seq<Stream>, lastId: Usize, name: string, url: string)
    requires Dense(streams) && lastId == |streams| && |streams| < USIZE_MAX
    ensures WrappingInc(lastId) == |streams + [Stream(WrappingInc(lastId), name, url)]|
    ensures Dense(streams + [Stream(WrappingInc(lastId), name, url)])
  {
  }

  /**
   * On a dense list the cursor `play` sets, `id - 1`, is the position of
   * the stream it plays, so `get_current` afterwards returns that stream.
   */
  lemma PlayCursorIsPositionWhenDense(streams: seq<Stream>, id: Usize)
    requires Dense(streams) && Position(streams, id).Some?
    ensures WrappingDec(id) == Position(streams, id).value
  {
  }

  /**
   * On a list with distinct ids, when the played stream does not sit at
   * `id - 1` (as after a deletion), the cursor `play` sets is past the end
   * or under a different stream: `get_current` misses the played stream.
   */
  lemma PlayCursorMisses(streams: seq<Stream>, id: Usize)
    requires forall i, j :: 0 <= i < j < |streams| ==> streams[i].id != streams[j].id
    requires Position(streams, id).Some? && Position(streams, id).value != WrappingDec(id)
    ensures WrappingDec(id) >= |streams| ||
            streams[WrappingDec(id)] != streams[Position(streams, id).value]
  {
  }

  /**
   * Loading the file that `add` has just written gives back the list, the
   * cursor and the counter of the player that wrote it.
   */
  method ReloadAfterAdd(p: Player, name: string, url: string) returns (q: Player)
    requires p.Valid() && p.CounterAhead()
    requires |p.streams| < USIZE_MAX && p.lastId < USIZE_MAX
    modifies p
    ensures p.lastId == old(p.lastId) + 1 && p.current == old(p.current)
    ensures p.streams == old(p.streams) + [Stream(p.lastId, name, url)]
    ensures p.persisted == Some(SavedCfg(p.streams, p.current))
    ensures q.streams == p.streams && q.current == p.current && q.lastId == p.lastId
  {
    var s := p.Add(name, url);
    ReloadRecoversCounter(old(p.streams), old(p.lastId), s);
    var written := Some(SavedCfg(p.streams, p.current));
    assert written == p.persisted;
    q := new Player.FromFile(p.cfgPath, written);
  }

  /**
   * A short session: two adds from empty give ids 1 and 2; `next` from
   * the first moves to the second.
   */
  method Session(path: string)
  {
    var p := new Player.FromFile(path, None);
    var a := p.Add("A", "http://x/a");
    var b := p.Add("B", "http://x/b");
    assert a.id == 1 && b.id == 2 && p.streams == [a, b];
    assert Position([a, b], 1) == Some(0);
    var played := p.Play(1);
    assert played == Ok(a) && p.current == 0 && p.loaded == [a.url];
    p.Next();
    assert p.GetCurrent() == Some(b);
    DeleteThenWrap(p, a, b);
  }

  /** Continuing that session: delete id 1, then `next` wraps to position 0. */
  method DeleteThenWrap(p: Player, a: Stream, b: Stream)
    requires p.Valid() && p.CounterAhead()
    requires p.streams == [a, b] && a.id == 1 && b.id == 2 && p.current == 1
    requires p.lastId == 2 && p.seen == {1, 2}
    modifies p
  {
    assert Position([a, b], 1) == Some(0) && RemoveAt([a, b], 0) == [b];
    var gone := p.Delete(1);
    assert gone == Some(a) && p.GetPlaylist() == [b];
    assert p.GetCurrent() == None;
    p.Next();
    assert p.current == 0 && p.GetCurrent() == Some(b);
    PlayAfterDelete(p, b);
  }

  /**
   * Continuing that session: playing id 2, the only stream left, leaves
   * `get_current` empty, and the next add does not reuse id 1 or 2.
   */
  method PlayAfterDelete(p: Player, b: Stream)
    requires p.Valid() && p.CounterAhead()
    requires p.streams == [b] && b.id == 2 && p.lastId == 2 && p.seen == {1, 2}
    modifies p
  {
    assert Position([b], 2) == Some(0);
    var played := p.Play(2);
    assert played == Ok(b) && p.GetCurrent() == None;
    var c := p.Add("C", "http://x/c");
    assert c.id == 3 && c.id !in {1, 2};
  }
}
