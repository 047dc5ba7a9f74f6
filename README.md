# Radio playlist player — a Dafny model

This project models the playback controller of a personal network radio:
the `Player` of `src/player.rs`. A player owns an ordered playlist of
streams (each with an id, a name and a URL), a playback cursor
`current` that indexes the playlist, and an id counter `last_id` that is
not written to disk. Its operations load the playlist from a
configuration file, add a stream, play a stream by id, step the cursor
forwards or backwards round the playlist, read the stream under the
cursor, and delete a stream by id. Playing and stepping send a
`loadfile` command to the media engine (mpv); every mutation rewrites the
configuration file.

Layout:

- `wrappers.dfy` — `Option` and `Result`, as the Rust code returns them.
- `streams.dfy` — module `Streams`: 64-bit `usize` with the wrapping
  increment and decrement of a release build, the `Stream` record, the
  persisted `SavedCfg` record (list and cursor), the search by id, the
  in-order removal and the maximum-id fold used on load.
- `cursor.dfy` — module `Cursor`: the circular cursor arithmetic of
  `next` and `prev`, and the lemmas that they undo each other and that
  `len` steps forward come back to the start.
- `player.dfy` — module `Player`: the class `Player` with the fields
  `streams`, `current`, `lastId` and `cfgPath`, its operations as
  methods and functions, and lemmas about where `play` puts the cursor.
  The two side effects are ghost fields: `loaded`, the URLs sent to the
  engine with `loadfile`, in order; and `persisted`, the record the
  configuration file was last written with. A third ghost field, `seen`,
  collects every id the player has held, so that the contract of `Add`
  can say that a new id was never used before, even by a deleted stream.
  The methods `Session`, `DeleteThenWrap` and `PlayAfterDelete` replay a
  short session (two adds, a play, `next`, a delete, `next`, a play, an
  add) against the contracts alone, and `ReloadAfterAdd` shows that
  loading the file written by `add` gives back the same list, cursor and
  counter.

The model follows the code, including behaviours a caller might not
expect:

- `play` sets the cursor to `id - 1`, not to the position of the stream
  it plays (src/player.rs:110). The two coincide while every stream's id
  is its position plus one, which is what adding to an empty playlist
  gives; after a deletion they no longer do, and `get_current` can then
  return nothing, or another stream, while the played stream is loaded.
- `delete` rewrites the file before it removes the stream
  (src/player.rs:160-161), so the file still lists the deleted stream
  until the next mutation; the cursor is not adjusted.
- A failed engine command is not reported to the caller: the code
  panics on it (`expect`), which is outside this model.

## Model

| member | source | states |
|---|---|---|
| Streams.WrappingInc | src/player.rs:99 | `usize` increment as a release build computes it: one more below `usize::MAX`, 0 at `usize::MAX` |
| Streams.WrappingDec | src/player.rs:110 | `id - 1` in `usize` as a release build computes it: one less above 0, `usize::MAX` at 0 |
| Streams.Position | src/player.rs:158 | the index of the FIRST stream with the given id; `None` exactly when no stream has that id |
| Streams.RemoveAt | src/player.rs:161 | removing position `k` keeps every other stream in order (earlier ones in place, later ones shifted down by one) and takes away exactly that one stream from the multiset |
| Streams.FoldMax | src/player.rs:75-79 | the fold is at least its start value, bounds every id in the list, and is either the start value or one of the ids |
| Streams.FoldMaxAppend | src/player.rs:75-79 | folding over a list with one more stream at the end gives the larger of the previous fold and that stream's id |
| Streams.ReloadRecoversCounter | src/player.rs:75-79 | reloading a file written right after `add` recovers the added id as the counter, when the counter bounded every earlier id |
| Cursor.NextCursor | src/player.rs:125 | the new cursor is always in range, even from an out-of-range start; from an in-range cursor it is the next position, wrapping from the last to 0 |
| Cursor.PrevCursor | src/player.rs:138-142 | the new cursor is always in range; from an in-range cursor it is the previous position, wrapping from 0 to the last |
| Cursor.PrevUndoesNext | src/player.rs:123-151 | from an in-range cursor, `prev` after `next` returns to the starting position |
| Cursor.NextUndoesPrev | src/player.rs:123-151 | from an in-range cursor, `next` after `prev` returns to the starting position |
| Cursor.AdvanceWithin | src/player.rs:125 | `k` calls of `next` move an in-range cursor `k` places while they stay below the end of the list |
| Cursor.AdvanceSplit | src/player.rs:123-134 | `a + b` calls of `next` are `a` calls followed by `b` calls |
| Cursor.FullCircle | src/player.rs:125 | `len` calls of `next` on a list of `len` streams bring an in-range cursor back to its start |
| Player.Player.FromFile | src/player.rs:65-92 | a file that cannot be read (missing, unreadable, not UTF-8) gives an empty list, cursor 0, counter 0 and nothing persisted; a loaded file gives its list and cursor, and a counter that bounds every loaded id and is 0 or one of them; no engine command is issued |
| Player.Player.GetPlaylist | src/player.rs:94-96 | the playlist itself, in order |
| Player.Player.GetCurrent | src/player.rs:153-155 | nothing exactly when the cursor is at or past the end; otherwise the stream at the cursor |
| Player.Player.DumpCfg | src/player.rs:167-177 | the file now holds the current list and cursor, without the counter |
| Player.Player.LoadFile | src/player.rs:111-115 | one `loadfile` command with the given URL is appended to the engine log |
| Player.Player.Add | src/player.rs:98-105 | the counter goes up by one, wrapping to 0 at `usize::MAX`; the returned stream carries the new counter, the given name and URL and is appended as the last element; earlier entries, the cursor and the engine log are unchanged; the file holds the new list; when the counter is below `usize::MAX` and bounded every id held so far, the new id is above every listed id and was never held before |
| Player.Player.Play | src/player.rs:107-121 | an id not listed gives an error and changes nothing (no engine command, no write); a listed id returns the first stream with that id, sets the cursor to `id - 1` wherever the stream sits, issues exactly one `loadfile` with its URL and rewrites the file; the list and the counter never change |
| Player.Player.Next | src/player.rs:123-134 | an empty list changes nothing; otherwise the cursor moves forwards circularly and ends in range, `get_current` then returns the stream under it, one `loadfile` with that stream's URL is issued and the file is rewritten |
| Player.Player.Prev | src/player.rs:136-151 | an empty list changes nothing; otherwise the cursor moves backwards circularly and ends in range, `get_current` then returns the stream under it, one `loadfile` with that stream's URL is issued and the file is rewritten |
| Player.Player.Delete | src/player.rs:157-165 | an id not listed returns nothing and changes nothing; a listed id returns the first stream with that id and leaves the list with that one position removed, order kept; the cursor, the counter and the engine log are untouched; the file holds the list as it was BEFORE the removal, deleted stream included |
| Player.AddKeepsDense | src/player.rs:98-105 | when the ids are their positions plus one and the counter equals the length, the stream `add` appends (id one past the counter) keeps that shape, and its id is the new length |
| Player.PlayCursorIsPositionWhenDense | src/player.rs:110 | while ids are positions plus one, the cursor `play` sets is the position of the stream it plays |
| Player.PlayCursorMisses | src/player.rs:110 | on a list with distinct ids, whenever the played stream's position differs from `id - 1`, the cursor `play` sets is past the end or under another stream, so `get_current` does not return the played stream (the session in `PlayAfterDelete` reaches this case after one deletion) |
| Player.ReloadAfterAdd | src/player.rs:69-80 | on a player whose counter is below `usize::MAX` and bounds every id held, `add` runs (counter one up, cursor kept, the new stream appended) and loading the file it wrote gives a player with the same list, cursor and counter |

## Left out

- Integer width: `usize` is taken as 64 bits and the three places that can overflow (`last_id += 1`, `current + 1` in `next`, `id - 1` in `play`) wrap as in a release build; a debug build panics at those points instead, which the model does not represent.
- Player.Player.Add: requires fewer than `usize::MAX` streams. A `Vec` cannot hold that many (`push` panics on capacity overflow, or aborts on allocation failure, first), and that panic or abort is not modelled.
- Player.Player.FromFile: requires a loaded list of at most `usize::MAX` streams, for the same reason. Its `saved` parameter is the already parsed file: reading the file, the JSON format (serde) and the panic on a malformed file (src/player.rs:71-72) are library behaviour and not modelled; neither is the panic of `to_str().unwrap()` on a non-UTF-8 path.
- The engine (src/mpv_simple.rs: the libmpv bindings, event decoding, C-string conversion, `Drop`): reduced to the ghost log of `loadfile` URLs. Every command is assumed to succeed; the panic of `.expect("Error opening URL")` on a failed command is not modelled. The `observe_property` call in `from_file` (src/player.rs:66-68) is an engine effect and not modelled.
- Player.Player.DumpCfg: write failures are silently ignored by the code (src/player.rs:174-176); `persisted` records what the write attempted, so a failed write is not distinguished.
- The HTTP layer (src/http.rs): lock-and-call wrappers over `Arc<Mutex<Player>>`; the mutex, concurrency and the URL-scheme check before `add` are not modelled.
- src/main.rs: argument parsing and server set-up. Its `/now_playing` route names a handler that src/http.rs does not define, and no event loop or now-playing state exists in the code, so neither is part of this model.
- web/*.js (browser UI) and build.rs (linker configuration).
- Ids that repeat within a loaded file are handled as the code handles them: `play` and `delete` act on the first match. Reloading recomputes the counter from the ids in the file, so an id deleted before a restart can be handed out again after it; the freshness stated for Add holds within one player's lifetime, and only while the counter is below `usize::MAX` (a loaded file can hold that id, after which the counter wraps to 0 and the next id is 0).
