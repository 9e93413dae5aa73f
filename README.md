# Podcast player widget: a verified model of its player state machine

`howler.custom.js` defines `Player`, a podcast player widget built on the
Howler audio library. Several players can sit on one page. One of them is
the *main* player and the rest are *secondary* players. They share a
page-wide registry, `window.activePlayers`. Each registry entry holds a
player's id, the md5 fingerprint of the track it has loaded, and the player
itself. When a player starts, pauses or seeks, it uses the registry to find
siblings that have the same fingerprint:

- the main player broadcasts to every sibling (`checkAnotherPlayer`);
- a secondary player defers to the main player (`checkMainPlayer`).

This project models that player in Dafny, without the DOM and the audio
engine.

- `TimeFormat` (`time_format.dfy`) models `getTime`, which turns seconds
  into the "mm:ss" text of the time labels. It is pure arithmetic on reals,
  so `Math.floor`, `Math.ceil` and JavaScript's truncating `%` are exact. The
  text is rendered as JavaScript's template strings do.
- `PlayerRules` (`player_rules.dfy`) holds the rules the player applies to
  its own numbers:
  - the playlist cursor stepped by `next` and `prev`, which wraps round;
  - the volume rule of `updateVolume`: a value above 1 becomes 0, a value
    below 0 becomes 1;
  - the clamped ±15-second skip.
- `Players` (`players.dfy`) holds two classes:
  - `Player` has the fields the source updates in place: `podcastIndex`,
    `currentPodcast`, `isPlaying`, `vol`, `hash` and `state`.
  - `Registry` holds the shared `activePlayers` sequence.

  The Howl engine is reduced to the player's `position` and `duration`.
  The lifecycle callbacks (`onload`, `onplay`, `onpause`, `onseek`,
  `onend`) are methods that the caller invokes. The global `mainPlayer` is
  passed in as the `main` argument. A deferred
  `setTimeout(() => target.seek(source.instance.seek()), 50)` is recorded
  by appending `source` to `target.pendingSeeks`. `FirePendingSeek` is that
  timer going off.
- `Scenarios` (`scenarios.dfy`) holds whole-page runs. They are built only
  from the contracts above, with one main player and one secondary player.
  Every run starts from the page just after both players have loaded. After
  each engine call, the run delivers the callback the engine answers it
  with. That covers the calls the protocol makes on the other player too:
  - `playPodcast` is followed by that player's `onplay`, even when the
    player was already playing;
  - `pausePodcast` is followed by its `onpause`, even when the player was
    already paused;
  - a fired deferred seek is followed by the target's `onseek`.

  The runs are:
  - main plays a shared episode, and then main pauses;
  - the secondary plays one episode, and then main plays another;
  - main plays a shared episode, the seeks this queues fire, and main
    pauses. The secondary then seeks, and the runs go on until no seek is
    queued.

The runs show two things about the protocol:

- After main starts a shared episode, the secondary's `onplay` clears
  main's `state`. So main's next pause broadcasts nothing, and the muted
  secondary keeps playing.
- In that state the secondary seeks. The deferred seek of main starts main.
  Main's `onplay` takes `state` and broadcasts the start to the secondary.
  The secondary's `onplay` then takes `state` back and defers to main.
  Each player ends with one seek of the other queued. Once those have
  fired, both players play at the sought position. Main has no `state`,
  the secondary is muted and holds `state`, and no seek is queued.

The fingerprint `md5(src)` is modelled as the value `Md5(src)`. Two
fingerprints are equal exactly when the sources are equal, so hash
collisions are not modelled. Before the first load a player's `hash` is
`None`, which stands for JavaScript's `undefined`. Two unloaded players
therefore compare equal, as `undefined === undefined` does.

The 15-second skip takes the unclamped branch only when `pos ± 15` lies
strictly between 0 and `duration`. At the two end points the clamping
branches return that same value. So the result equals `pos ± 15` exactly
when it lies in the closed interval `[0, duration]`, and `SkipTarget` states
it that way.

Registry invariant (`Registry.Valid`):

- ids are unique;
- every entry's id is the id of the player it holds.

Together these mean that distinct entries hold distinct players. The only
writer of the registry is `OnLoad`, and it keeps this invariant.

In a few places the code does less than a reader of its method names would
expect. The model does what the code does:

- `pausePodcast` pauses unconditionally.
- `next` and `prev` always leave the player playing, whatever it was doing
  before.
- Registry entries are never removed.
- Transport operations before a load are neither queued nor rejected.
- There is no error for a broadcast from a non-main player.

## Model

| member | source | states |
|---|---|---|
| `PlayerRules.NextIndex` | howler.custom.js:214-219 | From a valid cursor, `next` stays in `[0, n)`, equals `(i + 1) mod n`, goes to 0 from the last item and to `i + 1` otherwise |
| `PlayerRules.PrevIndex` | howler.custom.js:207-212 | From a valid cursor, `prev` stays in `[0, n)`, equals `(i - 1) mod n`, goes to `n - 1` from 0 and to `i - 1` otherwise |
| `PlayerRules.NextPrevInverse` | howler.custom.js:207-219 | `prev` undoes `next` and `next` undoes `prev` |
| `PlayerRules.Walk` | howler.custom.js:207-219 | Any sequence of next/prev presses keeps the cursor inside the playlist |
| `PlayerRules.WalkIsModular` | howler.custom.js:207-219 | After any sequence of presses the cursor is the start index plus (nexts − prevs), modulo the playlist length |
| `PlayerRules.WrapVolume` | howler.custom.js:221-228 | The stored volume is in `[0, 1]`: 0 for a value above 1, 1 for a value below 0, and the value itself exactly when it is in `[0, 1]` |
| `PlayerRules.WrapVolumeIdempotent` | howler.custom.js:221-228 | Re-applying the rule to a stored volume changes nothing |
| `PlayerRules.SkipTarget` | howler.custom.js:239-249 | The skip target is in `[0, duration]`; it equals `pos ± 15` exactly when that lies in `[0, duration]`; it is the point of the track nearest to `pos ± 15`; direction 1 goes forward, anything else goes back |
| `TimeFormat.GetTime` | howler.custom.js:251-268 | For every input, the seconds component is in -59..59 and is zero-padded exactly when it is at most 9 |
| `TimeFormat.GetTimeSplitsCeiling` | howler.custom.js:251-268 | For a time ≥ 0, seconds are in 0..59 (a ceiling of 60 is carried) and `minutes * 60 + seconds` is the time rounded up |
| `TimeFormat.GetTimePadding` | howler.custom.js:262-265 | For a time ≥ 0, minutes up to 9 are padded; the padding test uses the pre-carry minutes, so the only padded value above 9 is the 10 that a carry out of 9 minutes produces |
| `TimeFormat.GetTimeCarryQuirk` | howler.custom.js:262-265 | 599.5 seconds is displayed as "010:00" |
| `TimeFormat.GetTimeTextReadsBack` | howler.custom.js:251-268 | For a time ≥ 0 the seconds label has two characters, and reading both labels back as numbers gives the time rounded up to a second |
| `Players.UpsertedSpec` | howler.custom.js:100-116 | After a load: ids stay unique; there is an entry with the player's id and its new hash; entries with other ids are unchanged and keep their places; a new id is appended at the end; a known id keeps its length and its instances |
| `Players.UpsertedIdempotent` | howler.custom.js:100-116 | Loading the same hash again leaves the registry as it was |
| `Players.Player.constructor` | howler.custom.js:2-38 | A new player points at the first podcast and is paused, at volume 0.5, with no hash, `state` set, and a fresh unloaded engine |
| `Players.Player.UpdatePodcastInfo` | howler.custom.js:81-92 | The current podcast becomes `playlist[podcastIndex]`, with a fresh engine at position 0 and duration 0 |
| `Players.Player.Mute` | howler.custom.js:161-165 | The volume becomes 0 and nothing else changes |
| `Players.Player.Seek` | howler.custom.js:167-170 | The head moves to the requested position, clamped into `[0, duration]` |
| `Players.Player.PlayPodcast` | howler.custom.js:172-176 | The player is playing; nothing else changes |
| `Players.Player.PausePodcast` | howler.custom.js:178-182 | The player is paused; nothing else changes |
| `Players.Player.ChangePodcast` | howler.custom.js:184-193 | The cursor takes one next or prev step, the current podcast follows it, a fresh engine is started, and the player is playing |
| `Players.Player.Prev` | howler.custom.js:207-212 | The cursor is `PrevIndex` of the old one and stays valid, `currentPodcast == playlist[podcastIndex]`, and the player is playing |
| `Players.Player.Next` | howler.custom.js:214-219 | The cursor is `NextIndex` of the old one and stays valid, `currentPodcast == playlist[podcastIndex]`, and the player is playing |
| `Players.Player.UpdateVolume` | howler.custom.js:221-228 | The stored volume is `WrapVolume(v)`, so the player's volume stays in `[0, 1]` |
| `Players.Player.SetProgressTo15Seconds` | howler.custom.js:239-249 | The head lands on `SkipTarget(old position, duration, dir)`, inside `[0, duration]` |
| `Players.Player.GetHash` | howler.custom.js:270-272 | The stored and returned hash is the fingerprint of the current podcast's source |
| `Players.Player.OnLoad` | howler.custom.js:93-117 | The player takes the reported duration and its source's fingerprint; the registry becomes the upsert of its entry and stays valid |
| `Players.Player.SetStates` | howler.custom.js:123-133 | Every registered player's `state` becomes whether its role equals this player's role |
| `Players.Player.OnPlay` | howler.custom.js:119-137 | Flags as in `SetStates`; a registered caller ends with `state` true. A main player with `state` then has broadcast action 0 and is itself unchanged. A secondary with `state` has deferred with action 0 and left every other registered player untouched. The invariant of this player, of main and of every registered player is kept |
| `Players.Player.OnPause` | howler.custom.js:139-142 | A main player with `state` broadcasts action 1. A secondary with `state` defers with action 1 and leaves every other registered player untouched. Otherwise nothing changes. Every player's invariant is kept |
| `Players.Player.OnSeek` | howler.custom.js:144-153 | The player ends playing with its own seek queue unchanged. A main player with `state` broadcasts action 2. A secondary with `state` defers with action 2 and leaves every other registered player untouched. Every player's invariant is kept |
| `Players.Player.OnEnd` | howler.custom.js:155-157 | The end of a track is `next`: the cursor advances with wraparound, the player plays, and the fresh engine is at position 0 with duration 0 |
| `Players.Player.Dispatch` | howler.custom.js:135-136 | Main with `state` set broadcasts. A secondary with `state` set defers, touching no registered player but itself and main. With `state` clear nothing changes |
| `Players.Player.Mirror` | howler.custom.js:307-325 | One sibling's step of the broadcast. With the same hash, action 0 leaves it playing, muted, with a seek to the source queued; action 1 leaves it paused; action 2 leaves it muted with a seek queued and `isPlaying` unchanged. With a different hash it ends paused with its volume kept |
| `Players.Player.CheckAnotherPlayer` | howler.custom.js:304-329 | Entries with this player's id, and this player itself, are untouched. Of the others, same-hash siblings end as follows: action 0 leaves them playing, muted and with a seek to this player scheduled; action 1 leaves them paused; action 2 leaves them muted with a seek scheduled and `isPlaying` unchanged. Every different-hash sibling ends paused. Volumes stay in `[0, 1]` |
| `Players.Player.CheckMainPlayer` | howler.custom.js:279-302 | With equal hashes this player ends muted. Action 0 leaves main playing with a seek scheduled, action 1 leaves main paused, and action 2 schedules a seek and leaves main's playing state alone. With different hashes main ends paused and this player's volume is kept. This player's own `isPlaying` never changes |
| `Players.Player.ScheduleSeekFrom` | howler.custom.js:312 | A deferred seek to `src`'s position is queued on this player |
| `Players.Player.FirePendingSeek` | howler.custom.js:286 | The oldest queued seek runs: the head moves to its source's current position, clamped into the track, and the seek leaves the queue |
| `Scenarios.MainPlaysSharedEpisode` | howler.custom.js:119-137 | Main plays an episode the secondary also holds, and the secondary's `onplay` follows. Both end playing. The secondary is muted and holds `state`, main has lost its `state`, and each has a seek to the other queued |
| `Scenarios.MainPausesAfterSharedPlay` | howler.custom.js:119-142 | After that shared play, main pauses and its `onpause` runs. Main ends paused without `state`, and the muted secondary keeps playing |
| `Scenarios.MainPlaysOtherEpisode` | howler.custom.js:119-142 | The secondary starts one episode, which pauses main; then main starts a different one. Each `onplay` and `onpause` is delivered. The secondary ends paused with its volume kept and its `state` cleared, main plays with `state`, and nothing is queued |
| `Scenarios.SecondarySeeksSharedEpisode` | howler.custom.js:119-153 | From a paused main without `state` and a muted secondary playing the same episode, the secondary seeks to 42 s. The deferred seek of main fires, then main's `onseek` and `onplay` and the secondary's `onplay` follow. Main plays at 42 s without `state`. The secondary plays muted at 42 s with `state`. Each has one seek to the other queued |
| `Scenarios.SeekExchangeSettles` | howler.custom.js:144-153 | Then the queued seeks fire, each followed by its target's `onseek`, until none is left. Both players play at 42 s. Main keeps volume 0.5 and has no `state`; the secondary is muted and holds `state` |

## Left out

- DOM work is not modelled: element lookup, `innerHTML` labels, the play/pause icon classes, the progress bar width, `clear()` and the volume control's displayed value. These are display sinks with no decisions in them.
- `addListeners` and `removeListeners` are not modelled. This includes the play-button handler that toggles `isPlaying` and then plays or pauses. They are event wiring, and their removal closures never match the added ones, which is a leak that needs a DOM model to express.
- The Howl constructor and engine internals are not modelled: `play`, `pause`, `unload` and `volume` on the engine. The engine's volume is always set to `vol`, so it is not kept separately.
- `Players.Player.constructor`: requires a non-empty playlist. With an empty one, `updatePodcastInfo` reads `undefined.src` at howler.custom.js:84 and throws a `TypeError`, which the model does not represent.
- `Players.Player.Dispatch`, `Players.Player.OnPlay`, `Players.Player.OnPause`, `Players.Player.OnSeek`: require their `main` argument to be a main player. It stands for the page global `mainPlayer` read at howler.custom.js:280, which is defined outside the file; the model assumes that global holds the page's main player.
- Callbacks do not fire on their own. When `PlayPodcast` is called on a sibling, that sibling's `OnPlay` does not run. The caller decides when each callback runs, and so chooses any interleaving. The scenarios deliver `onplay` after every `playPodcast` and `onpause` after every `pausePodcast`, also when the player was already in that state. Whether the Howl engine raises the event for such a request is engine behaviour, and the engine is not part of this model.
- `Players.Player.Seek`: the engine is assumed to clamp a requested position into `[0, duration]`. Howler's own seek is not part of this model.
- `requestAnimationFrame` progress loops and `updateProgress` are not modelled, because they only redraw.
- The 50 ms delay of the deferred seeks is not modelled. Only the order of the queue on each target is kept.
- The playback clock is not modelled. `position` changes only through `Seek`, `FirePendingSeek` and a track change, and it does not advance while a player plays. A deferred seek therefore reads its source's position as the last seek left it. In the program that position has moved on by the time the timer fires (howler.custom.js:286, 295, 312, 320). So the exact positions in the scenarios' results, such as both players at 42 s, hold only with the clock stopped.
- `md5` is modelled as an injective fingerprint of the source string. It is a foreign function, and equality is the only thing the protocol uses.
- `setProgress` (seek by click position) is not modelled, because it depends on element geometry.
- JavaScript coercions are not modelled: the string value of the volume control, `NaN`, `undefined` durations and IEEE-754 rounding. Numbers are exact reals.
- Removing a destroyed player's registry entry is not modelled, because the source never removes entries.
