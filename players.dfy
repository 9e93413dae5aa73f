/**
 * The `Player` widget of howler.custom.js without its DOM and audio-engine
 * glue, and the page-wide registry `window.activePlayers` through which
 * players that have the same track loaded keep each other in step.
 *
 * The Howl engine of a player is reduced to the fields `position` and
 * `duration`; the engine's lifecycle callbacks (`onload`, `onplay`,
 * `onpause`, `onseek`, `onend`) are methods that whoever drives the model
 * calls. A `setTimeout(() => target.seek(source.instance.seek()), 50)` is
 * recorded by appending `source` to `target.pendingSeeks`; `FirePendingSeek`
 * is the timer going off. The global `mainPlayer` is passed in as `main`, and
 * the registry is injected at construction.
 */
module Players {
  import opened PlayerRules

  datatype Option<T> = None | Some(value: T)

  /** A playlist item. */
  datatype Podcast = Podcast(name: string, date: string, src: string)

  /** `md5(src)`, compared only for equality; distinct sources are taken to
      have distinct fingerprints (no collisions). */
  datatype Hash = Md5(src: string)

  /** The action codes 0 (play), 1 (pause) and 2 (seek) passed to
      `checkAnotherPlayer` and `checkMainPlayer`. */
  datatype Action = PlayAction | PauseAction | SeekAction

  /** An element of `window.activePlayers`: `{ id, hash, instance }`. */
  datatype Entry = Entry(id: string, hash: Option<Hash>, instance: Player)

  predicate UniqueIds(es: seq<Entry>)
  {
    forall i, j :: 0 <= i < j < |es| ==> es[i].id != es[j].id
  }

  /** `activePlayers.some((player) => player.id === id)` */
  predicate HasId(es: seq<Entry>, id: string)
  {
    exists i :: 0 <= i < |es| && es[i].id == id
  }

  /** The `map` of the load handler: the entry with this id gets the new hash. */
  function Rehashed(es: seq<Entry>, id: string, h: Option<Hash>): (r: seq<Entry>)
    ensures |r| == |es|
    ensures forall i :: 0 <= i < |es| ==> r[i].id == es[i].id && r[i].instance == es[i].instance
    ensures forall i :: 0 <= i < |es| ==> r[i].hash == if es[i].id == id then h else es[i].hash
  {
    seq(|es|, i requires 0 <= i < |es| =>
      if es[i].id == id && es[i].hash != h then es[i].(hash := h) else es[i])
  }

  /** The registry after player `p`, with id `id`, has loaded a track with hash `h`:
      appended if absent, rehashed in place if present. */
  function Upserted(es: seq<Entry>, id: string, h: Option<Hash>, p: Player): seq<Entry>
  {
    if !HasId(es, id) then es + [Entry(id, h, p)] else Rehashed(es, id, h)
  }

  /** After a load there is exactly one entry with the player's id, it carries
      the player's hash, every other entry is where and what it was, and a
      new id goes at the end. */
  lemma UpsertedSpec(es: seq<Entry>, id: string, h: Option<Hash>, p: Player)
    requires UniqueIds(es)
    ensures var r := Upserted(es, id, h, p);
      UniqueIds(r) &&
      (exists k :: 0 <= k < |r| && r[k].id == id && r[k].hash == h) &&
      (forall i :: 0 <= i < |es| && es[i].id != id ==> r[i] == es[i]) &&
      (!HasId(es, id) ==> r == es + [Entry(id, h, p)]) &&
      (HasId(es, id) ==> |r| == |es| && forall i :: 0 <= i < |es| ==> r[i].instance == es[i].instance)
  {
    var r := Upserted(es, id, h, p);
    if HasId(es, id) {
      var k :| 0 <= k < |es| && es[k].id == id;
      assert r[k].id == id && r[k].hash == h;
    } else {
      assert r[|es|].id == id && r[|es|].hash == h;
    }
  }

  /** Loading the same hash twice leaves the registry as one load did. */
  lemma UpsertedIdempotent(es: seq<Entry>, id: string, h: Option<Hash>, p: Player)
    ensures Upserted(Upserted(es, id, h, p), id, h, p) == Upserted(es, id, h, p)
  {
    var r := Upserted(es, id, h, p);
    if HasId(es, id) {
      var k :| 0 <= k < |es| && es[k].id == id;
      assert r[k].id == id;
    } else {
      assert r[|es|].id == id;
    }
    assert HasId(r, id);
  }

  /** `window.activePlayers`, injected into every player. */
  class Registry {
    var entries: seq<Entry>

    /** Ids are unique and every entry's id is its instance's id, so distinct
        entries hold distinct players. */
    ghost predicate Valid()
      reads this
    {
      UniqueIds(entries) &&
      forall i :: 0 <= i < |entries| ==> entries[i].id == entries[i].instance.id
    }

    function Instances(): set<Player>
      reads this
    {
      set e | e in entries :: e.instance
    }

    constructor ()
      ensures Valid() && entries == []
    {
      entries := [];
    }
  }

  lemma DistinctInstances(r: Registry, a: int, b: int)
    requires r.Valid() && 0 <= a < |r.entries| && 0 <= b < |r.entries| && a != b
    ensures r.entries[a].instance != r.entries[b].instance
  {
  }

  /** Nothing the synchronisation protocol touches has changed on `p`. */
  twostate predicate Untouched(p: Player)
    reads p
  {
    p.isPlaying == old(p.isPlaying) && p.vol == old(p.vol) && p.pendingSeeks == old(p.pendingSeeks)
  }

  /** `p`'s invariant survives the step if it held before it. */
  twostate predicate ValidKept(p: Player)
    reads p
  {
    old(p.Valid()) ==> p.Valid()
  }

  /** What `checkAnotherPlayer(action)` run by `src` leaves on a sibling `p`:
      a sibling with the same hash mirrors the action muted, one with a
      different hash is paused whatever the action. */
  twostate predicate Mirrored(p: Player, src: Player, sameHash: bool, action: Action)
    reads p
  {
    if !sameHash then
      !p.isPlaying && p.vol == old(p.vol) && p.pendingSeeks == old(p.pendingSeeks)
    else
      match action
      case PlayAction =>
        p.isPlaying && p.vol == 0.0 && p.pendingSeeks == old(p.pendingSeeks) + [src]
      case PauseAction =>
        !p.isPlaying && p.vol == old(p.vol) && p.pendingSeeks == old(p.pendingSeeks)
      case SeekAction =>
        p.isPlaying == old(p.isPlaying) && p.vol == 0.0 && p.pendingSeeks == old(p.pendingSeeks) + [src]
  }

  /** The whole broadcast: every entry with an id other than `src`'s is
      mirrored or paused according to its registered hash. */
  twostate predicate Broadcast(src: Player, es: seq<Entry>, action: Action)
    reads src, set e | e in es :: e.instance
  {
    forall k :: 0 <= k < |es| && es[k].id != src.id ==>
      Mirrored(es[k].instance, src, es[k].hash == src.hash, action)
  }

  /** What `checkMainPlayer(action)` run by the secondary `self` leaves on
      itself and on `main`: `self` is muted when the hashes agree, and `main`
      follows the action, or is paused when they differ. */
  twostate predicate Deferred(self: Player, main: Player, action: Action)
    reads self, main
  {
    self.pendingSeeks == old(self.pendingSeeks) &&
    main.vol == old(main.vol) &&
    if main.hash == self.hash then
      self.vol == 0.0 &&
      match action
      case PlayAction =>
        main.isPlaying && main.pendingSeeks == old(main.pendingSeeks) + [self]
      case PauseAction =>
        !main.isPlaying && main.pendingSeeks == old(main.pendingSeeks)
      case SeekAction =>
        main.isPlaying == old(main.isPlaying) && main.pendingSeeks == old(main.pendingSeeks) + [self]
    else
      !main.isPlaying && self.vol == old(self.vol) && main.pendingSeeks == old(main.pendingSeeks)
  }

  class Player {
    const id: string
    const isMain: bool
    const playlist: seq<Podcast>
    const registry: Registry

    var podcastIndex: int
    var currentPodcast: Podcast
    var isPlaying: bool
    var vol: real
    var hash: Option<Hash>
    var state: bool

    // The Howl engine of the current track.
    var position: real
    var duration: real
    /** Sources of deferred seeks scheduled on this player, oldest first. */
    var pendingSeeks: seq<Player>

    /** The cursor points into the playlist at the current podcast, the
        volume is in [0, 1] and the engine's duration is not negative. */
    ghost predicate Valid()
      reads this
    {
      0 <= podcastIndex < |playlist| && currentPodcast == playlist[podcastIndex] &&
      0.0 <= vol <= 1.0 && 0.0 <= duration
    }

    constructor (id: string, playlist: seq<Podcast>, isMain: bool, registry: Registry)
      requires |playlist| > 0
      ensures Valid()
      ensures this.id == id && this.playlist == playlist && this.isMain == isMain && this.registry == registry
      ensures podcastIndex == 0 && currentPodcast == playlist[0]
      ensures !isPlaying && vol == 0.5 && hash == None && state
      ensures position == 0.0 && duration == 0.0 && pendingSeeks == []
    {
      this.id := id;
      this.playlist := playlist;
      this.isMain := isMain;
      this.registry := registry;
      podcastIndex := 0;
      currentPodcast := playlist[0];
      isPlaying := false;
      vol := 0.5;
      hash := None;
      state := true;
      pendingSeeks := [];
      new;
      UpdatePodcastInfo();
    }

    /** Points at `playlist[podcastIndex]` and starts a fresh engine for it:
        not yet loaded, so its position and duration are 0. */
    method UpdatePodcastInfo()
      requires 0 <= podcastIndex < |playlist|
      modifies `currentPodcast, `position, `duration
      ensures currentPodcast == playlist[podcastIndex]
      ensures position == 0.0 && duration == 0.0
    {
      currentPodcast := playlist[podcastIndex];
      position := 0.0;
      duration := 0.0;
    }

    method Mute()
      modifies `vol
      ensures vol == 0.0
    {
      vol := 0.0;
    }

    /** The engine's seek: the head lands at the requested point, clamped into the track. */
    method Seek(p: real)
      requires 0.0 <= duration
      modifies `position
      ensures position == Clamp(p, duration)
    {
      position := Clamp(p, duration);
    }

    method PlayPodcast()
      modifies `isPlaying
      ensures isPlaying
    {
      isPlaying := true;
    }

    method PausePodcast()
      modifies `isPlaying
      ensures !isPlaying
    {
      isPlaying := false;
    }

    /** `setTimeout(() => this.seek(src.instance.seek()), 50)` */
    method ScheduleSeekFrom(src: Player)
      modifies `pendingSeeks
      ensures pendingSeeks == old(pendingSeeks) + [src]
    {
      pendingSeeks := pendingSeeks + [src];
    }

    /** The oldest scheduled seek fires: the head moves to its source's position at this moment. */
    method FirePendingSeek()
      requires 0.0 <= duration
      modifies `position, `pendingSeeks
      ensures old(pendingSeeks) == [] ==> position == old(position) && pendingSeeks == []
      ensures old(pendingSeeks) != [] ==>
        position == Clamp(old(pendingSeeks[0].position), duration) && pendingSeeks == old(pendingSeeks[1..])
    {
      if pendingSeeks != [] {
        var src := pendingSeeks[0];
        pendingSeeks := pendingSeeks[1..];
        Seek(src.position);
      }
    }

    /** `changePodcast(callback)` with the cursor step of `next` (forward) or `prev`. */
    method ChangePodcast(forward: bool)
      requires Valid()
      modifies `isPlaying, `podcastIndex, `currentPodcast, `position, `duration
      ensures Valid()
      ensures podcastIndex == if forward then NextIndex(old(podcastIndex), |playlist|)
                              else PrevIndex(old(podcastIndex), |playlist|)
      ensures isPlaying && currentPodcast == playlist[podcastIndex]
      ensures position == 0.0 && duration == 0.0
    {
      isPlaying := true;
      if forward {
        podcastIndex := podcastIndex + 1;
        if podcastIndex > |playlist| - 1 {
          podcastIndex := 0;
        }
      } else {
        podcastIndex := podcastIndex - 1;
        if podcastIndex < 0 {
          podcastIndex := |playlist| - 1;
        }
      }
      UpdatePodcastInfo();
      PlayPodcast();
    }

    method Prev()
      requires Valid()
      modifies `isPlaying, `podcastIndex, `currentPodcast, `position, `duration
      ensures Valid()
      ensures podcastIndex == PrevIndex(old(podcastIndex), |playlist|)
      ensures isPlaying && currentPodcast == playlist[podcastIndex]
      ensures position == 0.0 && duration == 0.0
    {
      ChangePodcast(false);
    }

    method Next()
      requires Valid()
      modifies `isPlaying, `podcastIndex, `currentPodcast, `position, `duration
      ensures Valid()
      ensures podcastIndex == NextIndex(old(podcastIndex), |playlist|)
      ensures isPlaying && currentPodcast == playlist[podcastIndex]
      ensures position == 0.0 && duration == 0.0
    {
      ChangePodcast(true);
    }

    /** `updateVolume(e)` with `e.target.value` read as the number `v`. */
    method UpdateVolume(v: real)
      requires Valid()
      modifies `vol
      ensures Valid()
      ensures vol == WrapVolume(v)
    {
      vol := v;
      if vol > 1.0 {
        vol := 0.0;
      } else if vol < 0.0 {
        vol := 1.0;
      }
    }

    /** `setProgressTo15Secconds(dir)` */
    method SetProgressTo15Seconds(dir: int)
      requires Valid()
      modifies `position
      ensures position == SkipTarget(old(position), duration, dir)
      ensures 0.0 <= position <= duration
    {
      var newSeek := if dir == 1 then position + 15.0 else position - 15.0;
      if newSeek >= duration {
        newSeek := duration;
      } else if newSeek <= 0.0 {
        newSeek := 0.0;
      }
      Seek(newSeek);
    }

    /** `getHash()`: fingerprints the current podcast's source and stores it. */
    method GetHash() returns (h: Option<Hash>)
      modifies `hash
      ensures h == hash == Some(Md5(currentPodcast.src))
    {
      hash := Some(Md5(currentPodcast.src));
      h := hash;
    }

    /** The load callback: the engine reports duration `d`; the player takes
        the fingerprint of its current source and upserts its registry entry. */
    method OnLoad(d: real)
      requires Valid() && registry.Valid() && 0.0 <= d
      modifies `hash, `duration, registry`entries
      ensures Valid() && registry.Valid()
      ensures hash == Some(Md5(currentPodcast.src)) && duration == d
      ensures registry.entries == Upserted(old(registry.entries), id, hash, this)
    {
      var h := GetHash();
      duration := d;
      UpsertedSpec(registry.entries, id, hash, this);
      if !HasId(registry.entries, id) {
        registry.entries := registry.entries + [Entry(id, hash, this)];
      } else {
        registry.entries := Rehashed(registry.entries, id, hash);
      }
    }

    /** The flag loop of the play callback: every registered player's `state`
        becomes whether it has the same role as this one. */
    method SetStates()
      modifies registry.Instances()`state
      ensures forall k :: 0 <= k < |registry.entries| ==>
        registry.entries[k].instance.state == (registry.entries[k].instance.isMain == isMain)
    {
      var es := registry.entries;
      var i := 0;
      while i < |es|
        invariant 0 <= i <= |es|
        invariant forall k :: 0 <= k < i ==> es[k].instance.state == (es[k].instance.isMain == isMain)
      {
        var instance := es[i].instance;
        if isMain {
          if !instance.isMain {
            instance.state := false;
          } else {
            instance.state := true;
          }
        } else {
          if instance.isMain {
            instance.state := false;
          } else {
            instance.state := true;
          }
        }
        i := i + 1;
      }
    }

    /** One sibling's step of `checkAnotherPlayer(action)` run by `src`:
        `sameHash` is whether the sibling's registered hash is `src`'s. */
    method Mirror(src: Player, sameHash: bool, action: Action)
      modifies `isPlaying, `vol, `pendingSeeks
      ensures Mirrored(this, src, sameHash, action)
      ensures ValidKept(this)
    {
      if sameHash {
        match action
        case PlayAction =>
          ScheduleSeekFrom(src);
          PlayPodcast();
          Mute();
        case PauseAction =>
          PausePodcast();
        case SeekAction =>
          ScheduleSeekFrom(src);
          Mute();
      } else {
        PausePodcast();
      }
    }

    /** `checkAnotherPlayer(action)`, the main player's broadcast. */
    method CheckAnotherPlayer(action: Action)
      requires registry.Valid()
      modifies registry.Instances()`isPlaying, registry.Instances()`vol, registry.Instances()`pendingSeeks
      ensures Broadcast(this, registry.entries, action)
      ensures forall k :: 0 <= k < |registry.entries| && registry.entries[k].id == id ==>
        Untouched(registry.entries[k].instance)
      ensures Untouched(this)
      ensures forall e :: e in registry.entries && old(e.instance.Valid()) ==> e.instance.Valid()
    {
      var es := registry.entries;
      var i := 0;
      while i < |es|
        invariant 0 <= i <= |es|
        invariant forall k :: 0 <= k < i ==>
          if es[k].id == id then Untouched(es[k].instance)
          else Mirrored(es[k].instance, this, es[k].hash == hash, action)
        invariant forall k :: i <= k < |es| ==> Untouched(es[k].instance)
        invariant Untouched(this)
        invariant forall e :: e in es && old(e.instance.Valid()) ==> e.instance.Valid()
      {
        var player := es[i];
        if player.id != id {
          var instance := player.instance;
          forall k | 0 <= k < |es| && k != i
            ensures es[k].instance != instance
          {
            DistinctInstances(registry, k, i);
          }
          instance.Mirror(this, player.hash == hash, action);
        }
        i := i + 1;
      }
    }

    /** `checkMainPlayer(action)`, a secondary player deferring to `main`. */
    method CheckMainPlayer(action: Action, main: Player)
      requires main != this
      modifies `vol, main`isPlaying, main`pendingSeeks
      ensures Deferred(this, main, action)
      ensures isPlaying == old(isPlaying)
      ensures ValidKept(this) && ValidKept(main)
    {
      if main.hash == hash {
        Mute();
        match action
        case PlayAction =>
          main.ScheduleSeekFrom(this);
          if !main.isPlaying {
            main.PlayPodcast();
          }
        case PauseAction =>
          main.PausePodcast();
        case SeekAction =>
          main.ScheduleSeekFrom(this);
          if !main.isPlaying {
            Mute();
          }
      } else {
        main.PausePodcast();
      }
    }

    /** The tail shared by the play, pause and seek callbacks: a main player
        whose `state` is set broadcasts, a secondary one defers to `main`. */
    method Dispatch(action: Action, main: Player)
      requires registry.Valid() && main.isMain
      modifies registry.Instances()`isPlaying, registry.Instances()`vol, registry.Instances()`pendingSeeks
      modifies `vol, main`isPlaying, main`pendingSeeks
      ensures isMain && state ==> Broadcast(this, registry.entries, action) && Untouched(this)
      ensures !isMain && state ==> Deferred(this, main, action) && isPlaying == old(isPlaying)
      ensures !isMain && state ==>
        forall e :: e in registry.entries && e.instance != this && e.instance != main ==> Untouched(e.instance)
      ensures !state ==>
        Untouched(this) && Untouched(main) && forall e :: e in registry.entries ==> Untouched(e.instance)
      ensures ValidKept(this) && ValidKept(main) && forall e :: e in registry.entries ==> ValidKept(e.instance)
    {
      if isMain && state {
        CheckAnotherPlayer(action);
      } else if !isMain && state {
        CheckMainPlayer(action, main);
      }
    }

    /** The play callback: set every registered player's `state` flag, then
        broadcast or defer with action 0. */
    method OnPlay(main: Player)
      requires registry.Valid() && main.isMain
      modifies registry.Instances()`state
      modifies registry.Instances()`isPlaying, registry.Instances()`vol, registry.Instances()`pendingSeeks
      modifies `vol, main`isPlaying, main`pendingSeeks
      ensures forall k :: 0 <= k < |registry.entries| ==>
        registry.entries[k].instance.state == (registry.entries[k].instance.isMain == isMain)
      ensures this in registry.Instances() ==> state
      ensures isMain && state ==> Broadcast(this, registry.entries, PlayAction) && Untouched(this)
      ensures !isMain && state ==> Deferred(this, main, PlayAction) && isPlaying == old(isPlaying)
      ensures !isMain && state ==>
        forall e :: e in registry.entries && e.instance != this && e.instance != main ==> Untouched(e.instance)
      ensures !state ==>
        Untouched(this) && Untouched(main) && forall e :: e in registry.entries ==> Untouched(e.instance)
      ensures ValidKept(this) && ValidKept(main) && forall e :: e in registry.entries ==> ValidKept(e.instance)
    {
      SetStates();
      Dispatch(PlayAction, main);
    }

    /** The pause callback: broadcast or defer with action 1. */
    method OnPause(main: Player)
      requires registry.Valid() && main.isMain
      modifies registry.Instances()`isPlaying, registry.Instances()`vol, registry.Instances()`pendingSeeks
      modifies `vol, main`isPlaying, main`pendingSeeks
      ensures isMain && state ==> Broadcast(this, registry.entries, PauseAction) && Untouched(this)
      ensures !isMain && state ==> Deferred(this, main, PauseAction) && isPlaying == old(isPlaying)
      ensures !isMain && state ==>
        forall e :: e in registry.entries && e.instance != this && e.instance != main ==> Untouched(e.instance)
      ensures !state ==>
        Untouched(this) && Untouched(main) && forall e :: e in registry.entries ==> Untouched(e.instance)
      ensures ValidKept(this) && ValidKept(main) && forall e :: e in registry.entries ==> ValidKept(e.instance)
    {
      Dispatch(PauseAction, main);
    }

    /** The seek callback: a paused player starts playing, then broadcasts or
        defers with action 2. */
    method OnSeek(main: Player)
      requires registry.Valid() && main.isMain
      modifies `isPlaying
      modifies registry.Instances()`isPlaying, registry.Instances()`vol, registry.Instances()`pendingSeeks
      modifies `vol, main`isPlaying, main`pendingSeeks
      ensures isPlaying && pendingSeeks == old(pendingSeeks)
      ensures isMain && state ==> Broadcast(this, registry.entries, SeekAction) && vol == old(vol)
      ensures !isMain && state ==> Deferred(this, main, SeekAction)
      ensures !isMain && state ==>
        forall e :: e in registry.entries && e.instance != this && e.instance != main ==> Untouched(e.instance)
      ensures !state ==>
        vol == old(vol) && (main != this ==> Untouched(main)) &&
        forall e :: e in registry.entries && e.id != id ==> Untouched(e.instance)
      ensures ValidKept(this) && ValidKept(main) && forall e :: e in registry.entries ==> ValidKept(e.instance)
    {
      if !isPlaying {
        PlayPodcast();
      }
      Dispatch(SeekAction, main);
    }

    /** The end-of-track callback. */
    method OnEnd()
      requires Valid()
      modifies `isPlaying, `podcastIndex, `currentPodcast, `position, `duration
      ensures Valid()
      ensures podcastIndex == NextIndex(old(podcastIndex), |playlist|)
      ensures isPlaying && currentPodcast == playlist[podcastIndex]
      ensures position == 0.0 && duration == 0.0
    {
      Next();
    }
  }
}
