/**
 * Whole-page runs of the synchronisation protocol, built only from the
 * contracts of the `Players` module: a main and a secondary widget on one
 * registry, each loading an episode before one of them starts or seeks.
 *
 * Every run starts from the page right after both loads and delivers, after
 * each engine call, the callback the engine answers it with, including the
 * calls the protocol makes on the other player: `playPodcast` is followed by
 * the player's `onplay` and `pausePodcast` by its `onpause`, also when the
 * player was already in that state, and a fired deferred seek is followed
 * by the target's `onseek`.
 */
module Scenarios {
  import opened PlayerRules
  import opened Players

  /** A page with a main and a secondary widget on one registry, each having
      loaded its episode: both paused at volume 0.5, `state` set, at the
      start of their tracks, with nothing queued. */
  method LoadedPage(a: Podcast, b: Podcast, da: real, db: real)
    returns (registry: Registry, main: Player, secondary: Player)
    requires 0.0 <= da && 0.0 <= db
    ensures fresh(registry) && fresh(main) && fresh(secondary)
    ensures registry.Valid()
    ensures registry.entries == [Entry("main", main.hash, main), Entry("secondary", secondary.hash, secondary)]
    ensures main.registry == registry && secondary.registry == registry
    ensures main.isMain && !secondary.isMain && main.id == "main" && secondary.id == "secondary"
    ensures main.Valid() && secondary.Valid()
    ensures main.hash == Some(Md5(a.src)) && secondary.hash == Some(Md5(b.src))
    ensures main.duration == da && secondary.duration == db
    ensures main.position == 0.0 && secondary.position == 0.0
    ensures !main.isPlaying && !secondary.isPlaying && main.vol == 0.5 && secondary.vol == 0.5
    ensures main.state && secondary.state && main.pendingSeeks == [] && secondary.pendingSeeks == []
  {
    registry := new Registry();
    main := new Player("main", [a], true, registry);
    secondary := new Player("secondary", [b], false, registry);
    main.OnLoad(da);
    secondary.OnLoad(db);
  }

  /** `main` and `secondary` are the two widgets of a page on `registry`,
      registered under their own ids and hashes. */
  ghost predicate TwoWidgetPage(registry: Registry, main: Player, secondary: Player)
    reads registry, main, secondary
  {
    registry.Valid() &&
    registry.entries == [Entry("main", main.hash, main), Entry("secondary", secondary.hash, secondary)] &&
    main.registry == registry && secondary.registry == registry &&
    main.isMain && !secondary.isMain && main.id == "main" && secondary.id == "secondary" &&
    main.Valid() && secondary.Valid()
  }

  /** Main starts playing the episode the paused secondary also holds, and
      the play callbacks that follow are delivered: main's, then the
      secondary's, answering the start main's broadcast gave it. */
  method SharedPlay(registry: Registry, main: Player, secondary: Player)
    requires TwoWidgetPage(registry, main, secondary) && main.hash == secondary.hash
    requires !main.isPlaying && !secondary.isPlaying && main.state && secondary.state
    requires main.vol == 0.5 && main.pendingSeeks == [] && secondary.pendingSeeks == []
    modifies main, secondary
    ensures TwoWidgetPage(registry, main, secondary) && main.hash == secondary.hash
    ensures main.duration == old(main.duration) && secondary.duration == old(secondary.duration)
    ensures main.position == old(main.position) && secondary.position == old(secondary.position)
    ensures main.isPlaying && main.vol == 0.5 && !main.state
    ensures secondary.isPlaying && secondary.vol == 0.0 && secondary.state
    ensures secondary.pendingSeeks == [main] && main.pendingSeeks == [secondary]
  {
    main.PlayPodcast();
    main.OnPlay(main);
    assert registry.entries[1].instance == secondary;
    assert secondary.isPlaying && secondary.vol == 0.0 && secondary.pendingSeeks == [main];
    secondary.OnPlay(main);
    assert registry.entries[0].instance == main;
  }

  /** Both players play the shared episode, main without `state` and the
      secondary with it, and each has one seek to the other queued. The
      secondary's seek fires first: its seek callback defers to main and
      queues another seek of main. Main's two seeks then fire, and its seek
      callback, finding `state` cleared, does nothing. Both end at main's
      position with nothing queued. */
  method DrainSeekExchange(registry: Registry, main: Player, secondary: Player)
    requires TwoWidgetPage(registry, main, secondary) && main.hash == secondary.hash
    requires main.isPlaying && secondary.isPlaying && !main.state && secondary.state
    requires main.pendingSeeks == [secondary] && secondary.pendingSeeks == [main]
    requires 0.0 <= main.position <= main.duration && main.position <= secondary.duration
    modifies main, secondary
    ensures TwoWidgetPage(registry, main, secondary) && main.hash == secondary.hash
    ensures main.duration == old(main.duration) && secondary.duration == old(secondary.duration)
    ensures main.isPlaying && secondary.isPlaying && !main.state && secondary.state
    ensures main.vol == old(main.vol) && secondary.vol == 0.0
    ensures main.position == old(main.position) && secondary.position == old(main.position)
    ensures main.pendingSeeks == [] && secondary.pendingSeeks == []
  {
    secondary.FirePendingSeek();
    secondary.OnSeek(main);
    assert main.pendingSeeks == [secondary, secondary] && secondary.position == main.position;
    main.FirePendingSeek();
    main.OnSeek(main);
    assert registry.entries[1].instance == secondary;
    assert main.pendingSeeks == [secondary] && main.position == old(main.position);
    main.FirePendingSeek();
    main.OnSeek(main);
    assert registry.entries[1].instance == secondary;
  }

  /** Main pauses while its `state` is cleared: its pause callback
      broadcasts nothing, and the secondary is left as it was. */
  method PauseMainWithoutState(registry: Registry, main: Player, secondary: Player)
    requires TwoWidgetPage(registry, main, secondary) && !main.state
    modifies main, secondary
    ensures TwoWidgetPage(registry, main, secondary) && main.hash == old(main.hash)
    ensures !main.isPlaying && !main.state && main.vol == old(main.vol) && main.pendingSeeks == old(main.pendingSeeks)
    ensures main.position == old(main.position) && main.duration == old(main.duration)
    ensures unchanged(secondary)
  {
    main.PausePodcast();
    main.OnPause(main);
    assert registry.entries[1].instance == secondary;
  }

  /** Main and secondary have the same episode loaded and main starts
      playing. The broadcast starts the secondary muted with a seek to main
      queued; the secondary's own play callback then clears main's `state`
      and sets its own, defers to main (already playing) and queues a seek
      of main back to the secondary. */
  method MainPlaysSharedEpisode(ep: Podcast) returns (main: Player, secondary: Player)
    ensures main.isPlaying && main.vol == 0.5 && !main.state
    ensures secondary.isPlaying && secondary.vol == 0.0 && secondary.state
    ensures secondary.pendingSeeks == [main] && main.pendingSeeks == [secondary]
  {
    var registry;
    registry, main, secondary := LoadedPage(ep, ep, 1800.0, 1800.0);
    SharedPlay(registry, main, secondary);
  }

  /** The shared-episode play followed by a pause of main. Because the
      secondary's play callback cleared main's `state`, main's pause callback
      broadcasts nothing, and the muted secondary keeps playing. */
  method MainPausesAfterSharedPlay(ep: Podcast) returns (main: Player, secondary: Player)
    ensures !main.isPlaying && !main.state
    ensures secondary.isPlaying && secondary.vol == 0.0 && secondary.state
  {
    var registry;
    registry, main, secondary := LoadedPage(ep, ep, 1800.0, 1800.0);
    SharedPlay(registry, main, secondary);
    PauseMainWithoutState(registry, main, secondary);
  }

  /** The secondary starts an episode main does not hold: its play callback
      takes `state` from main and pauses main, whose pause callback, with
      `state` cleared, does nothing. */
  method SecondaryStartsOther(registry: Registry, main: Player, secondary: Player)
    requires TwoWidgetPage(registry, main, secondary) && main.hash != secondary.hash
    requires !main.isPlaying && main.pendingSeeks == [] && secondary.pendingSeeks == []
    modifies main, secondary
    ensures TwoWidgetPage(registry, main, secondary) && main.hash != secondary.hash
    ensures !main.isPlaying && !main.state && main.vol == old(main.vol) && main.pendingSeeks == []
    ensures secondary.isPlaying && secondary.state && secondary.vol == old(secondary.vol) && secondary.pendingSeeks == []
  {
    secondary.PlayPodcast();
    secondary.OnPlay(main);
    assert registry.entries[0].instance == main;
    assert !main.isPlaying && !main.state && secondary.isPlaying && secondary.state;
    main.OnPause(main);
    assert registry.entries[1].instance == secondary;
  }

  /** Main and secondary hold different episodes. The secondary starts: its
      play callback takes `state` from main and pauses main, whose pause
      callback does nothing. Then main starts: its play callback takes
      `state` back and pauses the secondary, its volume untouched, and the
      secondary's pause callback does nothing. */
  method MainPlaysOtherEpisode(a: Podcast, b: Podcast) returns (main: Player, secondary: Player)
    requires a.src != b.src
    ensures main.isPlaying && main.state
    ensures !secondary.isPlaying && !secondary.state
    ensures secondary.vol == 0.5 && secondary.pendingSeeks == [] && main.pendingSeeks == []
  {
    var registry;
    registry, main, secondary := LoadedPage(a, b, 1800.0, 1200.0);
    SecondaryStartsOther(registry, main, secondary);
    main.PlayPodcast();
    main.OnPlay(main);
    assert registry.entries[1].instance == secondary;
    secondary.OnPause(main);
  }

  /** The shared-episode play, its queued seeks drained, then a pause of
      main: main is paused without `state`, and the secondary plays muted
      with `state`, both at the start of the track, with nothing queued. */
  method PausedMainPage(ep: Podcast) returns (registry: Registry, main: Player, secondary: Player)
    ensures fresh(main) && fresh(secondary)
    ensures TwoWidgetPage(registry, main, secondary) && main.hash == secondary.hash
    ensures main.duration == 1800.0 && secondary.duration == 1800.0
    ensures main.position == 0.0 && secondary.position == 0.0
    ensures !main.isPlaying && !main.state && main.vol == 0.5 && main.pendingSeeks == []
    ensures secondary.isPlaying && secondary.state && secondary.vol == 0.0 && secondary.pendingSeeks == []
  {
    registry, main, secondary := LoadedPage(ep, ep, 1800.0, 1800.0);
    SharedPlay(registry, main, secondary);
    DrainSeekExchange(registry, main, secondary);
    PauseMainWithoutState(registry, main, secondary);
  }

  /** The secondary seeks to 42 s while main is paused: its seek callback
      mutes it and queues a seek of main, which fires. */
  method SeekDeferredToMain(registry: Registry, main: Player, secondary: Player)
    requires TwoWidgetPage(registry, main, secondary) && main.hash == secondary.hash
    requires 42.0 <= main.duration && 42.0 <= secondary.duration
    requires !main.isPlaying && !main.state && secondary.isPlaying && secondary.state
    requires main.pendingSeeks == [] && secondary.pendingSeeks == []
    modifies main, secondary
    ensures TwoWidgetPage(registry, main, secondary) && main.hash == secondary.hash
    ensures main.duration == old(main.duration) && secondary.duration == old(secondary.duration)
    ensures main.vol == old(main.vol)
    ensures !main.isPlaying && !main.state && main.position == 42.0 && main.pendingSeeks == []
    ensures secondary.isPlaying && secondary.state && secondary.vol == 0.0 && secondary.position == 42.0
    ensures secondary.pendingSeeks == []
  {
    secondary.Seek(42.0);
    secondary.OnSeek(main);
    assert !main.isPlaying && main.pendingSeeks == [secondary] && secondary.vol == 0.0;
    main.FirePendingSeek();
  }

  /** Main's seek callback answers the fired seek: it starts main and, with
      `state` cleared, broadcasts nothing. Main's play callback answers that
      start, takes `state` from the secondary and broadcasts the play; the
      secondary's play callback answers the broadcast start, takes `state`
      back and defers to main, queueing a seek of main. */
  method MainAnswersSeek(registry: Registry, main: Player, secondary: Player)
    requires TwoWidgetPage(registry, main, secondary) && main.hash == secondary.hash
    requires !main.isPlaying && !main.state && secondary.isPlaying && secondary.state
    requires main.pendingSeeks == [] && secondary.pendingSeeks == []
    modifies main, secondary
    ensures TwoWidgetPage(registry, main, secondary) && main.hash == secondary.hash
    ensures main.position == old(main.position) && secondary.position == old(secondary.position)
    ensures main.duration == old(main.duration) && secondary.duration == old(secondary.duration)
    ensures main.isPlaying && !main.state && main.vol == old(main.vol) && main.pendingSeeks == [secondary]
    ensures secondary.isPlaying && secondary.state && secondary.vol == 0.0 && secondary.pendingSeeks == [main]
  {
    main.OnSeek(main);
    assert registry.entries[1].instance == secondary;
    assert main.isPlaying && secondary.pendingSeeks == [] && main.pendingSeeks == [];
    assert main in registry.Instances();
    main.OnPlay(main);
    assert main.state && registry.entries[1].instance == secondary;
    assert secondary.isPlaying && secondary.pendingSeeks == [main] && main.pendingSeeks == [];
    secondary.OnPlay(main);
    assert registry.entries[0].instance == main;
  }

  /** From a paused main and a muted secondary playing the same episode, the
      secondary seeks to 42 s. The deferred seek of main fires; main's seek
      callback starts main, main's play callback broadcasts the start, and
      the secondary's play callback takes `state` back. Main plays at 42 s
      without `state`, the secondary plays muted at 42 s with `state`, and
      each has one seek to the other queued. */
  method SecondarySeeksSharedEpisode(ep: Podcast) returns (main: Player, secondary: Player)
    ensures main.isPlaying && !main.state && main.position == 42.0 && main.pendingSeeks == [secondary]
    ensures secondary.isPlaying && secondary.state && secondary.vol == 0.0 && secondary.position == 42.0
    ensures secondary.pendingSeeks == [main]
  {
    var registry;
    registry, main, secondary := PausedMainPage(ep);
    SeekDeferredToMain(registry, main, secondary);
    MainAnswersSeek(registry, main, secondary);
  }

  /** The shared-episode seek continued until no seek is queued: the
      secondary's seek fires and defers to main once more, and main's seeks
      fire with nothing further to do. Both players play at 42 s, main with
      its volume and without `state`, the secondary muted with `state`. */
  method SeekExchangeSettles(ep: Podcast) returns (main: Player, secondary: Player)
    ensures main.isPlaying && secondary.isPlaying && !main.state && secondary.state
    ensures main.position == 42.0 && secondary.position == 42.0
    ensures main.vol == 0.5 && secondary.vol == 0.0
    ensures main.pendingSeeks == [] && secondary.pendingSeeks == []
  {
    var registry;
    registry, main, secondary := PausedMainPage(ep);
    SeekDeferredToMain(registry, main, secondary);
    MainAnswersSeek(registry, main, secondary);
    DrainSeekExchange(registry, main, secondary);
  }
}
