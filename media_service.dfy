/** The shell's media service (`MediaService`): volume and mute state polled
    from PulseAudio, the current MPRIS player chosen through Playerctl, the
    signals it relays to the widgets, and output rotation across sinks.
    Pulse and Playerctl calls are replaced by their results, passed in as
    parameters. */
module MediaService {
  import opened Common

  /** Players that Playerctl must not manage (`UNSUPPORTED_PLAYER_NAMES`). */
  const UnsupportedPlayerNames: seq<string> := ["JBL_Charge_5"]

  datatype PlaybackStatus = Playing | Paused | Stopped

  /** The MPRIS `Metadata` entries the shell reads (`xesam:title`,
      `xesam:artist`, `xesam:album`), typed as the MPRIS D-Bus Interface
      Specification types them; `None` means the key is absent. */
  datatype Metadata = Metadata(title: Option<string>, artist: Option<seq<string>>, album: Option<string>)

  /** A Playerctl player and the metadata it currently reports. */
  datatype Player = Player(name: string, metadata: Metadata)

  /** The properties of the service whose assignment notifies listeners. */
  datatype Property = VolumeProperty | IsMutedProperty | PlayerProperty | SpeakerProperty

  /** What the service emits, in order: property notifications and the
      "playback-status" and "metadata" signals. */
  datatype Emission =
    | Notify(property: Property)
    | PlaybackStatusSignal(status: PlaybackStatus)
    | MetadataSignal(metadata: Metadata)

  datatype PlayerAction = PlayPause | Previous | Next

  /** A control request handed to a player (its failure is only logged). */
  datatype PlayerRequest = PlayerRequest(player: Player, action: PlayerAction)

  /** The volume the service reports for a Pulse reading: zero whenever the
      default sink is muted. */
  function ReportedVolume(pulseVolume: real, pulseMuted: bool): (v: real)
    ensures pulseMuted ==> v == 0.0
    ensures !pulseMuted ==> v == pulseVolume
  {
    if pulseMuted then 0.0 else pulseVolume
  }

  /** `get_top_player`: the first player, or `None` for a missing or empty
      player list. */
  function GetTopPlayer(players: Option<seq<Player>>): (r: Option<Player>)
    ensures r.None? <==> players.None? || players.value == []
    ensures r.Some? ==> r.value == players.value[0]
  {
    if players.Some? && |players.value| != 0 then Some(players.value[0]) else None
  }

  /** The player names `init_player` manages, in order. */
  function SupportedNames(names: seq<string>): (r: seq<string>)
    ensures |r| <= |names|
    ensures forall n :: n in r <==> n in names && n !in UnsupportedPlayerNames
  {
    if names == [] then []
    else
      (if names[0] in UnsupportedPlayerNames then [] else [names[0]]) + SupportedNames(names[1..])
  }

  /** The names managed after the Playerctl manager reports that `name`
      appeared, with "name-appeared" connected to `on_name_appeared`
      `connections` times: each connection runs `init_player` once. */
  function ManagedAfterAppearance(managed: seq<string>, name: string, connections: nat): (r: seq<string>)
    ensures managed <= r
    ensures |r| <= |managed| + connections
  {
    managed + SupportedNames(seq(connections, _ => name))
  }

  /** As written, "name-appeared" is connected twice, so a supported player
      that appears once is managed twice. */
  lemma NameAppearedManagedTwice(managed: seq<string>, name: string)
    requires name !in UnsupportedPlayerNames
    ensures ManagedAfterAppearance(managed, name, 2) == managed + [name, name]
  {
    assert seq(2, _ => name) == [name] + [name];
    assert SupportedNames([name] + [name])[1..] == SupportedNames([name]);
  }

  /** With a single connection a supported player is managed once, and an
      unsupported one not at all. */
  lemma NameAppearedManagedOnce(managed: seq<string>, name: string)
    ensures ManagedAfterAppearance(managed, name, 1) ==
      managed + (if name in UnsupportedPlayerNames then [] else [name])
  {
  }

  /** The result of `swap_speaker`. `DefaultNotListed`: the default sink's
      name is not among the sinks (`.index` raises before anything changes).
      `Switched(s)`: `s` is the new default. `SetFailed(s)`: Pulse could not
      find `s` any more; the error is logged and the default is kept. */
  datatype SwapOutcome = DefaultNotListed | Switched(sink: string) | SetFailed(sink: string)

  /** The index after `i` among `n` sinks, wrapping from the last to the
      first. */
  function NextSinkIndex(i: nat, n: nat): (j: nat)
    requires i < n
    ensures j < n
    ensures j == if i == n - 1 then 0 else i + 1
  {
    (i + 1) % n
  }

  /** `swap_speaker`, with `sinkNames` the names of Pulse's sink list in
      order and `available` the names Pulse can still look up when the new
      default is set. */
  function SwapSpeaker(sinkNames: seq<string>, defaultSink: string, available: set<string>): (r: SwapOutcome)
    ensures r == DefaultNotListed <==> defaultSink !in sinkNames
    ensures r != DefaultNotListed ==>
      r.sink == sinkNames[NextSinkIndex(FirstIndex(sinkNames, defaultSink), |sinkNames|)]
    ensures r != DefaultNotListed ==> (r.Switched? <==> r.sink in available)
  {
    if defaultSink !in sinkNames then DefaultNotListed
    else
      var i := FirstIndex(sinkNames, defaultSink);
      var next := sinkNames[(i + 1) % |sinkNames|];
      if next in available then Switched(next) else SetFailed(next)
  }

  /** The default sink after a swap. */
  function DefaultAfterSwap(sinkNames: seq<string>, defaultSink: string, available: set<string>): string {
    match SwapSpeaker(sinkNames, defaultSink, available)
    case Switched(s) => s
    case _ => defaultSink
  }

  /** No name is listed twice: each name differs from every later one. */
  predicate Distinct(s: seq<string>) {
    s == [] || (s[0] !in s[1..] && Distinct(s[1..]))
  }

  /** In a distinct list, the names at two different indices differ. */
  lemma {:induction false} DistinctAt(s: seq<string>, a: nat, b: nat)
    requires Distinct(s) && a < b < |s|
    ensures s[a] != s[b]
  {
    if a == 0 {
      assert s[b] == s[1..][b - 1];
    } else {
      DistinctAt(s[1..], a - 1, b - 1);
    }
  }

  /** The default sink after `k` swaps while every listed sink stays
      available. */
  function DefaultAfterSwaps(sinkNames: seq<string>, defaultSink: string, k: nat): string
    decreases k
  {
    if k == 0 then defaultSink
    else DefaultAfterSwap(sinkNames, DefaultAfterSwaps(sinkNames, defaultSink, k - 1), AllSinks(sinkNames))
  }

  /** Every listed sink, as the set of names Pulse can look up. */
  function AllSinks(sinkNames: seq<string>): (r: set<string>)
    ensures forall s :: s in r <==> s in sinkNames
  {
    set s | s in sinkNames
  }

  lemma FirstIndexOfDistinct(s: seq<string>, i: nat)
    requires Distinct(s) && i < |s|
    ensures FirstIndex(s, s[i]) == i
  {
    var f := FirstIndex(s, s[i]);
    if f < i {
      DistinctAt(s, f, i);
    }
  }

  /** One swap from the sink at index `j`, with every sink available, selects
      the sink at the next index. */
  lemma SwapFromIndex(sinkNames: seq<string>, j: nat)
    requires Distinct(sinkNames) && j < |sinkNames|
    ensures DefaultAfterSwap(sinkNames, sinkNames[j], AllSinks(sinkNames))
      == sinkNames[NextSinkIndex(j, |sinkNames|)]
  {
    FirstIndexOfDistinct(sinkNames, j);
  }

  /** Euclidean division leaves one remainder: `q * n + r` with
      `0 <= r < n` has remainder `r`. */
  lemma ModUnique(a: int, n: int, q: int, r: int)
    requires n > 0 && 0 <= r < n && a == q * n + r
    ensures a % n == r
  {
    var d, m := a / n, a % n;
    assert a == d * n + m;
    assert (q - d) * n == m - r;
    if q > d {
      assert (q - d) * n >= n by { MulAtLeast(q - d, n); }
    } else if q < d {
      assert (d - q) * n >= n by { MulAtLeast(d - q, n); }
    }
  }

  lemma MulAtLeast(x: int, n: int)
    requires x >= 1 && n > 0
    ensures x * n >= n
  {
  }

  /** Stepping on from an index reduced modulo `n` is stepping on from the
      unreduced index. */
  lemma NextOfMod(a: nat, n: nat)
    requires n > 0
    ensures (if a % n == n - 1 then 0 else a % n + 1) == (a + 1) % n
  {
    var q, r := a / n, a % n;
    assert a == q * n + r;
    if r + 1 < n {
      ModUnique(a + 1, n, q, r + 1);
    } else {
      ModUnique(a + 1, n, q + 1, 0);
    }
  }

  /** Round-robin: with Pulse's (distinct) sink names, `k` swaps from the
      sink at index `i` reach the sink `k` places further on, wrapping from
      the last sink to the first as often as needed. */
  lemma {:induction false} SwapsRotate(sinkNames: seq<string>, i: nat, k: nat)
    requires Distinct(sinkNames) && i < |sinkNames|
    ensures DefaultAfterSwaps(sinkNames, sinkNames[i], k) == sinkNames[(i + k) % |sinkNames|]
    decreases k
  {
    var n := |sinkNames|;
    if k == 0 {
      ModUnique(i, n, 0, i);
    } else {
      SwapsRotate(sinkNames, i, k - 1);
      var j := (i + k - 1) % n;
      var previous := DefaultAfterSwaps(sinkNames, sinkNames[i], k - 1);
      assert previous == sinkNames[j];
      SwapFromIndex(sinkNames, j);
      NextOfMod(i + k - 1, n);
      assert NextSinkIndex(j, n) == (i + k) % n;
      assert DefaultAfterSwaps(sinkNames, sinkNames[i], k) == DefaultAfterSwap(sinkNames, previous, AllSinks(sinkNames));
    }
  }

  /** A full round of `n` swaps comes back to the starting sink; with a
      single sink every swap re-selects it. */
  lemma SwapRoundTrip(sinkNames: seq<string>, i: nat)
    requires Distinct(sinkNames) && i < |sinkNames|
    ensures DefaultAfterSwaps(sinkNames, sinkNames[i], |sinkNames|) == sinkNames[i]
    ensures |sinkNames| == 1 ==> DefaultAfterSwap(sinkNames, sinkNames[i], AllSinks(sinkNames)) == sinkNames[i]
  {
    var n := |sinkNames|;
    SwapsRotate(sinkNames, i, n);
    ModUnique(i + n, n, 1, i);
    SwapFromIndex(sinkNames, i);
  }

  /** The player list Playerctl's manager reports holds only players that
      were handed to it: every listed player's name is among `managed`. */
  predicate ListsManaged(players: Option<seq<Player>>, managed: seq<string>) {
    players.Some? ==> forall p | p in players.value :: p.name in managed
  }

  class MediaService {
    var volume: real
    var isMuted: bool
    var player: Option<Player>
    /** Names of the players handed to Playerctl's manager, in order. */
    var managedPlayers: seq<string>
    /** Everything emitted to listeners since construction, in order. */
    var emitted: seq<Emission>
    /** Control requests sent to players, in order. */
    var requests: seq<PlayerRequest>

    /** Only supported players are managed, the current player is a managed
        one, and every control request went to a managed player. */
    predicate Valid()
      reads this
    {
      && (forall n | n in managedPlayers :: n !in UnsupportedPlayerNames)
      && (player.Some? ==> player.value.name in managedPlayers)
      && (forall r | r in requests :: r.player.name in managedPlayers)
    }

    /** The filter of `init_player` reaches the current player: while the
        service is valid, the current player and every player a control
        request went to is a supported one. */
    lemma CurrentPlayerSupported()
      requires Valid()
      ensures player.Some? ==> player.value.name !in UnsupportedPlayerNames
      ensures forall r | r in requests :: r.player.name !in UnsupportedPlayerNames
    {
    }

    /** `__init__`: the first Pulse reading is taken as is (not yet zeroed
        when muted), the players present are handed to `init_player`, and
        the top player becomes current. No widget listens yet, so nothing is
        recorded as emitted. */
    constructor (pulseVolume: real, pulseMuted: bool, playerNames: seq<string>, players: Option<seq<Player>>)
      requires ListsManaged(players, SupportedNames(playerNames))
      ensures Valid()
      ensures player.Some? ==> player.value.name !in UnsupportedPlayerNames
      ensures volume == pulseVolume && isMuted == pulseMuted
      ensures managedPlayers == SupportedNames(playerNames)
      ensures player == GetTopPlayer(players)
      ensures emitted == [] && requests == []
    {
      volume := pulseVolume;
      isMuted := pulseMuted;
      player := None;
      managedPlayers := [];
      emitted := [];
      requests := [];
      new;
      InitPlayers(playerNames);
      player := GetTopPlayer(players);
    }

    /** `update_volume_and_is_muted`, run every 100 ms: each property is
        assigned, and so notified, only when its value changes; returns
        `True` so that the poll repeats. */
    method UpdateVolumeAndIsMuted(pulseVolume: real, pulseMuted: bool) returns (repeat: bool)
      requires Valid()
      modifies this
      ensures Valid()
      ensures repeat
      ensures volume == ReportedVolume(pulseVolume, pulseMuted) && isMuted == pulseMuted
      ensures emitted == old(emitted)
        + (if old(volume) != volume then [Notify(VolumeProperty)] else [])
        + (if old(isMuted) != isMuted then [Notify(IsMutedProperty)] else [])
      ensures player == old(player) && managedPlayers == old(managedPlayers) && requests == old(requests)
    {
      var v := pulseVolume;
      if pulseMuted {
        v := 0.0;
      }
      if v != volume {
        volume := v;
        emitted := emitted + [Notify(VolumeProperty)];
      }
      if pulseMuted != isMuted {
        isMuted := pulseMuted;
        emitted := emitted + [Notify(IsMutedProperty)];
      }
      return true;
    }

    /** `init_player`: a supported player is managed; an unsupported one is
        ignored. */
    method InitPlayer(name: string)
      requires Valid()
      modifies this
      ensures Valid()
      ensures managedPlayers == old(managedPlayers) + (if name in UnsupportedPlayerNames then [] else [name])
      ensures volume == old(volume) && isMuted == old(isMuted) && player == old(player)
      ensures emitted == old(emitted) && requests == old(requests)
    {
      if name in UnsupportedPlayerNames {
        return;
      }
      managedPlayers := managedPlayers + [name];
    }

    /** The loop of `__init__` over the player names already present. */
    method InitPlayers(names: seq<string>)
      requires Valid()
      modifies this
      ensures Valid()
      ensures managedPlayers == old(managedPlayers) + SupportedNames(names)
      ensures volume == old(volume) && isMuted == old(isMuted) && player == old(player)
      ensures emitted == old(emitted) && requests == old(requests)
    {
      for i := 0 to |names|
        invariant managedPlayers == old(managedPlayers) + SupportedNames(names[..i])
        invariant volume == old(volume) && isMuted == old(isMuted) && player == old(player)
        invariant emitted == old(emitted) && requests == old(requests)
      {
        SupportedNamesAppend(names[..i], names[i]);
        assert names[..i + 1] == names[..i] + [names[i]];
        InitPlayer(names[i]);
      }
      assert names[..|names|] == names;
    }

    /** `on_name_appeared`, connected once (see `NameAppearedManagedTwice`
        for the code as written). */
    method OnNameAppeared(name: string)
      requires Valid()
      modifies this
      ensures Valid()
      ensures managedPlayers == ManagedAfterAppearance(old(managedPlayers), name, 1)
      ensures volume == old(volume) && isMuted == old(isMuted) && player == old(player)
      ensures emitted == old(emitted) && requests == old(requests)
    {
      NameAppearedManagedOnce(managedPlayers, name);
      InitPlayer(name);
    }

    /** `on_speaker_changed`: the default sink changed. */
    method OnSpeakerChanged()
      requires Valid()
      modifies this
      ensures Valid()
      ensures emitted == old(emitted) + [Notify(SpeakerProperty)]
      ensures volume == old(volume) && isMuted == old(isMuted) && player == old(player)
      ensures managedPlayers == old(managedPlayers) && requests == old(requests)
    {
      emitted := emitted + [Notify(SpeakerProperty)];
    }

    /** `on_player`, on a player appearing or vanishing: the top player
        becomes current. */
    method OnPlayer(players: Option<seq<Player>>)
      requires Valid() && ListsManaged(players, managedPlayers)
      modifies this
      ensures Valid()
      ensures player.Some? ==> player.value.name !in UnsupportedPlayerNames
      ensures player == GetTopPlayer(players)
      ensures emitted == old(emitted) + [Notify(PlayerProperty)]
      ensures volume == old(volume) && isMuted == old(isMuted)
      ensures managedPlayers == old(managedPlayers) && requests == old(requests)
    {
      player := GetTopPlayer(players);
      emitted := emitted + [Notify(PlayerProperty)];
    }

    /** `on_playback_status`: the status is relayed; when playback starts
        and a player is current, its metadata is relayed as well. */
    method OnPlaybackStatus(status: PlaybackStatus)
      requires Valid()
      modifies this
      ensures Valid()
      ensures emitted == old(emitted) + [PlaybackStatusSignal(status)]
        + (if status == Playing && player.Some? then [MetadataSignal(player.value.metadata)] else [])
      ensures volume == old(volume) && isMuted == old(isMuted) && player == old(player)
      ensures managedPlayers == old(managedPlayers) && requests == old(requests)
    {
      emitted := emitted + [PlaybackStatusSignal(status)];
      if status == Playing && player.Some? {
        emitted := emitted + [MetadataSignal(player.value.metadata)];
      }
    }

    /** `on_metadata`: only metadata that is present is relayed. */
    method OnMetadata(metadata: Option<Metadata>)
      requires Valid()
      modifies this
      ensures Valid()
      ensures emitted == old(emitted) + (if metadata.Some? then [MetadataSignal(metadata.value)] else [])
      ensures volume == old(volume) && isMuted == old(isMuted) && player == old(player)
      ensures managedPlayers == old(managedPlayers) && requests == old(requests)
    {
      if metadata.Some? {
        emitted := emitted + [MetadataSignal(metadata.value)];
      }
    }

    /** `toggle_play_pause`, `skip_previous` and `skip_next`: nothing
        happens without a current player. */
    method Control(action: PlayerAction)
      requires Valid()
      modifies this
      ensures Valid()
      ensures forall r | r in requests :: r.player.name !in UnsupportedPlayerNames
      ensures player.None? ==> requests == old(requests)
      ensures player.Some? ==> requests == old(requests) + [PlayerRequest(player.value, action)]
      ensures volume == old(volume) && isMuted == old(isMuted) && player == old(player)
      ensures managedPlayers == old(managedPlayers) && emitted == old(emitted)
    {
      if player.None? {
        return;
      }
      requests := requests + [PlayerRequest(player.value, action)];
    }
  }

  lemma {:induction false} SupportedNamesAppend(names: seq<string>, name: string)
    ensures SupportedNames(names + [name])
      == SupportedNames(names) + (if name in UnsupportedPlayerNames then [] else [name])
    decreases |names|
  {
    var last := if name in UnsupportedPlayerNames then [] else [name];
    if names == [] {
      assert names + [name] == [name];
      assert [name][1..] == [];
    } else {
      var rest := names[1..];
      var head := if names[0] in UnsupportedPlayerNames then [] else [names[0]];
      assert (names + [name])[0] == names[0];
      assert (names + [name])[1..] == rest + [name];
      SupportedNamesAppend(rest, name);
      calc {
        SupportedNames(names + [name]);
        head + SupportedNames(rest + [name]);
        head + (SupportedNames(rest) + last);
        (head + SupportedNames(rest)) + last;
        SupportedNames(names) + last;
      }
    }
  }
}
