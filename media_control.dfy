/** The bar's media widget (`MediaControl`) and the panel it opens on hover
    (`MediaPanel`): a play/pause, an output and a mute button whose glyphs
    follow the media service, and an info box of title and artist labels
    that follows the "metadata" signal. Album art is not part of this
    model. */
module MediaControls {
  import opened Common
  import opened MediaService

  /** Sinks shown with the headphones glyph (`HEADPHONES`). */
  const HeadphoneSinks: seq<string> := [
    "alsa_output.usb-SteelSeries_Arctis_Nova_7X-00.analog-stereo",
    "bluez_output.88_08_94_15_DC_49.1"
  ]

  /** Longest title or artist the bar shows before `truncate` shortens it. */
  const BarTextLimit := 24

  /** A text label: what it was last given, and whether it is shown. */
  datatype Label = Label(text: Text, visible: bool)

  /** Everything the metadata handlers change: the visibility of the bar's
      info box, the bar's title and artist labels, and the panel's title,
      artist and album labels. */
  datatype InfoView = InfoView(
    infoVisible: bool,
    title: Label,
    artist: Label,
    panelTitle: Label,
    panelArtist: Label,
    panelAlbum: Label)

  /** How a metadata handler ends: normally, or with the `IndexError` that
      indexing an empty artist list raises, after the changes made before
      it. */
  datatype Step = Done(view: InfoView) | IndexError(view: InfoView)

  /** The title the widgets show: present and not empty. */
  function ShownTitle(m: Metadata): (r: Option<string>)
    ensures r.Some? <==> m.title.Some? && m.title.value != ""
    ensures r.Some? ==> r == m.title
  {
    if m.title.Some? && m.title.value != "" then m.title else None
  }

  /** The artist list passes `update_artist`'s test: present and not the
      single empty name. An empty list passes it too. */
  predicate ArtistListed(m: Metadata) {
    m.artist.Some? && m.artist.value != [""]
  }

  /** The metadata whose artist entry makes `update_artist` raise. */
  predicate ArtistRaises(m: Metadata) {
    m.artist == Some([])
  }

  /** The only metadata that hides the info box: both title and artist
      present and blank. */
  predicate BlanksInfo(m: Metadata) {
    m.title == Some("") && m.artist == Some([""])
  }

  /** `update_title`. */
  function WithTitle(v: InfoView, m: Metadata): (r: InfoView)
    ensures r.title.visible <==> ShownTitle(m).Some?
    ensures r.panelTitle.visible <==> ShownTitle(m).Some?
    ensures ShownTitle(m).Some? ==>
      r.title.text == Truncated(m.title.value, BarTextLimit) && r.panelTitle.text == Full(m.title.value)
    ensures ShownTitle(m).None? ==> r.title.text == v.title.text && r.panelTitle.text == v.panelTitle.text
    ensures r.infoVisible == (v.infoVisible || ShownTitle(m).Some?)
    ensures r.artist == v.artist && r.panelArtist == v.panelArtist && r.panelAlbum == v.panelAlbum
  {
    match ShownTitle(m)
    case Some(t) =>
      v.(infoVisible := true, title := Label(Truncated(t, BarTextLimit), true),
         panelTitle := Label(Full(t), true))
    case None =>
      v.(title := v.title.(visible := false), panelTitle := v.panelTitle.(visible := false))
  }

  /** `update_artist`: the bar shortens the first artist only when the
      title label is shown; the info box is made visible before the list is
      indexed, so an empty list leaves it visible and raises. */
  function WithArtist(v: InfoView, m: Metadata): (r: Step)
    ensures r.IndexError? <==> ArtistRaises(m)
    ensures ArtistListed(m) ==> r.view.infoVisible
    ensures !ArtistListed(m) ==> r.view.infoVisible == v.infoVisible
    ensures r.IndexError? ==> r.view == v.(infoVisible := true)
    ensures r.Done? && ArtistListed(m) ==>
      var a := m.artist.value[0];
      r.view.artist == Label(if v.title.visible then Truncated(a, BarTextLimit) else Full(a), true)
      && r.view.panelArtist == Label(Full(a), true)
    ensures !ArtistListed(m) ==> !r.view.artist.visible && !r.view.panelArtist.visible
    ensures r.view.title == v.title && r.view.panelTitle == v.panelTitle && r.view.panelAlbum == v.panelAlbum
  {
    if ArtistListed(m) then
      var shown := v.(infoVisible := true);
      if m.artist.value == [] then IndexError(shown)
      else
        var a := m.artist.value[0];
        Done(shown.(artist := Label(if v.title.visible then Truncated(a, BarTextLimit) else Full(a), true),
                    panelArtist := Label(Full(a), true)))
    else
      Done(v.(artist := v.artist.(visible := false), panelArtist := v.panelArtist.(visible := false)))
  }

  /** `update_media_info_visibility`: it only ever hides the info box. */
  function WithInfoVisibility(v: InfoView, m: Metadata): (r: InfoView)
    ensures r.infoVisible ==> v.infoVisible
    ensures r.infoVisible != v.infoVisible <==> v.infoVisible && BlanksInfo(m)
    ensures r.(infoVisible := v.infoVisible) == v
  {
    if BlanksInfo(m) then v.(infoVisible := false) else v
  }

  /** `update_album`: the album shows on the panel only. */
  function WithAlbum(v: InfoView, m: Metadata): (r: InfoView)
    ensures r.panelAlbum.visible <==> m.album.Some? && m.album.value != ""
    ensures r.panelAlbum.visible ==> r.panelAlbum.text == Full(m.album.value)
    ensures !r.panelAlbum.visible ==> r.panelAlbum.text == v.panelAlbum.text
    ensures r.(panelAlbum := v.panelAlbum) == v
  {
    if m.album.Some? && m.album.value != "" then v.(panelAlbum := Label(Full(m.album.value), true))
    else v.(panelAlbum := v.panelAlbum.(visible := false))
  }

  /** `on_metadata`: title, artist, info-box visibility and album in that
      order; an exception in one step skips the rest. */
  function AfterMetadata(v: InfoView, m: Metadata): (r: Step)
    ensures r.IndexError? <==> ArtistRaises(m)
  {
    match WithArtist(WithTitle(v, m), m)
    case IndexError(w) => IndexError(w)
    case Done(w) => Done(WithAlbum(WithInfoVisibility(w, m), m))
  }

  /** After a metadata update the info box is visible when a title or an
      artist was shown (or an empty artist list raised), hidden when title
      and artist are both blank, and otherwise as it was. */
  lemma InfoVisibilityAfterMetadata(v: InfoView, m: Metadata)
    ensures AfterMetadata(v, m).view.infoVisible ==
      if ShownTitle(m).Some? || ArtistListed(m) then true
      else if BlanksInfo(m) then false
      else v.infoVisible
  {
  }

  /** The info box is hidden by a metadata update exactly when it was
      visible and title and artist are both blank. */
  lemma InfoHiddenOnlyWhenBlank(v: InfoView, m: Metadata)
    ensures v.infoVisible && !AfterMetadata(v, m).view.infoVisible <==> v.infoVisible && BlanksInfo(m)
  {
  }

  /** The bar shortens the first artist exactly when a title is shown; the
      panel always shows it in full. */
  lemma BarArtistTruncatedIffTitleShown(v: InfoView, m: Metadata)
    requires ArtistListed(m) && !ArtistRaises(m)
    ensures AfterMetadata(v, m).view.artist ==
      Label(if ShownTitle(m).Some? then Truncated(m.artist.value[0], BarTextLimit) else Full(m.artist.value[0]), true)
    ensures AfterMetadata(v, m).view.panelArtist == Label(Full(m.artist.value[0]), true)
  {
  }

  /** An empty artist list leaves the info box visible with the new title,
      and the album and visibility steps never run. */
  lemma EmptyArtistListAborts(v: InfoView, m: Metadata)
    requires ArtistRaises(m)
    ensures AfterMetadata(v, m) == IndexError(WithTitle(v, m).(infoVisible := true))
    ensures AfterMetadata(v, m).view.panelAlbum == v.panelAlbum
  {
  }

  /** The glyph of the output button for the default sink. */
  function OutputIcon(sinkName: string): (i: Icon)
    ensures i == Headphones <==> sinkName in HeadphoneSinks
    ensures i != Headphones ==> i == Speaker
  {
    if sinkName in HeadphoneSinks then Headphones else Speaker
  }

  /** The glyph of the play button: pause while playing, play otherwise. */
  function PlayIcon(status: PlaybackStatus): (i: Icon)
    ensures i == Pause <==> status == Playing
    ensures i != Pause ==> i == Play
  {
    if status == Playing then Pause else Play
  }

  /** The glyph of the mute button. */
  function MuteIcon(isMuted: bool): (i: Icon)
    ensures i == VolumeMuted <==> isMuted
    ensures i != VolumeMuted ==> i == VolumeHigh
  {
    if isMuted then VolumeMuted else VolumeHigh
  }

  /** The panel window; it and its labels start hidden. */
  class MediaPanel {
    var visible: bool
    var title: Label
    var artist: Label
    var album: Label

    constructor ()
      ensures !visible && !title.visible && !artist.visible && !album.visible
    {
      visible := false;
      title := Label(Full(""), false);
      artist := Label(Full(""), false);
      album := Label(Full(""), false);
    }
  }

  class MediaControl {
    const panel: MediaPanel
    var playIcon: Icon
    var outputIcon: Icon
    var muteIcon: Icon
    var infoVisible: bool
    var title: Label
    var artist: Label

    function View(): InfoView
      reads this, panel
    {
      InfoView(infoVisible, title, artist, panel.title, panel.artist, panel.album)
    }

    /** `MediaControl.__init__`: the info box starts hidden, the play and
        output buttons show their default glyphs and the mute button
        follows the service. The bar labels are created with fabric's
        default visibility, passed in as `labelsShown`. */
    constructor (serviceMuted: bool, labelsShown: bool)
      ensures fresh(panel)
      ensures !panel.visible && !View().infoVisible
      ensures !View().panelTitle.visible && !View().panelArtist.visible && !View().panelAlbum.visible
      ensures title.visible == labelsShown && artist.visible == labelsShown
      ensures playIcon == Play && outputIcon == Speaker && muteIcon == MuteIcon(serviceMuted)
    {
      panel := new MediaPanel();
      playIcon := Play;
      outputIcon := Speaker;
      muteIcon := if serviceMuted then VolumeMuted else VolumeHigh;
      infoVisible := false;
      title := Label(Full(""), labelsShown);
      artist := Label(Full(""), labelsShown);
    }

    /** `on_playback_status`. */
    method OnPlaybackStatus(status: PlaybackStatus)
      modifies this
      ensures playIcon == PlayIcon(status)
      ensures outputIcon == old(outputIcon) && muteIcon == old(muteIcon)
      ensures View() == old(View())
    {
      if status == Playing {
        playIcon := Pause;
      } else {
        playIcon := Play;
      }
    }

    /** `on_notify_speaker`, given the name of the new default sink. */
    method OnNotifySpeaker(sinkName: string)
      modifies this
      ensures outputIcon == OutputIcon(sinkName)
      ensures playIcon == old(playIcon) && muteIcon == old(muteIcon)
      ensures View() == old(View())
    {
      if sinkName in HeadphoneSinks {
        outputIcon := Headphones;
      } else {
        outputIcon := Speaker;
      }
    }

    /** `on_notify_is_muted`, given the service's new mute state. */
    method OnNotifyIsMuted(isMuted: bool)
      modifies this
      ensures muteIcon == MuteIcon(isMuted)
      ensures playIcon == old(playIcon) && outputIcon == old(outputIcon)
      ensures View() == old(View())
    {
      if isMuted {
        muteIcon := VolumeMuted;
      } else {
        muteIcon := VolumeHigh;
      }
    }

    method UpdateTitle(m: Metadata)
      modifies this, panel
      ensures View() == WithTitle(old(View()), m)
      ensures playIcon == old(playIcon) && outputIcon == old(outputIcon) && muteIcon == old(muteIcon)
      ensures panel.visible == old(panel.visible)
    {
      if m.title.Some? && m.title.value != "" {
        infoVisible := true;
        var t := m.title.value;
        title := Label(Truncated(t, BarTextLimit), true);
        panel.title := Label(Full(t), true);
      } else {
        title := title.(visible := false);
        panel.title := panel.title.(visible := false);
      }
    }

    /** `update_artist`; `raised` reports the `IndexError`. */
    method UpdateArtist(m: Metadata) returns (raised: bool)
      modifies this, panel
      ensures raised <==> WithArtist(old(View()), m).IndexError?
      ensures View() == WithArtist(old(View()), m).view
      ensures playIcon == old(playIcon) && outputIcon == old(outputIcon) && muteIcon == old(muteIcon)
      ensures panel.visible == old(panel.visible)
    {
      if m.artist.Some? && m.artist.value != [""] {
        infoVisible := true;
        if m.artist.value == [] {
          return true;
        }
        var a := m.artist.value[0];
        if title.visible {
          artist := Label(Truncated(a, BarTextLimit), true);
        } else {
          artist := Label(Full(a), true);
        }
        panel.artist := Label(Full(a), true);
      } else {
        artist := artist.(visible := false);
        panel.artist := panel.artist.(visible := false);
      }
      return false;
    }

    method UpdateMediaInfoVisibility(m: Metadata)
      modifies this
      ensures View() == WithInfoVisibility(old(View()), m)
      ensures playIcon == old(playIcon) && outputIcon == old(outputIcon) && muteIcon == old(muteIcon)
    {
      if m.title == Some("") && m.artist == Some([""]) {
        infoVisible := false;
      }
    }

    method UpdateAlbum(m: Metadata)
      modifies panel
      ensures View() == WithAlbum(old(View()), m)
      ensures panel.visible == old(panel.visible)
    {
      if m.album.Some? && m.album.value != "" {
        panel.album := Label(Full(m.album.value), true);
      } else {
        panel.album := panel.album.(visible := false);
      }
    }

    /** `on_metadata`; `raised` reports the `IndexError` that ends the
        handler early. */
    method OnMetadata(m: Metadata) returns (raised: bool)
      modifies this, panel
      ensures raised <==> ArtistRaises(m)
      ensures View() == AfterMetadata(old(View()), m).view
      ensures playIcon == old(playIcon) && outputIcon == old(outputIcon) && muteIcon == old(muteIcon)
      ensures panel.visible == old(panel.visible)
    {
      UpdateTitle(m);
      raised := UpdateArtist(m);
      if raised {
        return;
      }
      UpdateMediaInfoVisibility(m);
      UpdateAlbum(m);
    }
  }
}
