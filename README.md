# Gem-Shell core, modelled in Dafny

Gem-Shell is a desktop shell and application runner built on the fabric
widget toolkit. This project models its core and proves properties of that
model:

- The runner:
  - The reader of `.desktop` entries, which keeps `Name` and `Icon` and stops once both are known.
  - The app list, built from the glob of the applications directory.
  - The per-app button, which launches the app with `gtk-launch` and exits.
  - Escape, which closes the runner.
- The Bluetooth widgets:
  - The stable connected/trusted/other ordering of the device list.
  - The overview's power and connection summary.
  - The per-device element.
- The media service:
  - Pulse volume and mute polling, where a property is notified only on change.
  - Which players are managed, and the top player.
  - Relaying playback status and metadata.
  - Round-robin rotation of the output sink.
- The media widget:
  - The title and artist labels of the bar and the panel, and the visibility of the info box.
  - The play, output and mute glyphs.
- The notification service, covering silent mode and internal notifications.
- The tool buttons: screenshot, colour picker and silent-mode toggle.
- The volume on-screen display and its hide timeout.

Objects whose fields the shell updates in place are classes. Handlers are
methods that state the whole new state. Pure logic is functions, and the
properties are lemmas about those functions.

Calls into libraries this model cannot see are replaced as follows:

- Fabric, GTK, GLib, Pulse, Playerctl and BlueZ:
  - What such a call returns becomes a parameter.
  - A shell command becomes an entry in a `Process` log, and so does `exit(0)`.
  - A property notification or signal becomes an entry in an emission log.
- Fabric's `truncate(s, n)` is kept as the pair `Truncated(s, n)`. Its output is not computed.

Some behaviour of the code is easy to misread, so it is stated here:

- The runner has no launch history and no fuzzy search, so neither is modelled.
- A repeated `Name` or `Icon` key overwrites the earlier value until the scan stops, so the last value before the stop is kept (`DesktopEntry.ScanKeepsLastValueBeforeStop`).
- The launch command passes `path.name`, with its `.desktop` extension (`AppElements.LaunchCommand`).
- Entries without a name are kept, with a missing name, and so does the model.

## Model

| member | source | states |
|---|---|---|
| DesktopEntry.RStrip | runner/modules/desktop_app.py:27 | the result is a prefix of the line that does not end in whitespace, and everything removed is whitespace |
| DesktopEntry.SplitAtFirst | runner/modules/desktop_app.py:28-32 | no split iff the line has no `=`; otherwise key + "=" + value is the line and the key holds no `=` |
| DesktopEntry.SplitRecoversKeyAndValue | runner/modules/desktop_app.py:28-32 | splitting `key=value` for a key without `=` gives back exactly that key and value, even when the value contains `=` |
| DesktopEntry.StopAt | runner/modules/desktop_app.py:39-40 | the first line count after which both fields are known, or the whole file; no earlier count has both |
| DesktopEntry.ScanIsFoldUpToStop | runner/modules/desktop_app.py:26-40 | the early-stopping scan equals reading every line of the prefix that ends at the stop |
| DesktopEntry.FoldIsLastValues | runner/modules/desktop_app.py:34-37 | reading every line leaves each field at the value of its last exact-key line, `None` if there is none |
| DesktopEntry.ScanKeepsLastValueBeforeStop | runner/modules/desktop_app.py:26-40 | `from_path` keeps, for each of `Name` and `Icon`, the last value given before the stop |
| DesktopEntry.LaterLinesIgnored | runner/modules/desktop_app.py:39-40 | once the scan has both fields, appending lines changes nothing |
| DesktopEntry.LineWithoutSeparatorSkipped | runner/modules/desktop_app.py:28-30 | a line without `=` changes no field and is skipped by the scan |
| DesktopEntry.NameOnlyFromExactKey | runner/modules/desktop_app.py:34-35 | the name is set iff the stripped line starts with `Name=`, and it is set to the rest of the line |
| DesktopEntry.IconOnlyFromExactKey | runner/modules/desktop_app.py:36-37 | the icon is set iff the stripped line starts with `Icon=`, and it is set to the rest of the line |
| DesktopEntry.EmptyIconEndsScan | runner/modules/desktop_app.py:36-40 | an empty value counts as found: `Icon=` after a name ends the scan with icon "" |
| DesktopEntry.NewDesktopApp | runner/modules/desktop_app.py:10-17 | no icon name gives no icon image; otherwise the image is the icon theme's 50x50 lookup of that name |
| DesktopEntry.ReadFields | runner/modules/desktop_app.py:25-40 | the loop with `continue` and `break` computes exactly the scan's fields |
| DesktopEntry.FromPath | runner/modules/desktop_app.py:20-42 | `None` iff the path does not exist; the read error iff the file exists but cannot be read or decoded; otherwise the record for that path with the scanned name |
| Runner.OnKeyPress | runner/modules/runner.py:49-53 | the runner exits iff the key is Escape (65307); any other key is passed on |
| Runner.GetAppPaths | runner/modules/runner.py:62-72 | `None` iff some match is not a regular file; otherwise the resolved paths in glob order |
| Runner.ReadEntries | runner/modules/runner.py:74-75 | one `from_path` result per path, in order, iff no path is unreadable; otherwise the error of the first unreadable path |
| Runner.GetDesktopApps | runner/modules/runner.py:74-75 | iterating the `None` of `get_app_paths` is an error; otherwise the comprehension over the paths |
| Runner.GetAppElements | runner/modules/runner.py:55-60 | a new element per match, holding that match's entry, iff every match is a file that exists and reads; otherwise the error that stops the runner: a non-file match, else the first unreadable file, else a missing entry |
| AppElements.LaunchCommand | runner/modules/app_element.py:47 | the command starts with `gtk-launch ` and is as long as prefix, file name and ` & disown` together |
| AppElements.LaunchCommandNamesFile | runner/modules/app_element.py:47 | the entry's file name is recovered from the command between prefix and suffix |
| AppElements.LaunchCommandInjective | runner/modules/app_element.py:47 | two entries with the same command have the same file name |
| AppElements.AppElement.constructor | runner/modules/app_element.py:27-40 | the box holds the icon image first only when one was loaded, then the name label limited to 24 |
| AppElements.AppElement.OnClicked | runner/modules/app_element.py:46-48 | exactly the launch command is issued, then the process has exited |
| BluetoothService.IsDeviceConnected | shell/services/bluetooth.py:7-9 | true iff some device is connected |
| BluetoothService.CurrentDevice | shell/services/bluetooth.py:11-16 | `None` iff no device is connected; otherwise the first connected device |
| BluetoothUi.Insert | shell/modules/bluetooth.py:217-219 | inserting adds exactly the one device to the multiset of devices |
| BluetoothUi.SortedDevices | shell/modules/bluetooth.py:208-219 | the sorted list is a permutation of the device list |
| BluetoothUi.SortedIsGrouped | shell/modules/bluetooth.py:208-219 | the sort equals connected devices, then trusted unconnected ones, then the rest, each group in input order |
| BluetoothUi.SortedDevicesOrder | shell/modules/bluetooth.py:209-219 | keys never decrease along the sorted list; no connected device follows an unconnected one; no trusted device follows one that is neither connected nor trusted |
| BluetoothUi.SortedDevicesIsStable | shell/modules/bluetooth.py:217-219 | devices with equal keys keep their relative order |
| BluetoothUi.DisplayName | shell/modules/bluetooth.py:269 | the device's name, or its address when it has none |
| BluetoothUi.ConnectedDeviceName | shell/modules/bluetooth.py:110-121 | "Disconnected" iff nothing is connected; otherwise the current device's display name truncated to 15 |
| BluetoothUi.ConnectionLabel | shell/modules/bluetooth.py:85-98 | the label set on a connection change: "Disconnected", or the current device's display name, untruncated |
| BluetoothUi.BluetoothOverview.constructor | shell/modules/bluetooth.py:21-44 | power glyph from `enabled`, link glyph from whether a device is connected, label from `get_connected_device_name` |
| BluetoothUi.BluetoothOverview.OnNotifyState | shell/modules/bluetooth.py:66-69 | the power button is sensitive iff the adapter state is "on" or "off"; nothing else changes |
| BluetoothUi.BluetoothOverview.OnNotifyConnectedDevices | shell/modules/bluetooth.py:85-108 | link glyph iff a current device exists, and the untruncated label |
| BluetoothUi.BluetoothOverview.OnNotifyEnabled | shell/modules/bluetooth.py:71-83 | the power glyph follows `enabled`, then the connection summary is refreshed |
| BluetoothUi.NewDeviceElement | shell/modules/bluetooth.py:246-276 | the connect button is sensitive iff the device is not connecting; link or link-add glyph; paired glyph; display name |
| BluetoothUi.OnConnectClicked | shell/modules/bluetooth.py:251-254 | a click asks BlueZ to connect the element's device iff that device is not connected at click time |
| BluetoothUi.ClickFollowsDeviceNotGlyph | shell/modules/bluetooth.py:246-254 | the click follows the device's current state, so an element showing the link glyph can ask to connect |
| BluetoothUi.DeviceElements | shell/modules/bluetooth.py:205-206 | one element per device, in sorted order |
| BluetoothUi.BluetoothConnections.constructor | shell/modules/bluetooth.py:146-157 | the scan glyph follows `scanning`, and the list starts empty |
| BluetoothUi.BluetoothConnections.OnNotifyDevices | shell/modules/bluetooth.py:221-222 | the list becomes the elements of the sorted devices |
| BluetoothUi.BluetoothConnections.OnNotifyScanning | shell/modules/bluetooth.py:224-230 | the scan glyph follows `scanning`; the list is kept |
| MediaService.ReportedVolume | shell/services/media.py:103-108 | a muted sink reports volume 0.0; otherwise Pulse's volume |
| MediaService.GetTopPlayer | shell/services/media.py:163-168 | `None` iff the player list is missing or empty; otherwise its first player |
| MediaService.SupportedNames | shell/services/media.py:119-122 | a name is managed iff it appeared and is not `JBL_Charge_5` |
| MediaService.ManagedAfterAppearance | shell/services/media.py:82-91 | each connection of "name-appeared" runs `init_player` once more; the managed list only grows |
| MediaService.NameAppearedManagedTwice | shell/services/media.py:82-91 | as written, a supported player that appears once is managed twice |
| MediaService.NameAppearedManagedOnce | shell/services/media.py:139-140 | with one connection, a supported player is managed once and an unsupported one not at all |
| MediaService.NextSinkIndex | shell/services/media.py:154 | the next index wraps from the last sink to the first |
| MediaService.SwapSpeaker | shell/services/media.py:145-161 | fails iff the default sink is not listed; otherwise targets the sink after it, and switches iff Pulse can still find it |
| MediaService.SwapsRotate | shell/services/media.py:145-161 | with distinct sinks that are all available, any number k of swaps from sink i selects sink (i + k) mod n |
| MediaService.SwapRoundTrip | shell/services/media.py:145-161 | n swaps return to the starting sink; a single sink re-selects itself |
| MediaService.MediaService.constructor | shell/services/media.py:58-91 | the first Pulse reading is taken as is, supported players are managed, and the top player is current; it is a managed player, so never an unsupported one |
| MediaService.MediaService.UpdateVolumeAndIsMuted | shell/services/media.py:103-114 | the reported volume and mute state are stored, each notified only when it changed, and the poll repeats |
| MediaService.MediaService.InitPlayer | shell/services/media.py:119-127 | an unsupported name is ignored; any other is appended to the managed players |
| MediaService.MediaService.InitPlayers | shell/services/media.py:77-78 | all supported names present at start are managed, in order |
| MediaService.MediaService.OnNameAppeared | shell/services/media.py:139-140 | a newly appeared name is handled by `init_player` once |
| MediaService.MediaService.OnSpeakerChanged | shell/services/media.py:116-117 | the speaker property is notified |
| MediaService.MediaService.OnPlayer | shell/services/media.py:142-143 | the top player of the manager's list becomes current and the player property is notified; it is managed, so never an unsupported one |
| MediaService.MediaService.OnPlaybackStatus | shell/services/media.py:129-133 | the status is relayed, followed by the current player's metadata iff it is playing and a player exists |
| MediaService.MediaService.OnMetadata | shell/services/media.py:135-137 | metadata is relayed iff it is present |
| MediaService.MediaService.Control | shell/services/media.py:170-195 | without a current player nothing is requested; otherwise exactly one request to that player; no request ever goes to an unsupported player |
| MediaService.MediaService.CurrentPlayerSupported | shell/services/media.py:119-127 | the filter of `init_player` reaches the current player: it, and every player sent a request, is supported |
| MediaControls.ShownTitle | shell/modules/media.py:141 | a title is shown iff it is present and not "" |
| MediaControls.WithTitle | shell/modules/media.py:140-154 | title labels are visible iff a title is shown: the bar's truncated to 24, the panel's in full; otherwise both are hidden and the info box is left alone |
| MediaControls.WithArtist | shell/modules/media.py:156-174 | raises iff the artist list is empty, after making the info box visible; the bar's artist is truncated iff the title label is visible |
| MediaControls.WithInfoVisibility | shell/modules/media.py:176-183 | only ever hides the info box, and exactly when title and artist are both blank |
| MediaControls.WithAlbum | shell/modules/media.py:185-190 | the panel's album is visible iff the album is present and not "" |
| MediaControls.AfterMetadata | shell/modules/media.py:126-138 | the handler ends early iff the artist list is empty |
| MediaControls.InfoVisibilityAfterMetadata | shell/modules/media.py:140-183 | afterwards the info box is visible if a title or artist list was given, hidden if both are blank, and unchanged otherwise |
| MediaControls.InfoHiddenOnlyWhenBlank | shell/modules/media.py:176-183 | a visible info box is hidden iff title and artist are both blank |
| MediaControls.BarArtistTruncatedIffTitleShown | shell/modules/media.py:160-168 | the bar truncates the first artist iff a title is shown; the panel shows it in full |
| MediaControls.EmptyArtistListAborts | shell/modules/media.py:157-160 | an empty artist list leaves the new title and a visible info box, and the album is untouched |
| MediaControls.OutputIcon | shell/modules/media.py:204-212 | headphones glyph iff the sink is one of the two listed headphones; speaker otherwise |
| MediaControls.PlayIcon | shell/modules/media.py:118-124 | pause glyph iff playing; play otherwise |
| MediaControls.MuteIcon | shell/modules/media.py:214-225 | muted glyph iff muted; volume-high otherwise |
| MediaControls.MediaPanel.constructor | shell/modules/media.py:241-258 | the window and its title, artist and album labels start hidden |
| MediaControls.MediaControl.constructor | shell/modules/media.py:49-91 | the info box starts hidden, with play and speaker glyphs and a mute glyph that follows the service |
| MediaControls.MediaControl.OnPlaybackStatus | shell/modules/media.py:118-124 | the play glyph follows the status; nothing else changes |
| MediaControls.MediaControl.OnNotifySpeaker | shell/modules/media.py:204-212 | the output glyph follows the default sink |
| MediaControls.MediaControl.OnNotifyIsMuted | shell/modules/media.py:214-225 | the mute glyph follows the mute state |
| MediaControls.MediaControl.UpdateTitle | shell/modules/media.py:140-154 | the view becomes `WithTitle` of the old one |
| MediaControls.MediaControl.UpdateArtist | shell/modules/media.py:156-174 | the view becomes `WithArtist` of the old one, and it reports the `IndexError` |
| MediaControls.MediaControl.UpdateMediaInfoVisibility | shell/modules/media.py:176-183 | the view becomes `WithInfoVisibility` of the old one |
| MediaControls.MediaControl.UpdateAlbum | shell/modules/media.py:185-190 | the view becomes `WithAlbum` of the old one |
| MediaControls.MediaControl.OnMetadata | shell/modules/media.py:126-138 | raises iff the artist list is empty; the view becomes `AfterMetadata` of the old one |
| Notifications.LastSilentMode | shell/services/notifications.py:17-22 | the mode carried by the last "silent-mode-changed" signal, or the initial mode |
| Notifications.LastSilentModeSkips | shell/services/notifications.py:24-30 | a "notification-added" signal does not change the mode listeners know |
| Notifications.NotificationService.constructor | shell/services/notifications.py:9-11 | silent mode starts off, with no notifications and no signals |
| Notifications.NotificationService.ToggleSilentMode | shell/services/notifications.py:20-22 | the mode flips, the new mode is emitted, and listeners stay in step with it |
| Notifications.NotificationService.SendInternalNotification | shell/services/notifications.py:24-30 | the notification is stored under the new id, that id is emitted, and every emitted id stays stored |
| Tools.PickerBody | shell/modules/tools.py:74 | the body opens with the span markup, and its length is the fixed markup plus the colour twice |
| Tools.ColorFromBody | shell/modules/tools.py:74 | the colour is recovered from the body right after the opening markup |
| Tools.PickerBodyInjective | shell/modules/tools.py:74 | different colours give different bodies |
| Tools.PickerNotification | shell/modules/tools.py:65-80 | app "HyprPicker", replaces id -1, no icon, summary "Color:", the colour body, no actions or hints, timeout -1, urgency 1 |
| Tools.ScreenshotTool.OnClicked | shell/modules/tools.py:46 | exactly `hyprshot -m region` is started, and the process keeps running |
| Tools.HyprPickerTool.OnClicked | shell/modules/tools.py:62-63 | exactly `hyprpicker` is started |
| Tools.HyprPickerTool.SendNotification | shell/modules/tools.py:65-82 | the picker notification for the colour is stored under the new id and announced |
| Tools.SilentModeToggle.constructor | shell/modules/tools.py:14-38 | the button carries the tool-button style |
| Tools.SilentModeToggle.OnClicked | shell/modules/tools.py:96-102 | silent mode flips; afterwards the button has the `silent-mode-on` style iff silent mode is on, and its other styles are kept |
| Osd.Rearm | shell/modules/osd.py:58-69 | the known source is removed, and the new id is kept and pending |
| Osd.ExpireAsWritten | shell/modules/osd.py:54-56 | the source ends, but the window keeps its id |
| Osd.Expire | shell/modules/osd.py:54-56 | the source ends and the id is forgotten |
| Osd.TimerTracksPending | shell/modules/osd.py:54-69 | with `Expire`, the id always names the single pending hide, so no removal targets a missing source |
| Osd.ExpireAsWrittenLeavesStaleId | shell/modules/osd.py:54-69 | as written, a volume change followed by the hide leaves a stale id that the next change removes again |
| Osd.VolumeOsd.constructor | shell/modules/osd.py:21-52 | hidden, no timeout, the scale at the service's volume |
| Osd.VolumeOsd.OnNotifyVolume | shell/modules/osd.py:58-69 | shown at the new volume, with exactly one hide pending under the new id |
| Osd.VolumeOsd.OnTimeoutExpired | shell/modules/osd.py:54-56 | hidden, the source ends (`false`), and no hide is pending or remembered |

## Left out

- Other parts of the shell are not modelled: the status bar, the control panel layout, the system-monitor and weather widgets, the configuration, secrets, hover cursors and the circular and animated progress widgets. They are widget layout, with no rules of their own.
- Icon image loading (`get_app_icon_pixbuf`) and the icon theme are a parameter `loadIcon`. Its failures are whatever that parameter returns.
- The glob of the applications directory, `is_file`, `resolve`, `exists` and reading a file become the `GlobMatch` records and the `files` map. A file that cannot be read is one `Unreadable` case; which exception it raises is not modelled. The check at import time that the directory exists is not modelled.
- Fabric's `truncate` is recorded as `Text.Truncated(s, n)`. How it shortens the text, and what it does with a missing name, are fabric's and not modelled.
- `str.isspace` is modelled by the fixed set of characters Python counts as whitespace. No other Unicode processing is modelled.
- `MediaControl.update_art` and the panel's art image are not modelled, because they are image decoding and file paths.
- `toggle_mute` is a single Pulse call, and its effect arrives through the next poll, which is modelled.
- The repeater that calls `update_volume_and_is_muted` every 100 ms, and the GLib timeout delay of the OSD, are not modelled: the model has no time. The OSD delay comes from `config/osd.py`, which is not part of this model.
- Volume is a Dafny `real`. Floating-point rounding is not modelled.
- The order in which fabric delivers signals to several listeners is not modelled, and neither is the toolkit's main loop.
- A device element's wiring back to the service is not modelled: its device's "changed" signal notifying "devices" (shell/modules/bluetooth.py:237), and the connect callback notifying "connected-devices" (shell/modules/bluetooth.py:253). Their effect is the handlers they trigger, `BluetoothConnections.OnNotifyDevices` and `BluetoothOverview.OnNotifyConnectedDevices`, which are modelled.
- Playerctl's manager and its player list are not modelled. The list handed to `get_top_player` is a parameter, required to hold only managed players (`MediaService.ListsManaged`).
- The hover toggling of the media panel (`toggle_visible`) and BlueZ's own device state changes are not modelled. Neither are the power, scan and connect operations (`toggle_power`, `scan`, `toggle_scan`, `connect_device`), which are BlueZ calls.
- The replies from Playerctl and D-Bus are not modelled. A failed play, pause or skip is only logged, so `Control` records the request and not its outcome.
- Fabric's D-Bus notification server, including how it allocates ids, is not modelled. The id comes in as a parameter.
- `MediaService.MediaService.OnNameAppeared` follows the single connection that is evidently intended. The double connection as written is captured by `NameAppearedManagedTwice` (see Findings).
- `Osd.VolumeOsd.OnTimeoutExpired` also clears the timeout id, as evidently intended. The code as written is captured by `Osd.ExpireAsWritten` (see Findings).
- Python's `sorted` is modelled by a stable insertion sort. Any stable sort by the same key gives the same list, and `BluetoothUi.SortedIsGrouped` states that list without reference to the insertion sort.

## Findings

| source | as written | input that shows it | evidently intended | confidence | as-written member | corrected member |
|---|---|---|---|---|---|---|
| shell/services/media.py:82-91 | `on_name_appeared` is connected to "name-appeared" twice: once on its own, and again inside `bulk_connect` | a supported player name appears once, so `init_player` runs twice and two players for it are managed, each relaying its signals | one connection, so each appearing player is managed once | medium, not executed | MediaService.NameAppearedManagedTwice | MediaService.NameAppearedManagedOnce |
| shell/modules/osd.py:54-56 | `on_timeout_expired` hides the window and ends its source but keeps `timeout_id` | volume change (id 1), the hide fires, then another volume change: `source_remove(1)` targets a source GLib no longer has, and GLib reports it | forget the id when the hide fires, so that the id always names the pending hide | medium, not executed | Osd.ExpireAsWrittenLeavesStaleId | Osd.TimerTracksPending |
