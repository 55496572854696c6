# Odyssey: M3U playlist reading and list-row composition

This project models two pieces of the Odyssey music player for Android, and proves properties of them in Dafny.

- **The M3U playlist reader** (`M3UParser.getFileURLsFromFile`). It opens the playlist through the content resolver and reads it line by line with a `do … while` loop. It collects every line the loop examines that does not start with `#`; the line after an examined `#` line is read and discarded. In the model, the stream is a sequence of lines. `LineReader` is the `BufferedReader` cursor: it returns `None`, which stands for `null`, once the stream is exhausted. `GetFileUrlsFromFile` is the loop, and it is proved against the function `Urls`.
- **The list row** (`ListViewItem`). A row shows a track, bookmark, file or playlist. The class has one field per view the setters write: title, subtitle, additional subtitle, section title, icon and title colour. Each setter's `modifies` clause names the fields it may change. Its `ensures` gives the new row as a pure function of the old row, such as `TrackRow` or `FileRow`. The lemmas state what those functions compose.

The reader keeps a quirk of the code. After a line that starts with `#`, the loop calls `readLine()` a second time and discards the result unexamined, even when it is a location or a blank line. An extended M3U file without the `#EXTM3U` header therefore yields nothing (`ExtendedM3UYieldsNothing`); one that opens with the header yields only its first location, because the header swallows the first `#EXTINF` line (`ExtendedM3UWithHeaderYieldsFirstOnly`). Blank lines the loop examines are kept (`EmptyLineKept`).

The helpers that `ListViewItem` calls but that are not part of this model are `FormatHelper.formatTrackNumber`, `formatDiscNumber`, `formatTracktimeFromMS` and `formatTimeStampToString`, `ThemeUtils.getThemeColor`, and the "tracks" string resource. They are fields of the `Helpers` value each row is built with. Every property holds for any such functions. `Integer.toString`, which renders a bookmark's track count, is modelled in `Decimal`.

Files: `wrappers.dfy` (Option), `decimal.dfy`, `m3u_parser.dfy`, `list_view_item.dfy`.

## Model

| member | source | states |
|---|---|---|
| `M3UParser.LineReader.constructor` | app/src/main/java/org/gateshipone/odyssey/utils/M3UParser.java:60 | A fresh reader is positioned before the first line of the stream. |
| `M3UParser.LineReader.ReadLine` | app/src/main/java/org/gateshipone/odyssey/utils/M3UParser.java:64-76 | `readLine` returns the next line and advances by one; at the end it returns null (None) and stays put, however often it is called. |
| `M3UParser.Urls` | app/src/main/java/org/gateshipone/odyssey/utils/M3UParser.java:64-81 | The collected entries are never more than the lines, and none of them starts with `#`. |
| `M3UParser.GetFileUrlsFromFile` | app/src/main/java/org/gateshipone/odyssey/utils/M3UParser.java:45-85 | When the stream cannot be opened (FileNotFoundException) or is null, the result is empty. Otherwise the do-while loop terminates and its list is exactly `Urls` of the file's lines. |
| `M3UParser.Examined` | app/src/main/java/org/gateshipone/odyssey/utils/M3UParser.java:64-77 | The positions the loop's first `readLine` of an iteration returns all lie inside the file. |
| `M3UParser.Kept` | app/src/main/java/org/gateshipone/odyssey/utils/M3UParser.java:71-80 | The positions whose lines are added all lie inside the file. |
| `M3UParser.UrlsAreKeptLines` | app/src/main/java/org/gateshipone/odyssey/utils/M3UParser.java:63-81 | The result is a subsequence of the input lines. Entry j is the line at the j-th kept position, and those positions strictly increase. So file order is kept and no line contributes twice. |
| `M3UParser.KeptIffExaminedPlain` | app/src/main/java/org/gateshipone/odyssey/utils/M3UParser.java:71-80 | A line is added if and only if the loop examines it and it does not start with `#`. |
| `M3UParser.ExaminedStep` | app/src/main/java/org/gateshipone/odyssey/utils/M3UParser.java:71-77 | After an examined `#` line, the next line is never examined and the one after it is. After any other examined line, the next line is examined. |
| `M3UParser.LineAfterDirectiveDropped` | app/src/main/java/org/gateshipone/odyssey/utils/M3UParser.java:71-77 | The line right after an examined `#` line is consumed by the second `readLine` and never added, even when it is a URL. |
| `M3UParser.EmptyLineKept` | app/src/main/java/org/gateshipone/odyssey/utils/M3UParser.java:71-80 | An empty line that the loop examines is added: blank lines are not filtered. |
| `M3UParser.SkippedOnlyAfterDirective` | app/src/main/java/org/gateshipone/odyssey/utils/M3UParser.java:64-81 | A line the loop does not examine is always the line right after an examined `#` line: the second `readLine` at line 73 is the only way a line is passed over. |
| `M3UParser.EmptyLineAfterPlainLineKept` | app/src/main/java/org/gateshipone/odyssey/utils/M3UParser.java:71-80 | An empty line that opens the file, or that follows a line not starting with `#`, appears in the result. |
| `M3UParser.PlainPrefix` | app/src/main/java/org/gateshipone/odyssey/utils/M3UParser.java:64-81 | Lines before the first `#` line reach the result unchanged and in order, ahead of whatever the rest of the file yields. |
| `M3UParser.NoDirectivesIdentity` | app/src/main/java/org/gateshipone/odyssey/utils/M3UParser.java:64-81 | If no line starts with `#`, the result equals the input lines exactly. |
| `M3UParser.DirectiveSwallowsNext` | app/src/main/java/org/gateshipone/odyssey/utils/M3UParser.java:71-77 | The first `#` line drops the line after it, whatever that line holds. The result continues with the lines after the pair. |
| `M3UParser.ExtendedM3UYieldsNothing` | app/src/main/java/org/gateshipone/odyssey/utils/M3UParser.java:71-81 | A file whose even-position lines all start with `#` (`#EXTINF`, location, `#EXTINF`, location, …) yields an empty result. |
| `M3UParser.ExtendedM3UWithHeaderYieldsFirstOnly` | app/src/main/java/org/gateshipone/odyssey/utils/M3UParser.java:71-81 | An extended M3U file that opens with the `#EXTM3U` header (header, `#EXTINF`, location, then `#EXTINF`/location pairs) yields exactly its first location: the header swallows the first `#EXTINF` line and each later `#EXTINF` swallows its location. |
| `M3UParser.OnlyDirectivesYieldNothing` | app/src/main/java/org/gateshipone/odyssey/utils/M3UParser.java:71-80 | A file made only of `#` lines yields an empty result. |
| `Decimal.NatDigits` | app/src/main/java/org/gateshipone/odyssey/viewitems/ListViewItem.java:303 | The decimal rendering of a count is a non-empty digit string with no leading zero. |
| `Decimal.IntToString` | app/src/main/java/org/gateshipone/odyssey/viewitems/ListViewItem.java:303 | `Integer.toString` is non-empty, starts with `-` exactly for negative numbers, and is all digits otherwise. |
| `Decimal.ValueOfNatDigits` | app/src/main/java/org/gateshipone/odyssey/viewitems/ListViewItem.java:303 | Reading the digits of n back gives n. |
| `Decimal.IntToStringRoundTrip` | app/src/main/java/org/gateshipone/odyssey/viewitems/ListViewItem.java:303 | `Integer.toString` of a non-negative count is all digits and reads back as that count. |
| `ViewItems.TrackTitleShape` | app/src/main/java/org/gateshipone/odyssey/viewitems/ListViewItem.java:221-239 | A track title ends with the displayed name. It is the bare name exactly when no disc number is shown and the track number formats to "". A shown disc number leads, followed by ".". A non-empty track number sits right before the name, followed by " - ". |
| `ViewItems.TrackSubtitleShape` | app/src/main/java/org/gateshipone/odyssey/viewitems/ListViewItem.java:242-248 | A track subtitle ends with the album. It is the album alone exactly when the artist is empty, and otherwise starts with `artist + " - "`. |
| `ViewItems.TrackRowsHideDiscNumber` | app/src/main/java/org/gateshipone/odyssey/viewitems/ListViewItem.java:264-283 | Both `setTrack` overloads pass `showDiscNumber = false`, so the disc-number format never affects their rows. The title is the number prefix plus the name, the subtitle is artist and album, the additional subtitle is the formatted duration, and the icon is untouched. |
| `ViewItems.PlayingChangesOnlyTitleColor` | app/src/main/java/org/gateshipone/odyssey/viewitems/ListViewItem.java:443-451 | `setPlaying` changes only the title colour: to the accent colour when playing, to the primary text colour otherwise. Two track rows that differ only in the playing flag are equal apart from the title colour. |
| `ViewItems.BookmarkRowFields` | app/src/main/java/org/gateshipone/odyssey/viewitems/ListViewItem.java:294-327 | The track-count text is empty if and only if the count is not positive. When shown, it starts with the count in decimal, which reads back as the count. The date is empty for a non-positive id and is the formatted id otherwise. The title is the bookmark's title and the icon is the bookmark icon. The section title and colour are untouched. |
| `ViewItems.FileRowFields` | app/src/main/java/org/gateshipone/odyssey/viewitems/ListViewItem.java:365-388 | The title is the file name. The icon is the folder icon exactly for a directory, and the file icon otherwise. The subtitle is the formatted last-modified time. The additional subtitle, section title and colour are untouched. |
| `ViewItems.PlaylistRowFields` | app/src/main/java/org/gateshipone/odyssey/viewitems/ListViewItem.java:336-354 | Only the title (the playlist name) and the icon (the playlist icon) change. Both subtitles are left as they were. |
| `ViewItems.ListViewItem.Basic` | app/src/main/java/org/gateshipone/odyssey/viewitems/ListViewItem.java:79-94 | A basic-layout row starts blank. |
| `ViewItems.ListViewItem.Section` | app/src/main/java/org/gateshipone/odyssey/viewitems/ListViewItem.java:102-109 | A section-layout row starts blank. |
| `ViewItems.ListViewItem.Image` | app/src/main/java/org/gateshipone/odyssey/viewitems/ListViewItem.java:118-130 | An image row shows only the given title. |
| `ViewItems.ListViewItem.SectionTrack` | app/src/main/java/org/gateshipone/odyssey/viewitems/ListViewItem.java:143-147 | A section row built for a track is a blank row after `setTrack(track, sectionTitle, isPlaying)`. |
| `ViewItems.ListViewItem.Track` | app/src/main/java/org/gateshipone/odyssey/viewitems/ListViewItem.java:159-163 | A basic row built for a track is a blank row after `setTrack(track, isPlaying)`. |
| `ViewItems.ListViewItem.File` | app/src/main/java/org/gateshipone/odyssey/viewitems/ListViewItem.java:174-178 | A basic row built for a file is a blank row after `setFile`. |
| `ViewItems.ListViewItem.Playlist` | app/src/main/java/org/gateshipone/odyssey/viewitems/ListViewItem.java:189-197 | A basic row built for a playlist is a blank row after `setPlaylist`. |
| `ViewItems.ListViewItem.Bookmark` | app/src/main/java/org/gateshipone/odyssey/viewitems/ListViewItem.java:208-212 | A basic row built for a bookmark is a blank row after `setBookmark`. |
| `ViewItems.ListViewItem.SetAlbumTrack` | app/src/main/java/org/gateshipone/odyssey/viewitems/ListViewItem.java:219-256 | Writes only the title, subtitle and additional subtitle: the track title, the track subtitle and the formatted duration. The colour, icon and section title are unchanged. |
| `ViewItems.ListViewItem.SetTrack` | app/src/main/java/org/gateshipone/odyssey/viewitems/ListViewItem.java:264-268 | Equals `setAlbumTrack(track, false)` followed by `setPlaying`. The icon and section title are unchanged. |
| `ViewItems.ListViewItem.SetSectionTrack` | app/src/main/java/org/gateshipone/odyssey/viewitems/ListViewItem.java:277-283 | As `SetTrack`, and it also sets the section header's text. Only a section-layout row has that view. |
| `ViewItems.ListViewItem.SetBookmark` | app/src/main/java/org/gateshipone/odyssey/viewitems/ListViewItem.java:290-329 | Writes the title, date, track-count text and bookmark icon. The section title and colour are unchanged. |
| `ViewItems.ListViewItem.SetPlaylist` | app/src/main/java/org/gateshipone/odyssey/viewitems/ListViewItem.java:336-354 | Writes only the title and the icon. |
| `ViewItems.ListViewItem.SetFile` | app/src/main/java/org/gateshipone/odyssey/viewitems/ListViewItem.java:361-391 | Writes only the title, subtitle and icon. The additional subtitle is unchanged. |
| `ViewItems.ListViewItem.SetTitle` | app/src/main/java/org/gateshipone/odyssey/viewitems/ListViewItem.java:398-400 | Changes the title text and nothing else. |
| `ViewItems.ListViewItem.SetSubtitle` | app/src/main/java/org/gateshipone/odyssey/viewitems/ListViewItem.java:407-409 | Changes the subtitle text and nothing else. |
| `ViewItems.ListViewItem.SetAdditionalSubtitle` | app/src/main/java/org/gateshipone/odyssey/viewitems/ListViewItem.java:416-418 | Changes the additional subtitle text and nothing else. |
| `ViewItems.ListViewItem.SetIcon` | app/src/main/java/org/gateshipone/odyssey/viewitems/ListViewItem.java:425-427 | Changes the icon and nothing else. Only a basic-layout row has an icon view. |
| `ViewItems.ListViewItem.SetSectionTitle` | app/src/main/java/org/gateshipone/odyssey/viewitems/ListViewItem.java:434-436 | Changes the section title and nothing else. Only a section-layout row has that view. |
| `ViewItems.ListViewItem.SetPlaying` | app/src/main/java/org/gateshipone/odyssey/viewitems/ListViewItem.java:443-451 | Changes only the title colour: to the accent colour when playing, to the primary text colour otherwise. |

## Left out

- The content resolver, `FormatHelper.encodeURI` and stream construction are not modelled. The outcome of opening is an input to `GetFileUrlsFromFile`: not found, null, or the file's lines.
- The loop's `IOException` handlers (M3UParser.java:67-69, 73-75) are not modelled. After a failed read, `line` keeps its old value, which can add a line twice or loop forever. The model's reader never fails.
- The splitting of the byte stream into lines and the character decoding done by `InputStreamReader` are not modelled.
- The bodies of `FormatHelper`, `ThemeUtils.getThemeColor` and the string resources are not part of this model. Rows are built over arbitrary functions in their place (`Helpers`).
- Drawable loading and tinting are not modelled. The model records which icon is set. It does not model the tint (the theme's secondary text colour, so that attribute is absent from `ThemeAttr`), or the case where `getDrawable` returns null and the icon view is cleared.
- `SetIcon`, `SetSectionTitle` and the setters that call them (`SetBookmark`, `SetFile`, `SetPlaylist`, `SetSectionTrack`) require the layout that has the view. On another layout the source throws a NullPointerException, because `mIconView` is assigned only in the basic-layout constructor and `mSectionTitleView` only in the section-layout constructor; by then `setBookmark`, `setFile` and the section `setTrack` have already written the row's texts and `setPlaylist` its title. That exception and the partial update before it are not modelled.
- Layout inflation, view visibility (`showIcon`, the hidden subtitles of playlist rows) and padding are not modelled, nor the cover-image loading of `GenericImageViewItem`.
- The initial contents of a row come from the inflated layout: the constructors write none of the texts, the icon or the title colour. The model starts every row blank (empty texts, `NoIcon`, title colour `None`).
- Java `int` and `long` values are unbounded integers here. The row logic only compares them with zero and renders them, so their width does not matter.
- `CurrentPlaylistView` is not modelled. It only forwards calls to the remote playback service and updates the Android list selection.
- `SettingsFragment` is not modelled. It only handles the preference lifecycle and restarts the activity.
