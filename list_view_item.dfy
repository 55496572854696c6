/**
 * One row of Odyssey's lists (album tracks, playlist tracks, playlists,
 * bookmarks, files). The row's views are fields of a class: the texts of its
 * title, subtitle, additional subtitle and section header, the icon shown and
 * the title's text colour. Each setter changes the fields its frame names and
 * nothing else; the pure functions on Row say what the new fields are.
 */
module ViewItems {
  import opened Wrappers
  import Decimal

  datatype TrackModel = TrackModel(
    displayedName: string,
    artistName: string,
    albumName: string,
    trackNumber: int,   // disc and track number as one integer, split by the formatters
    durationMs: int)

  datatype BookmarkModel = BookmarkModel(id: int, title: string, numberOfTracks: int)

  datatype PlaylistModel = PlaylistModel(name: string)

  datatype FileModel = FileModel(name: string, isDirectory: bool, lastModified: int)

  /** Theme attributes whose colour the row asks for. */
  datatype ThemeAttr = ColorAccent | TextBackgroundPrimary

  /** The drawable the icon view shows. */
  datatype IconKind = NoIcon | BookmarkIcon | PlaylistIcon | FolderIcon | FileIcon

  /**
   * The formatting and theme helpers the row calls (FormatHelper, ThemeUtils,
   * the "tracks" string resource). Their bodies are not part of this model: a
   * row is built over any such functions.
   */
  datatype Helpers = Helpers(
    formatTrackNumber: int -> string,
    formatDiscNumber: int -> string,
    formatTracktimeFromMs: int -> string,
    formatTimeStampToString: int -> string,
    tracksLabel: string,
    themeColor: ThemeAttr -> int)

  /**
   * The three inflated layouts. The section-header view exists only in the
   * section layout and the icon view only in the basic one; in the others the
   * field stays null.
   */
  datatype Layout = BasicLayout | SectionLayout | ImageLayout

  /** What the row shows; None as title colour is the layout's own colour. */
  datatype Row = Row(
    title: string,
    subtitle: string,
    additionalSubtitle: string,
    sectionTitle: string,
    icon: IconKind,
    titleColor: Option<int>)

  const BlankRow := Row("", "", "", "", NoIcon, None)

  // Texts composed by the setters

  /** "<disc>." in front of the title, when asked for and the disc number formats to something. */
  function DiscPrefix(h: Helpers, track: TrackModel, showDiscNumber: bool): string {
    var disc := h.formatDiscNumber(track.trackNumber);
    if showDiscNumber && disc != "" then disc + "." else ""
  }

  /** "<number> - " in front of the name, when the track number formats to something. */
  function NumberPrefix(h: Helpers, track: TrackModel): string {
    var number := h.formatTrackNumber(track.trackNumber);
    if number != "" then number + " - " else ""
  }

  /** The title of a track row: disc prefix, number prefix, displayed name. */
  function TrackTitle(h: Helpers, track: TrackModel, showDiscNumber: bool): string {
    DiscPrefix(h, track, showDiscNumber) + NumberPrefix(h, track) + track.displayedName
  }

  /** The subtitle of a track row: artist and album joined by " - ", or the album alone. */
  function TrackSubtitle(track: TrackModel): string {
    if track.artistName != "" then track.artistName + " - " + track.albumName else track.albumName
  }

  /** "<count> <tracks label>" for a bookmark holding tracks, empty otherwise. */
  function TracksText(h: Helpers, numberOfTracks: int): string {
    if numberOfTracks > 0 then Decimal.IntToString(numberOfTracks) + " " + h.tracksLabel else ""
  }

  /** The date of a bookmark, whose id is its creation time stamp; empty for an invalid id. */
  function BookmarkDate(h: Helpers, id: int): string {
    if id > 0 then h.formatTimeStampToString(id) else ""
  }

  function FileIconFor(file: FileModel): IconKind {
    if file.isDirectory then FolderIcon else FileIcon
  }

  function PlayingColor(h: Helpers, state: bool): int {
    h.themeColor(if state then ColorAccent else TextBackgroundPrimary)
  }

  // The row after each setter, in terms of the row before it

  function AlbumTrackRow(r: Row, h: Helpers, track: TrackModel, showDiscNumber: bool): Row {
    r.(title := TrackTitle(h, track, showDiscNumber),
       subtitle := TrackSubtitle(track),
       additionalSubtitle := h.formatTracktimeFromMs(track.durationMs))
  }

  function PlayingRow(r: Row, h: Helpers, state: bool): Row {
    r.(titleColor := Some(PlayingColor(h, state)))
  }

  function TrackRow(r: Row, h: Helpers, track: TrackModel, isPlaying: bool): Row {
    PlayingRow(AlbumTrackRow(r, h, track, false), h, isPlaying)
  }

  function SectionTrackRow(r: Row, h: Helpers, track: TrackModel, sectionTitle: string, isPlaying: bool): Row {
    PlayingRow(AlbumTrackRow(r, h, track, false).(sectionTitle := sectionTitle), h, isPlaying)
  }

  function BookmarkRow(r: Row, h: Helpers, bookmark: BookmarkModel): Row {
    r.(title := bookmark.title,
       subtitle := BookmarkDate(h, bookmark.id),
       additionalSubtitle := TracksText(h, bookmark.numberOfTracks),
       icon := BookmarkIcon)
  }

  function PlaylistRow(r: Row, playlist: PlaylistModel): Row {
    r.(title := playlist.name, icon := PlaylistIcon)
  }

  function FileRow(r: Row, h: Helpers, file: FileModel): Row {
    r.(title := file.name,
       subtitle := h.formatTimeStampToString(file.lastModified),
       icon := FileIconFor(file))
  }

  // What the composed texts and the setters promise

  /**
   * A track title ends with the displayed name; it is the bare name exactly
   * when neither a disc nor a track number is shown; a shown disc number
   * leads, followed by a dot, and a shown track number sits right before the
   * name, followed by " - ".
   */
  lemma TrackTitleShape(h: Helpers, track: TrackModel, showDiscNumber: bool)
    ensures var t, name := TrackTitle(h, track, showDiscNumber), track.displayedName;
      var disc, number := h.formatDiscNumber(track.trackNumber), h.formatTrackNumber(track.trackNumber);
      && |t| >= |name| && t[|t| - |name|..] == name
      && (t == name <==> !(showDiscNumber && disc != "") && number == "")
      && (showDiscNumber && disc != "" ==> t[..|disc| + 1] == disc + ".")
      && (number != "" ==> |t| >= |name| + |number| + 3 && t[|t| - |name| - |number| - 3..|t| - |name|] == number + " - ")
  {
    var name := track.displayedName;
    var disc, number := DiscPrefix(h, track, showDiscNumber), NumberPrefix(h, track);
    var t := TrackTitle(h, track, showDiscNumber);
    assert t == disc + number + name;
    assert t[|t| - |name|..] == name;
    assert t[..|disc|] == disc;
    assert t[|disc|..|disc| + |number|] == number;
  }

  /** A track's subtitle ends with the album; it is the album alone exactly when the artist is empty, and otherwise starts with "<artist> - ". */
  lemma TrackSubtitleShape(track: TrackModel)
    ensures var s, artist, album := TrackSubtitle(track), track.artistName, track.albumName;
      && |s| >= |album| && s[|s| - |album|..] == album
      && (s == album <==> artist == "")
      && (artist != "" ==> s[..|artist| + 3] == artist + " - ")
  {
    var s, artist, album := TrackSubtitle(track), track.artistName, track.albumName;
    if artist != "" {
      assert s == artist + " - " + album;
      assert |s| > |album|;
      assert s[|s| - |album|..] == album;
      assert s[..|artist| + 3] == artist + " - ";
    }
  }

  /**
   * The track setters show no disc number: their rows do not depend on how
   * disc numbers format, the title is number prefix and name, the subtitle is
   * artist and album and the additional subtitle the formatted duration.
   */
  lemma TrackRowsHideDiscNumber(r: Row, h: Helpers, track: TrackModel, sectionTitle: string, isPlaying: bool, formatDisc: int -> string)
    ensures TrackRow(r, h, track, isPlaying) == TrackRow(r, h.(formatDiscNumber := formatDisc), track, isPlaying)
    ensures SectionTrackRow(r, h, track, sectionTitle, isPlaying)
         == SectionTrackRow(r, h.(formatDiscNumber := formatDisc), track, sectionTitle, isPlaying)
    ensures var row := TrackRow(r, h, track, isPlaying);
      && row.title == NumberPrefix(h, track) + track.displayedName
      && row.subtitle == TrackSubtitle(track)
      && row.additionalSubtitle == h.formatTracktimeFromMs(track.durationMs)
      && row.sectionTitle == r.sectionTitle && row.icon == r.icon
  {
    assert DiscPrefix(h, track, false) == "";
  }

  /**
   * setPlaying touches only the title colour: accent while playing, primary
   * text colour otherwise. So two track rows that differ only in the playing
   * flag differ only in the title colour.
   */
  lemma PlayingChangesOnlyTitleColor(r: Row, h: Helpers, track: TrackModel, state: bool)
    ensures PlayingRow(r, h, state).(titleColor := r.titleColor) == r
    ensures PlayingRow(r, h, true).titleColor == Some(h.themeColor(ColorAccent))
    ensures PlayingRow(r, h, false).titleColor == Some(h.themeColor(TextBackgroundPrimary))
    ensures TrackRow(r, h, track, true).(titleColor := r.titleColor)
         == TrackRow(r, h, track, false).(titleColor := r.titleColor)
  {
  }

  /**
   * A bookmark row: the track count is shown exactly when the bookmark holds
   * tracks, and then starts with the count in decimal, which reads back as
   * the count; the date is empty for an id that is not positive.
   */
  lemma BookmarkRowFields(r: Row, h: Helpers, bookmark: BookmarkModel)
    ensures var row, n := BookmarkRow(r, h, bookmark), bookmark.numberOfTracks;
      && row.title == bookmark.title && row.icon == BookmarkIcon
      && (row.additionalSubtitle == "" <==> n <= 0)
      && (n > 0 ==> var digits := Decimal.IntToString(n);
            && Decimal.IsDigits(digits) && Decimal.Value(digits) == n
            && row.additionalSubtitle[..|digits| + 1] == digits + " ")
      && (bookmark.id <= 0 ==> row.subtitle == "")
      && (bookmark.id > 0 ==> row.subtitle == h.formatTimeStampToString(bookmark.id))
      && row.sectionTitle == r.sectionTitle && row.titleColor == r.titleColor
  {
    var n := bookmark.numberOfTracks;
    if n > 0 {
      var digits := Decimal.IntToString(n);
      Decimal.IntToStringRoundTrip(n);
      var text := TracksText(h, n);
      assert text == digits + " " + h.tracksLabel;
      assert text[..|digits| + 1] == digits + " ";
    }
  }

  /**
   * A file row: the title is the file's name, the icon is the folder icon
   * exactly for a directory and the file icon otherwise, the subtitle is the
   * formatted last-modified time; the rest of the row is as it was.
   */
  lemma FileRowFields(r: Row, h: Helpers, file: FileModel)
    ensures var row := FileRow(r, h, file);
      && row.title == file.name
      && (row.icon == FolderIcon <==> file.isDirectory)
      && (row.icon == FileIcon <==> !file.isDirectory)
      && row.subtitle == h.formatTimeStampToString(file.lastModified)
      && row.additionalSubtitle == r.additionalSubtitle
      && row.sectionTitle == r.sectionTitle && row.titleColor == r.titleColor
  {
  }

  /** A playlist row changes only the title, to the playlist's name, and the icon; both subtitles are kept. */
  lemma PlaylistRowFields(r: Row, playlist: PlaylistModel)
    ensures var row := PlaylistRow(r, playlist);
      && row.(title := r.title, icon := r.icon) == r
      && row.title == playlist.name && row.icon == PlaylistIcon
      && row.subtitle == r.subtitle && row.additionalSubtitle == r.additionalSubtitle
  {
  }

  class ListViewItem {
    const helpers: Helpers
    const layout: Layout
    var title: string
    var subtitle: string
    var additionalSubtitle: string
    var sectionTitle: string
    var icon: IconKind
    var titleColor: Option<int>

    function Snapshot(): Row
      reads this
    {
      Row(title, subtitle, additionalSubtitle, sectionTitle, icon, titleColor)
    }

    /** A plain row, with an icon view (shown or hidden). */
    constructor Basic(helpers: Helpers)
      ensures this.helpers == helpers && layout == BasicLayout
      ensures Snapshot() == BlankRow
    {
      this.helpers := helpers;
      layout := BasicLayout;
      title, subtitle, additionalSubtitle, sectionTitle := "", "", "", "";
      icon, titleColor := NoIcon, None;
    }

    /** A row under a section header. */
    constructor Section(helpers: Helpers)
      ensures this.helpers == helpers && layout == SectionLayout
      ensures Snapshot() == BlankRow
    {
      this.helpers := helpers;
      layout := SectionLayout;
      title, subtitle, additionalSubtitle, sectionTitle := "", "", "", "";
      icon, titleColor := NoIcon, None;
    }

    /** An image row (artist or album) that shows only its title. */
    constructor Image(helpers: Helpers, title: string)
      ensures this.helpers == helpers && layout == ImageLayout
      ensures Snapshot() == BlankRow.(title := title)
    {
      this.helpers := helpers;
      layout := ImageLayout;
      this.title, subtitle, additionalSubtitle, sectionTitle := "", "", "", "";
      icon, titleColor := NoIcon, None;
      new;
      SetTitle(title);
    }

    /** A section row showing a track. */
    constructor SectionTrack(helpers: Helpers, track: TrackModel, sectionTitle: string, isPlaying: bool)
      ensures this.helpers == helpers && layout == SectionLayout
      ensures Snapshot() == SectionTrackRow(BlankRow, helpers, track, sectionTitle, isPlaying)
    {
      this.helpers := helpers;
      layout := SectionLayout;
      title, subtitle, additionalSubtitle, this.sectionTitle := "", "", "", "";
      icon, titleColor := NoIcon, None;
      new;
      SetSectionTrack(track, sectionTitle, isPlaying);
    }

    /** A plain row showing a track, without an icon. */
    constructor Track(helpers: Helpers, track: TrackModel, isPlaying: bool)
      ensures this.helpers == helpers && layout == BasicLayout
      ensures Snapshot() == TrackRow(BlankRow, helpers, track, isPlaying)
    {
      this.helpers := helpers;
      layout := BasicLayout;
      title, subtitle, additionalSubtitle, sectionTitle := "", "", "", "";
      icon, titleColor := NoIcon, None;
      new;
      SetTrack(track, isPlaying);
    }

    /** A plain row showing a file, with its icon. */
    constructor File(helpers: Helpers, file: FileModel)
      ensures this.helpers == helpers && layout == BasicLayout
      ensures Snapshot() == FileRow(BlankRow, helpers, file)
    {
      this.helpers := helpers;
      layout := BasicLayout;
      title, subtitle, additionalSubtitle, sectionTitle := "", "", "", "";
      icon, titleColor := NoIcon, None;
      new;
      SetFile(file);
    }

    /** A plain row showing a playlist, with its icon. */
    constructor Playlist(helpers: Helpers, playlist: PlaylistModel)
      ensures this.helpers == helpers && layout == BasicLayout
      ensures Snapshot() == PlaylistRow(BlankRow, playlist)
    {
      this.helpers := helpers;
      layout := BasicLayout;
      title, subtitle, additionalSubtitle, sectionTitle := "", "", "", "";
      icon, titleColor := NoIcon, None;
      new;
      SetPlaylist(playlist);
    }

    /** A plain row showing a bookmark, with its icon. */
    constructor Bookmark(helpers: Helpers, bookmark: BookmarkModel)
      ensures this.helpers == helpers && layout == BasicLayout
      ensures Snapshot() == BookmarkRow(BlankRow, helpers, bookmark)
    {
      this.helpers := helpers;
      layout := BasicLayout;
      title, subtitle, additionalSubtitle, sectionTitle := "", "", "", "";
      icon, titleColor := NoIcon, None;
      new;
      SetBookmark(bookmark);
    }

    /** setAlbumTrack: title, subtitle and duration of a track; colour, icon and section untouched. */
    method SetAlbumTrack(track: TrackModel, showDiscNumber: bool)
      modifies this`title, this`subtitle, this`additionalSubtitle
      ensures Snapshot() == AlbumTrackRow(old(Snapshot()), helpers, track, showDiscNumber)
    {
      var trackTitle := "";
      var trackNumber := track.trackNumber;
      var formattedTrackNumber := helpers.formatTrackNumber(trackNumber);
      var albumName := track.albumName;
      var artistName := track.artistName;

      if showDiscNumber {
        var discNumber := helpers.formatDiscNumber(trackNumber);
        if discNumber != "" {
          trackTitle := discNumber + ".";
        }
      }
      if formattedTrackNumber != "" {
        trackTitle := trackTitle + (formattedTrackNumber + " - ");
      }
      trackTitle := trackTitle + track.displayedName;

      var trackSubtitle := artistName;
      if trackSubtitle != "" {
        trackSubtitle := trackSubtitle + (" - " + albumName);
      } else {
        trackSubtitle := albumName;
      }

      var trackDuration := helpers.formatTracktimeFromMs(track.durationMs);

      SetTitle(trackTitle);
      SetSubtitle(trackSubtitle);
      SetAdditionalSubtitle(trackDuration);
    }

    /** setTrack(track, isPlaying): a track without disc number, coloured by its playing state. */
    method SetTrack(track: TrackModel, isPlaying: bool)
      modifies this`title, this`subtitle, this`additionalSubtitle, this`titleColor
      ensures Snapshot() == TrackRow(old(Snapshot()), helpers, track, isPlaying)
    {
      SetAlbumTrack(track, false);
      SetPlaying(isPlaying);
    }

    /** setTrack(track, sectionTitle, isPlaying): as SetTrack, and the section header's text. */
    method SetSectionTrack(track: TrackModel, sectionTitle: string, isPlaying: bool)
      requires layout == SectionLayout
      modifies this`title, this`subtitle, this`additionalSubtitle, this`sectionTitle, this`titleColor
      ensures Snapshot() == SectionTrackRow(old(Snapshot()), helpers, track, sectionTitle, isPlaying)
    {
      SetAlbumTrack(track, false);
      SetSectionTitle(sectionTitle);
      SetPlaying(isPlaying);
    }

    /** setBookmark: title, date, track count and the bookmark icon. */
    method SetBookmark(bookmark: BookmarkModel)
      requires layout == BasicLayout
      modifies this`title, this`subtitle, this`additionalSubtitle, this`icon
      ensures Snapshot() == BookmarkRow(old(Snapshot()), helpers, bookmark)
    {
      var bookmarkTitle := bookmark.title;
      var numberOfTracks := bookmark.numberOfTracks;
      var numberOfTracksString := "";
      if numberOfTracks > 0 {
        numberOfTracksString := Decimal.IntToString(bookmark.numberOfTracks) + " " + helpers.tracksLabel;
      }
      var id := bookmark.id;
      var dateString := "";
      if id > 0 {
        dateString := helpers.formatTimeStampToString(bookmark.id);
      }
      SetTitle(bookmarkTitle);
      SetSubtitle(dateString);
      SetAdditionalSubtitle(numberOfTracksString);
      SetIcon(BookmarkIcon);
    }

    /** setPlaylist: the playlist's name and the playlist icon; both subtitles untouched. */
    method SetPlaylist(playlist: PlaylistModel)
      requires layout == BasicLayout
      modifies this`title, this`icon
      ensures Snapshot() == PlaylistRow(old(Snapshot()), playlist)
    {
      var playlistTitle := playlist.name;
      SetTitle(playlistTitle);
      SetIcon(PlaylistIcon);
    }

    /** setFile: name, folder or file icon, last-modified time; additional subtitle untouched. */
    method SetFile(file: FileModel)
      requires layout == BasicLayout
      modifies this`title, this`subtitle, this`icon
      ensures Snapshot() == FileRow(old(Snapshot()), helpers, file)
    {
      var fileTitle := file.name;
      var fileIcon;
      if file.isDirectory {
        fileIcon := FolderIcon;
      } else {
        fileIcon := FileIcon;
      }
      var lastModifiedDateString := helpers.formatTimeStampToString(file.lastModified);
      SetTitle(fileTitle);
      SetSubtitle(lastModifiedDateString);
      SetIcon(fileIcon);
    }

    method SetTitle(title: string)
      modifies this`title
      ensures Snapshot() == old(Snapshot()).(title := title)
    {
      this.title := title;
    }

    method SetSubtitle(subtitle: string)
      modifies this`subtitle
      ensures Snapshot() == old(Snapshot()).(subtitle := subtitle)
    {
      this.subtitle := subtitle;
    }

    method SetAdditionalSubtitle(additionalSubtitle: string)
      modifies this`additionalSubtitle
      ensures Snapshot() == old(Snapshot()).(additionalSubtitle := additionalSubtitle)
    {
      this.additionalSubtitle := additionalSubtitle;
    }

    /** setIcon: only the basic layout has an icon view. */
    method SetIcon(icon: IconKind)
      requires layout == BasicLayout
      modifies this`icon
      ensures Snapshot() == old(Snapshot()).(icon := icon)
    {
      this.icon := icon;
    }

    /** setSectionTitle: only the section layout has a section-header view. */
    method SetSectionTitle(sectionTitle: string)
      requires layout == SectionLayout
      modifies this`sectionTitle
      ensures Snapshot() == old(Snapshot()).(sectionTitle := sectionTitle)
    {
      this.sectionTitle := sectionTitle;
    }

    /** setPlaying: the title's colour is the accent colour while playing, the primary text colour otherwise. */
    method SetPlaying(state: bool)
      modifies this`titleColor
      ensures Snapshot() == PlayingRow(old(Snapshot()), helpers, state)
    {
      if state {
        var color := helpers.themeColor(ColorAccent);
        titleColor := Some(color);
      } else {
        var color := helpers.themeColor(TextBackgroundPrimary);
        titleColor := Some(color);
      }
    }
  }
}
