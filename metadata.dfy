/**
 * What the player's audio-info panel shows for a file: whether the file counts
 * as audio, and the title, artist and cover art it falls back to when the tags
 * are empty or cannot be read. The tag reader itself is outside the model; its
 * outcome is the value `TagRead`.
 */
module Metadata {
  import opened Wrappers
  import opened Paths

  type Byte = bv8

  const UnknownArtist: string := "Unknown Artist"

  /** The extensions the panel treats as audio, in lower case. */
  const AudioExtensions: set<string> := {".mp3", ".wav", ".flac", ".m4a"}

  /** The lower-cased extension is one of the audio extensions. */
  predicate IsAudio(path: string)
  {
    ToLower(GetExtension(path)) in AudioExtensions
  }

  /** The first embedded picture: its bytes, and whether they decode as a bitmap. */
  datatype Picture = Picture(data: seq<Byte>, decodes: bool)

  /** What reading a file's tags gives: failure (an exception), or the tag values, where `None` is null. */
  datatype TagRead =
    | Unreadable
    | Tags(title: Option<string>, firstPerformer: Option<string>, firstPicture: Option<Picture>)

  /** The panel's title text, artist text and cover art (the bytes the bitmap was decoded from). */
  datatype TrackInfo = TrackInfo(title: string, artist: string, albumArt: Option<seq<Byte>>)

  predicate IsNullOrEmpty(s: Option<string>) { s.None? || s.value == "" }

  /** What the panel shows when reading the tags throws. */
  function DefaultTrackInfo(path: string): (info: TrackInfo)
    ensures info.artist == UnknownArtist && info.albumArt.None?
  {
    TrackInfo(GetFileNameWithoutExtension(path), UnknownArtist, None)
  }

  /**
   * The panel contents for an audio file. A picture that does not decode throws
   * after the title and artist were set, and the handler for that exception
   * overwrites them with the defaults.
   */
  function TrackInfoFor(path: string, tags: TagRead): (info: TrackInfo)
    ensures tags.Unreadable? ==> info == DefaultTrackInfo(path)
    ensures tags.Tags? && tags.firstPicture.Some? && !tags.firstPicture.value.decodes ==> info == DefaultTrackInfo(path)
    ensures info.artist != ""
    ensures info.title == "" ==> GetFileNameWithoutExtension(path) == ""
    ensures info.title != GetFileNameWithoutExtension(path) ==> tags.Tags? && tags.title == Some(info.title)
    ensures info.artist != UnknownArtist ==> tags.Tags? && tags.firstPerformer == Some(info.artist)
    ensures info.albumArt.Some? <==> tags.Tags? && tags.firstPicture.Some? && tags.firstPicture.value.decodes
    ensures info.albumArt.Some? ==> info.albumArt.value == tags.firstPicture.value.data
  {
    match tags
    case Unreadable => DefaultTrackInfo(path)
    case Tags(title, performer, picture) =>
      if picture.Some? && !picture.value.decodes then DefaultTrackInfo(path)
      else
        TrackInfo(
          if !IsNullOrEmpty(title) then title.value else GetFileNameWithoutExtension(path),
          if !IsNullOrEmpty(performer) then performer.value else UnknownArtist,
          if picture.Some? then Some(picture.value.data) else None)
  }

  /** With readable tags and no broken picture, a non-empty tag always wins over its fallback. */
  lemma TagsWin(path: string, tags: TagRead)
    requires tags.Tags? && (tags.firstPicture.None? || tags.firstPicture.value.decodes)
    ensures !IsNullOrEmpty(tags.title) ==> TrackInfoFor(path, tags).title == tags.title.value
    ensures !IsNullOrEmpty(tags.firstPerformer) ==> TrackInfoFor(path, tags).artist == tags.firstPerformer.value
    ensures IsNullOrEmpty(tags.title) ==> TrackInfoFor(path, tags).title == GetFileNameWithoutExtension(path)
    ensures IsNullOrEmpty(tags.firstPerformer) ==> TrackInfoFor(path, tags).artist == UnknownArtist
  {
  }

  lemma AudioExtensionsAreExtensions()
    ensures forall e :: e in AudioExtensions ==> IsExtension(e)
  {
    assert IsExtension(".mp3") && IsExtension(".wav") && IsExtension(".flac") && IsExtension(".m4a");
  }

  /** A file is audio exactly when its lower-cased path ends with one of the audio extensions. */
  lemma IsAudioIffSuffix(path: string)
    ensures IsAudio(path) <==> exists e :: e in AudioExtensions && EndsWith(ToLower(path), e)
  {
    ExtensionOfLower(path);
    AudioExtensionsAreExtensions();
    if IsAudio(path) {
      assert EndsWith(ToLower(path), ToLower(GetExtension(path)));
    }
    forall e | e in AudioExtensions && EndsWith(ToLower(path), e) ensures IsAudio(path) {
      ExtensionIffSuffix(ToLower(path), e);
    }
  }

  /** A song whose tags cannot be read shows its file name and "Unknown Artist". */
  lemma UnreadableSongFallsBack()
    ensures TrackInfoFor("C:\\Music\\song.mp3", Unreadable) == TrackInfo("song", UnknownArtist, None)
    ensures IsAudio("C:\\Music\\song.mp3")
  {
    SongPathParts();
    var lower := ToLower(".mp3");
    assert lower[0] == '.' && lower[1] == 'm' && lower[2] == 'p' && lower[3] == '3';
    assert lower == ".mp3";
  }

  lemma SongPathParts()
    ensures GetExtension("C:\\Music\\song.mp3") == ".mp3"
    ensures GetFileNameWithoutExtension("C:\\Music\\song.mp3") == "song"
  {
    var p := "C:\\Music\\song.mp3";
    NameAfterSeparator(p, 8, |p|);
    var name := GetFileName(p);
    assert name == p[9..];
    assert EndsWith(p, ".mp3");
    ExtensionIffSuffix(p, ".mp3");
    StemThenExtension(p);
    var stem := GetFileNameWithoutExtension(p);
    assert stem + ".mp3" == name;
    assert stem == name[..|name| - 4];
  }
}
