/** Song descriptors as clients send them, queue entries as the manager stores
    them, and the normalisation that turns the one into the other.

    JavaScript's loose shapes are made explicit: an optional text field is the
    empty string when it is missing (both are falsy, so `a || b` treats them
    alike), an optional artist list is the empty sequence when it is missing or
    not an array, and a song id is its `String(...)` form. */
module Songs {

  datatype Option<T> = None | Some(value: T)

  /** Fallback display values used when a client omits a field. */
  const UnknownArtist: string := "未知艺术家"
  const UnknownSong: string := "未知歌曲"
  const Anonymous: string := "匿名用户"
  const ArtistSeparator: string := " / "

  /** A client's song descriptor. `artists` and `ar` hold the `name` of each
      artist object of the two list shapes; `alName` and `alPicUrl` stand for
      `song.al?.name` and `song.al?.picUrl`. */
  datatype Song = Song(
    id: string,
    name: string,
    songName: string,
    artist: string,
    artists: seq<string>,
    ar: seq<string>,
    album: string,
    alName: string,
    cover: string,
    alPicUrl: string,
    duration: nat,
    dt: nat)

  /** One live queue entry. `id` is the queue id the manager assigns, `songId`
      the id of the underlying song. */
  datatype Entry = Entry(
    id: nat,
    songId: string,
    songName: string,
    artist: string,
    album: string,
    cover: string,
    duration: nat,
    addedBy: string)

  /** JavaScript's `a || b` on strings: the first operand unless it is falsy. */
  function Or(a: string, b: string): (r: string)
    ensures a != "" ==> r == a
    ensures a == "" ==> r == b
    ensures r != "" <==> a != "" || b != ""
  {
    if a != "" then a else b
  }

  /** `names.join(sep)`. */
  function Join(names: seq<string>, sep: string): string
  {
    if |names| == 0 then ""
    else if |names| == 1 then names[0]
    else names[0] + sep + Join(names[1..], sep)
  }

  /** The artist display name: the `artist` field if it is truthy, else the
      non-empty `artists` list joined with " / ", else the non-empty `ar` list
      joined the same way, else the "unknown artist" sentinel. */
  function ResolveArtist(song: Song): (r: string)
    ensures song.artist != "" ==> r == song.artist
    ensures song.artist == "" && |song.artists| > 0 ==> r == Join(song.artists, ArtistSeparator)
    ensures song.artist == "" && song.artists == [] && |song.ar| > 0 ==> r == Join(song.ar, ArtistSeparator)
    ensures song.artist == "" && song.artists == [] && song.ar == [] ==> r == UnknownArtist
  {
    if song.artist != "" then song.artist
    else if |song.artists| > 0 then Join(song.artists, ArtistSeparator)
    else if |song.ar| > 0 then Join(song.ar, ArtistSeparator)
    else UnknownArtist
  }

  /** The stored entry for an accepted song: queue id `id`, submitter `addedBy`
      or the anonymous default when none was given. */
  function MakeEntry(id: nat, song: Song, addedBy: Option<string>): (e: Entry)
    ensures e.id == id && e.songId == song.id
    ensures e.artist == ResolveArtist(song)
    ensures e.songName != ""
    ensures e.duration == (if song.duration != 0 then song.duration else song.dt)
    ensures e.duration == 0 <==> song.duration == 0 && song.dt == 0
    ensures e.addedBy == (if addedBy.Some? then addedBy.value else Anonymous)
  {
    Entry(
      id,
      song.id,
      Or(Or(song.name, song.songName), UnknownSong),
      ResolveArtist(song),
      Or(song.album, song.alName),
      Or(song.cover, song.alPicUrl),
      if song.duration != 0 then song.duration else song.dt,
      if addedBy.Some? then addedBy.value else Anonymous)
  }

  /** The joined text starts with the first name and is at least as long as
      the first name plus one separator for every further name. */
  lemma {:induction false} JoinKeepsNames(names: seq<string>, sep: string)
    requires |names| > 0
    ensures names[0] <= Join(names, sep)
    ensures |Join(names, sep)| >= |names[0]| + (|names| - 1) * |sep|
  {
    if |names| > 1 {
      JoinKeepsNames(names[1..], sep);
    }
  }

  /** The joined list is blank exactly when the list is empty or holds a single
      blank name (the separator is never blank). */
  lemma JoinBlank(names: seq<string>, sep: string)
    requires sep != ""
    ensures Join(names, sep) == "" <==> names == [] || names == [""]
  {
    if |names| > 1 {
      JoinKeepsNames(names, sep);
    }
  }

  /** The resolved artist name is blank only when the `artist` field is falsy
      and the list that was chosen consists of one nameless artist object; in
      every other case the display shows something. */
  lemma ArtistNameBlank(song: Song)
    ensures ResolveArtist(song) == "" <==>
      song.artist == "" &&
      (song.artists == [""] || (song.artists == [] && song.ar == [""]))
  {
    JoinBlank(song.artists, ArtistSeparator);
    JoinBlank(song.ar, ArtistSeparator);
  }
}
