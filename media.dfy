/**
 * The media directory as the bot sees it: a listing of collections, each a
 * listing of files, and the selection and validation done over those listings
 * before the transcoder runs.
 */
module Media {
  import opened Wrappers
  import opened PyText
  import opened Sequences

  // ---------------------------------------------------------------------------
  // random.choice

  /** Python's `random.choice(s)`, with the random draw supplied as `pick`. */
  function Choose<T>(s: seq<T>, pick: nat): (x: T)
    requires s != []
    ensures x in s
  {
    s[pick % |s|]
  }

  /** Every element of `s` is what some draw chooses. */
  lemma ChooseReachesAll<T>(s: seq<T>, k: nat)
    requires k < |s|
    ensures Choose(s, k) == s[k]
  {
    assert k % |s| == k;
  }

  // ---------------------------------------------------------------------------
  // Listings

  /** One item of a directory listing (`Path.iterdir`), with a file's text. */
  datatype Entry = File(name: string, text: string) | Dir(name: string, entries: seq<Entry>)

  datatype Error =
    | NoSubdirectories(mediaDir: string)
    | NoAudioFiles(collection: string)
    | ArtistFileUnreadable(path: string)

  const ArtistFileName := "artist.txt"
  const CoverFileName := "cover.jpg"
  const AudioSuffixes: set<string> := {".mp3", ".wav", ".flac", ".ogg", ".m4a"}

  /** `f.suffix.lower() in file_formats`. */
  predicate IsAudioName(name: string) {
    Lower(Suffix(name)) in AudioSuffixes
  }

  /** An audio name has a split dot, a non-empty stem and one of the five suffixes in some case. */
  lemma AudioNameShape(name: string)
    requires IsAudioName(name)
    ensures HasSuffix(name) && Stem(name) != "" && Stem(name) + Suffix(name) == name
  {
    assert Lower("") == "";
  }

  /** Each of the five suffixes is a dot followed by at least three non-dots. */
  lemma AudioSuffixShape(x: string)
    requires x in AudioSuffixes
    ensures |x| >= 4 && x[0] == '.' && forall k :: 1 <= k < |x| ==> x[k] != '.'
  {
  }

  /** No character other than a dot lower-cases to a dot. */
  lemma LowerKeepsDots(c: char)
    ensures LowerChar(c) == '.' <==> c == '.'
  {
  }

  /**
   * A name longer than an audio suffix that ends with it, ignoring case, has
   * its split dot where that suffix starts.
   */
  lemma SuffixAt(name: string, x: string)
    requires x in AudioSuffixes && |name| > |x| && Lower(name[|name| - |x|..]) == x
    ensures Suffix(name) == name[|name| - |x|..]
  {
    AudioSuffixShape(x);
    var p := |name| - |x|;
    var tail := name[p..];
    assert name[p] == '.' by {
      assert LowerChar(tail[0]) == x[0];
      LowerKeepsDots(tail[0]);
    }
    forall k | p < k < |name| ensures name[k] != '.' {
      assert LowerChar(tail[k - p]) == x[k - p];
      LowerKeepsDots(tail[k - p]);
    }
    assert LastDot(name) == p;
  }

  /**
   * The reference reading of the audio test: the name is longer than one of
   * the five suffixes and ends with it, ignoring ASCII case.
   */
  lemma AudioNameEndsWith(name: string)
    ensures IsAudioName(name) <==>
      exists x :: x in AudioSuffixes && |name| > |x| && Lower(name[|name| - |x|..]) == x
  {
    if IsAudioName(name) {
      var x := Lower(Suffix(name));
      assert x in AudioSuffixes && |name| > |x| && Lower(name[|name| - |x|..]) == x;
    }
    if exists x :: x in AudioSuffixes && |name| > |x| && Lower(name[|name| - |x|..]) == x {
      var x :| x in AudioSuffixes && |name| > |x| && Lower(name[|name| - |x|..]) == x;
      SuffixAt(name, x);
    }
  }

  /** `[d for d in media_dir.iterdir() if d.is_dir()]`. */
  function Subdirs(root: seq<Entry>): (r: seq<Entry>)
    ensures IsSubsequence(r, root)
    ensures forall e :: e in r <==> e in root && e.Dir?
    ensures forall e :: multiset(r)[e] == if e.Dir? then multiset(root)[e] else 0
  {
    Filter(root, (e: Entry) => e.Dir?)
  }

  /**
   * `[f for f in subdir.iterdir() if f.suffix.lower() in file_formats]`:
   * the test is on the name alone, so a directory with an audio suffix is kept.
   */
  function AudioFiles(entries: seq<Entry>): (r: seq<Entry>)
    ensures IsSubsequence(r, entries)
    ensures forall e :: e in r <==> e in entries && IsAudioName(e.name)
    ensures forall e :: multiset(r)[e] == if IsAudioName(e.name) then multiset(entries)[e] else 0
  {
    Filter(entries, (e: Entry) => IsAudioName(e.name))
  }

  /** No two entries of a listing share a name, as in any directory. */
  predicate UniqueNames(entries: seq<Entry>) {
    forall i, j :: 0 <= i < j < |entries| ==> entries[i].name != entries[j].name
  }

  /** A directory tree as a file system holds it: unique names at every level. */
  predicate WellFormed(e: Entry) {
    e.Dir? ==> UniqueNames(e.entries) && forall c :: c in e.entries ==> WellFormed(c)
  }

  /** A well-formed listing, such as the one of the media directory. */
  predicate IsListing(entries: seq<Entry>) {
    UniqueNames(entries) && forall e :: e in entries ==> WellFormed(e)
  }

  /**
   * `(dir / name).exists()` inside a listing: the first entry with that name,
   * which in a listing with unique names is the only one.
   */
  function FindEntry(entries: seq<Entry>, name: string): (r: Option<Entry>)
    ensures r.Some? <==> exists e :: e in entries && e.name == name
    ensures r.Some? ==> r.value in entries && r.value.name == name
    ensures r.Some? ==>
      exists i :: 0 <= i < |entries| && entries[i] == r.value && forall j :: 0 <= j < i ==> entries[j].name != name
    ensures UniqueNames(entries) ==> forall e :: e in entries && e.name == name ==> r == Some(e)
  {
    if entries == [] then None
    else if entries[0].name == name then Some(entries[0])
    else
      var r := FindEntry(entries[1..], name);
      assert forall j :: 1 <= j < |entries| ==> entries[j] == entries[1..][j - 1];
      r
  }

  /** A collection chosen from the media directory, with its path. */
  datatype Collection = Collection(path: string, entries: seq<Entry>)

  /**
   * Lines 80-86: list the subdirectories of the media directory, fail when
   * there are none, otherwise choose one.
   */
  function SelectCollection(mediaDir: string, root: seq<Entry>, pick: nat): (r: Result<Collection, Error>)
    ensures r.Failure? <==> forall e :: e in root ==> !e.Dir?
    ensures r.Failure? ==> r.error == NoSubdirectories(mediaDir)
    ensures r.Success? ==>
      exists e :: e in root && e.Dir? && r.value == Collection(JoinPath(mediaDir, e.name), e.entries)
    ensures r.Success? && IsListing(root) ==> IsListing(r.value.entries)
  {
    var subdirs := Subdirs(root);
    if subdirs == [] then Failure(NoSubdirectories(mediaDir))
    else
      var d := Choose(subdirs, pick);
      Success(Collection(JoinPath(mediaDir, d.name), d.entries))
  }

  /** An audio file chosen from a collection: its path and its name. */
  datatype Audio = Audio(path: string, name: string)

  /**
   * Lines 88-95: keep the entries with an audio suffix, fail when there are
   * none, otherwise choose one.
   */
  function SelectAudio(c: Collection, pick: nat): (r: Result<Audio, Error>)
    ensures r.Failure? <==> forall e :: e in c.entries ==> !IsAudioName(e.name)
    ensures r.Failure? ==> r.error == NoAudioFiles(c.path)
    ensures r.Success? ==> IsAudioName(r.value.name)
    ensures r.Success? ==> exists e :: e in c.entries && e.name == r.value.name
    ensures r.Success? ==> r.value.path == JoinPath(c.path, r.value.name)
  {
    var audio := AudioFiles(c.entries);
    if audio == [] then Failure(NoAudioFiles(c.path))
    else
      var f := Choose(audio, pick);
      Success(Audio(JoinPath(c.path, f.name), f.name))
  }

  /** What looking for `artist.txt` yields. */
  datatype Caption = Caption(text: string) | NoArtistFile | Unreadable(path: string)

  /**
   * Lines 99-106: no `artist.txt` aborts the run; a file gives its text with
   * surrounding whitespace stripped; a directory of that name exists but
   * cannot be opened.
   */
  function LoadCaption(c: Collection): (r: Caption)
    ensures r.NoArtistFile? <==> forall e :: e in c.entries ==> e.name != ArtistFileName
    ensures r.Caption? ==>
      exists t :: File(ArtistFileName, t) in c.entries && r.text == Strip(t)
    ensures forall t :: FindEntry(c.entries, ArtistFileName) == Some(File(ArtistFileName, t)) ==> r == Caption(Strip(t))
    ensures r.Unreadable? <==>
      FindEntry(c.entries, ArtistFileName).Some? && FindEntry(c.entries, ArtistFileName).value.Dir?
    ensures r.Unreadable? ==> r.path == JoinPath(c.path, ArtistFileName)
    ensures UniqueNames(c.entries) ==> forall t :: File(ArtistFileName, t) in c.entries ==> r == Caption(Strip(t))
    ensures UniqueNames(c.entries) ==> (r.Unreadable? <==> exists es :: Dir(ArtistFileName, es) in c.entries)
  {
    match FindEntry(c.entries, ArtistFileName)
    case None => NoArtistFile
    case Some(File(_, text)) => Caption(Strip(text))
    case Some(Dir(_, _)) => Unreadable(JoinPath(c.path, ArtistFileName))
  }

  /** Lines 108-110: the cover is `cover.jpg` in the collection, if it exists. */
  function LocateCover(c: Collection): (r: Option<string>)
    ensures r.Some? <==> exists e :: e in c.entries && e.name == CoverFileName
    ensures r.Some? ==> r.value == JoinPath(c.path, CoverFileName)
  {
    if FindEntry(c.entries, CoverFileName).Some? then Some(JoinPath(c.path, CoverFileName)) else None
  }

  /** Line 154: the display title, which with the suffix gives back the name. */
  function SongName(a: Audio): (r: string)
    ensures IsAudioName(a.name) ==> r != "" && r + Suffix(a.name) == a.name
  {
    Stem(a.name)
  }
}
