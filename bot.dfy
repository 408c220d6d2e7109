/**
 * `get_and_make_files`: pick a collection and a track, read the caption,
 * find the cover, build the `ffmpeg` command and hand it to the transcoder.
 */
module SotdBot {
  import opened Wrappers
  import opened PyText
  import opened Media
  import opened FfmpegOptions
  import opened FfmpegCommand

  /** The `ffmpeg` section of the settings file. */
  datatype FfmpegSettings = FfmpegSettings(output: string, options: Option<Options>)

  /** The settings file as loaded: `media_directory` may be absent. */
  datatype Settings = Settings(mediaDirectory: Option<string>, ffmpeg: FfmpegSettings)

  /** What the routine hands back to `main` for posting. */
  datatype Descriptor = Descriptor(outputFile: string, artistsText: string, songName: string)

  /**
   * `Made` is the returned dict, `Aborted` the bare `return` when there is no
   * `artist.txt`, `Failed` an error about the listing, and `TranscodeFailed`
   * the exit after `ffmpeg` fails on the given command.
   */
  datatype Outcome =
    | Made(descriptor: Descriptor)
    | Aborted
    | Failed(error: Error)
    | TranscodeFailed(command: seq<string>)

  const TempDirName := "temp"

  /**
   * Line 80: `Path(config.get("media_directory", ""))`: the configured
   * directory, or the current directory when it is absent or empty.
   */
  function MediaDir(s: Settings): (r: string)
    ensures r != ""
    ensures s.mediaDirectory == Some("") || s.mediaDirectory == None ==> r == "."
    ensures s.mediaDirectory.Some? && s.mediaDirectory.value != "" ==> r == s.mediaDirectory.value
  {
    PathOf(s.mediaDirectory.GetOr(""))
  }

  /**
   * Line 113: `workspace_root / "temp"`, directly inside the workspace, which
   * `Path.resolve` makes absolute.
   */
  function TempDir(workspace: string): (r: string)
    requires IsAbsolute(workspace)
    ensures EndsWith(workspace, "/") ==> r == workspace + TempDirName
    ensures !EndsWith(workspace, "/") ==> r == workspace + "/" + TempDirName
  {
    JoinRelative(workspace, TempDirName);
    JoinPath(workspace, TempDirName)
  }

  /** The temp directory starts with the workspace and ends in `/temp`, one level below it. */
  lemma TempDirInside(workspace: string)
    requires IsAbsolute(workspace)
    ensures var r := TempDir(workspace);
      |workspace| < |r| <= |workspace| + 5 && r[..|workspace|] == workspace && EndsWith(r, "/temp")
  {
    var r := TempDir(workspace);
    if EndsWith(workspace, "/") {
      assert r[|r| - 5..] == [workspace[|workspace| - 1]] + TempDirName;
    } else {
      assert r[|r| - 5..] == "/" + TempDirName;
    }
  }

  /**
   * Line 116: `temp_dir / ffmpeg_cfg.get("output")`: a relative output name
   * lies inside the temp directory, an absolute one replaces it.
   */
  function OutputPath(workspace: string, s: Settings): (r: string)
    requires IsAbsolute(workspace)
    ensures s.ffmpeg.output != "" ==> EndsWith(r, s.ffmpeg.output)
    ensures IsRelative(s.ffmpeg.output) ==> r == TempDir(workspace) + "/" + s.ffmpeg.output
    ensures IsAbsolute(s.ffmpeg.output) ==> r == s.ffmpeg.output
    ensures s.ffmpeg.output == "" ==> r == TempDir(workspace)
  {
    JoinPath(TempDir(workspace), s.ffmpeg.output)
  }

  /** Line 117: `ffmpeg_cfg.get("options", {})`. */
  function ConfiguredOptions(s: Settings): (r: Options)
    ensures s.ffmpeg.options.None? ==> r == []
    ensures s.ffmpeg.options.Some? ==> r == s.ffmpeg.options.value
  {
    s.ffmpeg.options.GetOr([])
  }

  /**
   * Lines 68-155. `subdirPick` and `audioPick` are the two random draws;
   * `transcode` tells whether `ffmpeg`, run with the given words, exits with
   * status 0. `invoked` is the command run, if any was. The workspace is
   * absolute, the media directory is a file-system listing, and the options
   * come from a dict.
   */
  method GetAndMakeFiles(workspace: string, settings: Settings, root: seq<Entry>,
                         subdirPick: nat, audioPick: nat, transcode: seq<string> -> bool)
    returns (outcome: Outcome, invoked: Option<seq<string>>)
    requires IsAbsolute(workspace) && IsListing(root) && DistinctKeys(ConfiguredOptions(settings))
    ensures invoked.None? <==> !outcome.Made? && !outcome.TranscodeFailed?
    ensures var c := SelectCollection(MediaDir(settings), root, subdirPick);
      c.Failure? ==> outcome == Failed(NoSubdirectories(MediaDir(settings)))
    ensures var c := SelectCollection(MediaDir(settings), root, subdirPick);
      c.Success? && SelectAudio(c.value, audioPick).Failure? ==> outcome == Failed(NoAudioFiles(c.value.path))
    ensures var c := SelectCollection(MediaDir(settings), root, subdirPick);
      c.Success? && SelectAudio(c.value, audioPick).Success? ==>
        match LoadCaption(c.value)
        case NoArtistFile => outcome == Aborted
        case Unreadable(path) => outcome == Failed(ArtistFileUnreadable(path))
        case Caption(text) =>
          var audio := SelectAudio(c.value, audioPick).value;
          var cmd := CommandFor(audio.path, LocateCover(c.value), ConfiguredOptions(settings), OutputPath(workspace, settings));
          && invoked == Some(cmd)
          && outcome == if transcode(cmd) then Made(Descriptor(OutputPath(workspace, settings), text, SongName(audio)))
                        else TranscodeFailed(cmd)
    ensures outcome.Made? ==> invoked.Some? && transcode(invoked.value)
    ensures outcome.Made? ==> invoked.Some? && invoked.value[..2] == ["ffmpeg", "-y"]
    ensures outcome.Made? ==> invoked.Some? && invoked.value[|invoked.value| - 1] == outcome.descriptor.outputFile
    ensures outcome.Made? ==> outcome.descriptor.songName != ""
    ensures var c := SelectCollection(MediaDir(settings), root, subdirPick);
      outcome.Made? ==>
        (c.Success? && forall t :: File(ArtistFileName, t) in c.value.entries ==> outcome.descriptor.artistsText == Strip(t))
  {
    invoked := None;
    var mediaDir := MediaDir(settings);
    var collection := SelectCollection(mediaDir, root, subdirPick);
    if collection.Failure? {
      return Failed(collection.error), None;
    }
    var c := collection.value;
    assert IsListing(c.entries);
    var audio := SelectAudio(c, audioPick);
    if audio.Failure? {
      return Failed(audio.error), None;
    }
    var a := audio.value;
    var caption := LoadCaption(c);
    if caption.NoArtistFile? {
      return Aborted, None;
    } else if caption.Unreadable? {
      return Failed(ArtistFileUnreadable(caption.path)), None;
    }
    var cover := LocateCover(c);
    var output := OutputPath(workspace, settings);
    var cmd, _ := BuildCommand(a.path, cover, ConfiguredOptions(settings), output);
    invoked := Some(cmd);
    CommandFrame(a.path, cover, ConfiguredOptions(settings), output);
    if transcode(cmd) {
      outcome := Made(Descriptor(output, caption.text, SongName(a)));
    } else {
      outcome := TranscodeFailed(cmd);
    }
  }
}

/** The worked cases of the bot's behaviour, on concrete values. */
module Examples {
  import opened Wrappers
  import opened PyText
  import opened Media
  import opened FfmpegOptions

  lemma TitleOfTrack()
    ensures Stem("track01.mp3") == "track01" && IsAudioName("track01.mp3")
  {
    assert "track01.mp3"[7] == '.';
    assert LastDot("track01.mp3") == 7;
    assert Lower(".mp3") == ".mp3";
  }

  lemma SuffixIgnoresCase()
    ensures IsAudioName("a.FLAC")
  {
    assert "a.FLAC"[1] == '.';
    assert LastDot("a.FLAC") == 1;
    assert Suffix("a.FLAC") == ".FLAC";
    assert Lower(".FLAC") == ".flac";
  }

  lemma HiddenFileIsNotAudio()
    ensures !IsAudioName(".mp3")
  {
    assert ".mp3"[0] == '.';
    assert LastDot(".mp3") == 0;
    assert Lower("") == "";
  }

  lemma TextFileIsNotAudio()
    ensures !IsAudioName("a.txt")
  {
    assert "a.txt"[1] == '.';
    assert LastDot("a.txt") == 1;
    assert Suffix("a.txt") == ".txt";
    assert Lower(".txt") == ".txt";
  }

  lemma OptionRendering()
    ensures RenderOption("an_option", Bool(true)) == ["-an_option"]
    ensures RenderOption("an_option", Bool(false)) == []
    ensures RenderOption("preset", Text("fast")) == ["-preset", "fast"]
    ensures RenderOption("crf", Int(-3)) == ["-crf", "-3"]
    ensures RenderOption("c:v", Text("libx264")) == ["-c:v", "libx264"]
  {
    assert "-" + "an_option" == "-an_option";
    assert "-" + "preset" == "-preset";
    assert "-" + "crf" == "-crf";
    assert IntToDecimal(-3) == "-3" by {
      assert NatToDecimal(3) == "3";
    }
    assert "-" + "c:v" == "-c:v";
  }
}
