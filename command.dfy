/**
 * The `ffmpeg` argument list built in `get_and_make_files`, as the loop that
 * grows it and as the specification that loop meets.
 */
module FfmpegCommand {
  import opened Wrappers
  import opened FfmpegOptions

  const Program := "ffmpeg"
  const Overwrite := "-y"

  /** Lines 121-124: still image looped as video, audio mapped beside it. */
  function CoverInputs(cover: string, audio: string): seq<string> {
    ["-loop", "1", "-i", cover, "-i", audio, "-map", "0:v:0", "-map", "1:a:0", "-b:a", "192k", "-shortest"]
  }

  /** The input words that follow `ffmpeg -y`, for each branch. */
  function Inputs(audio: string, cover: Option<string>): seq<string> {
    if cover.Some? then CoverInputs(cover.value, audio) else ["-i", audio]
  }

  /** The option dict as it stands when the loop starts: only the no-cover branch touches it. */
  function EffectiveOptions(cover: Option<string>, options: Options): Options {
    if cover.Some? then options else WithDefaultFilter(options)
  }

  /** The complete argument list, in the order the source appends its parts. */
  function CommandFor(audio: string, cover: Option<string>, options: Options, output: string): seq<string> {
    [Program, Overwrite] + Inputs(audio, cover) + RenderOptions(EffectiveOptions(cover, options)) + [output]
  }

  /**
   * Lines 117-143. `cmd` grows by `extend` and `append`; `options` is the
   * dict as it is left, with `filter_complex` set when there is no cover.
   */
  method BuildCommand(audio: string, cover: Option<string>, options: Options, output: string)
    returns (cmd: seq<string>, finalOptions: Options)
    requires DistinctKeys(options)
    ensures DistinctKeys(finalOptions)
    ensures finalOptions == EffectiveOptions(cover, options)
    ensures cmd == CommandFor(audio, cover, options, output)
  {
    cmd := [Program, Overwrite];
    finalOptions := options;
    if cover.Some? {
      cmd := cmd + ["-loop", "1", "-i", cover.value];
      cmd := cmd + ["-i", audio];
      cmd := cmd + ["-map", "0:v:0", "-map", "1:a:0", "-b:a", "192k", "-shortest"];
    } else {
      cmd := cmd + ["-i", audio];
      finalOptions := Set(finalOptions, FilterComplexKey,
        Get(finalOptions, FilterComplexKey).GetOr(Text(DefaultFilterComplex)));
    }
    assert cmd == [Program, Overwrite] + Inputs(audio, cover);
    cmd := AppendOptions(cmd, finalOptions);
    cmd := cmd + [output];
  }

  /** Lines 132-141: the loop that appends each option's words to `cmd`, in dict order. */
  method AppendOptions(cmd0: seq<string>, options: Options) returns (cmd: seq<string>)
    ensures cmd == cmd0 + RenderOptions(options)
  {
    cmd := cmd0;
    var i := 0;
    assert options[..i] == [];
    while i < |options|
      invariant 0 <= i <= |options|
      invariant cmd == cmd0 + RenderOptions(options[..i])
    {
      ghost var before := cmd;
      var key, value := options[i].0, options[i].1;
      var flag := Flag(key);
      if value.Bool? {
        if value.b {
          cmd := cmd + [flag];
        }
      } else {
        if key == FilterComplexKey {
          cmd := cmd + [flag, PyStr(value)];
        } else {
          cmd := cmd + [flag, PyStr(value)];
        }
      }
      OptionWords(key, value, before, cmd);
      LoopStep(cmd0, before, cmd, options, i);
      i := i + 1;
    }
    assert options[..i] == options;
  }

  /** What one pass of the loop body appends is the option's rendering. */
  lemma OptionWords(key: string, value: Value, before: seq<string>, after: seq<string>)
    requires value.Bool? && value.b ==> after == before + [Flag(key)]
    requires value.Bool? && !value.b ==> after == before
    requires !value.Bool? ==> after == before + [Flag(key), PyStr(value)]
    ensures after == before + RenderOption(key, value)
  {
  }

  /** The loop invariant survives one more option. */
  lemma LoopStep(cmd0: seq<string>, before: seq<string>, after: seq<string>, options: Options, i: nat)
    requires i < |options|
    requires before == cmd0 + RenderOptions(options[..i])
    requires after == before + RenderOption(options[i].0, options[i].1)
    ensures after == cmd0 + RenderOptions(options[..i + 1])
  {
    RenderStep(options, i);
  }

  // ---------------------------------------------------------------------------
  // What the argument list promises

  /** The four parts of an argument list can be read back off it. */
  lemma Parts(inputs: seq<string>, rendered: seq<string>, output: string)
    ensures var cmd := [Program, Overwrite] + inputs + rendered + [output];
      && |cmd| == 3 + |inputs| + |rendered|
      && cmd[..2] == [Program, Overwrite]
      && cmd[2..2 + |inputs|] == inputs
      && cmd[2 + |inputs|..] == rendered + [output]
      && cmd[|cmd| - 1] == output
  {
  }

  /** It starts with `ffmpeg -y`, ends with the output path, and its length adds up. */
  lemma CommandFrame(audio: string, cover: Option<string>, options: Options, output: string)
    ensures var cmd := CommandFor(audio, cover, options, output);
      && |cmd| == 3 + |Inputs(audio, cover)| + TotalWidth(EffectiveOptions(cover, options))
      && cmd[..2] == [Program, Overwrite]
      && cmd[|cmd| - 1] == output
  {
    var rendered := RenderOptions(EffectiveOptions(cover, options));
    RenderOptionsLength(EffectiveOptions(cover, options));
    Parts(Inputs(audio, cover), rendered, output);
  }

  /**
   * With a cover: the thirteen image/audio/mapping words come right after
   * `-y`, and the options are rendered exactly as configured.
   */
  lemma CoverCommand(audio: string, cover: string, options: Options, output: string)
    ensures EffectiveOptions(Some(cover), options) == options
    ensures var cmd := CommandFor(audio, Some(cover), options, output);
      && cmd[2..15] == ["-loop", "1", "-i", cover, "-i", audio, "-map", "0:v:0", "-map", "1:a:0", "-b:a", "192k", "-shortest"]
      && cmd[15..] == RenderOptions(options) + [output]
  {
    var rendered := RenderOptions(options);
    Parts(CoverInputs(cover, audio), rendered, output);
  }

  /**
   * Without a cover and without a configured filter: `-i <audio>` after
   * `-y`, and the default `-filter_complex` pair just before the output.
   */
  lemma NoCoverDefaultFilter(audio: string, options: Options, output: string)
    requires !HasKey(options, FilterComplexKey)
    ensures var cmd := CommandFor(audio, None, options, output);
      && cmd[2..4] == ["-i", audio]
      && cmd[4..] == RenderOptions(options) + ["-" + FilterComplexKey, DefaultFilterComplex, output]
  {
    var v := Text(DefaultFilterComplex);
    assert EffectiveOptions(None, options) == options + [(FilterComplexKey, v)];
    RenderLast(options, FilterComplexKey, v);
    var rendered := RenderOptions(options + [(FilterComplexKey, v)]);
    Parts(["-i", audio], rendered, output);
  }

  /** An option added last is rendered last. */
  lemma RenderLast(o: Options, key: string, v: Value)
    ensures RenderOptions(o + [(key, v)]) == RenderOptions(o) + RenderOption(key, v)
  {
    var p := o + [(key, v)];
    assert p[..|p| - 1] == o;
  }

  /**
   * Without a cover but with `filter_complex` configured: the options are
   * rendered as configured, that value at its own position.
   */
  lemma NoCoverConfiguredFilter(audio: string, options: Options, output: string)
    requires HasKey(options, FilterComplexKey)
    ensures EffectiveOptions(None, options) == options
    ensures var cmd := CommandFor(audio, None, options, output);
      && cmd[2..4] == ["-i", audio]
      && cmd[4..] == RenderOptions(options) + [output]
  {
    var rendered := RenderOptions(options);
    Parts(["-i", audio], rendered, output);
  }

  /**
   * Each option's words stand in the segment at the offset its predecessors
   * leave, in dict order.
   */
  lemma OptionAt(o: Options, i: nat)
    requires i < |o|
    ensures RenderOptions(o) == RenderOptions(o[..i]) + RenderOption(o[i].0, o[i].1) + RenderOptions(o[i + 1..])
  {
    assert o == o[..i + 1] + o[i + 1..];
    RenderOptionsAppend(o[..i + 1], o[i + 1..]);
    RenderStep(o, i);
  }

  /** One more option extends the rendered prefix by that option's words. */
  lemma RenderStep(o: Options, i: nat)
    requires i < |o|
    ensures RenderOptions(o[..i + 1]) == RenderOptions(o[..i]) + RenderOption(o[i].0, o[i].1)
  {
    var p := o[..i + 1];
    assert p[..|p| - 1] == o[..i];
    assert p[|p| - 1] == o[i];
  }
}
