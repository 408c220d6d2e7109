# sotdbot: media selection and ffmpeg command synthesis, in Dafny

sotdbot posts a "song of the day". It picks a random collection (a
subdirectory) under the configured media directory, then a random audio file in
that collection. It reads the caption from the collection's `artist.txt`, uses
`cover.jpg` as a still image if there is one, and builds an `ffmpeg` command
that turns the track into a video under `temp/`. Then it hands the result to
the posting code. Before this, `main` checks that the five API credentials are
all set.

This project models that logic with the file system, the environment, the
random draws and the `ffmpeg` process taken out:

- `wrappers.dfy`: `Option` and `Result`.
- `pytext.dfy` (module `PyText`): the Python behaviour the bot relies on.
  This covers `str.strip` (Python's full `isspace` set), ASCII `str.lower`,
  `PurePath.suffix` and `PurePath.stem` (the last dot, when it is neither the
  first nor the last character), `str(int)` with a round-trip proof, and the
  `/` operator on paths.
- `sequences.dfy` (module `Sequences`): list comprehensions with a condition,
  as an order-preserving `Filter`, and the subsequence relation it keeps.
- `media.dfy` (module `Media`): a directory listing is a sequence of `Entry`
  values (a file with its text, or a directory with its own listing). As in
  a file system, no two entries of a listing share a name (`IsListing`).
  `random.choice` is `Choose(s, pick)`, where `pick` is an arbitrary natural
  number supplied by the caller. It also has the subdirectory selection, the
  audio selection by suffix, the caption lookup, the cover lookup and the
  song name.
- `options.dfy` (module `FfmpegOptions`): the `ffmpeg.options` dict.
  It is a sequence of (key, value) pairs in insertion order, with `Find`,
  `Get` and `Set` behaving like a Python dict. Values are tagged: `Bool`,
  `Text`, `Int` or `Null`. The module also has the default `filter_complex`
  injection and the per-option rendering rule.
- `command.dfy` (module `FfmpegCommand`): `BuildCommand` grows the argument
  list the way the source does. Its options loop (`AppendOptions`) is a
  `while` loop with an invariant. Both are proved against the specification
  function `CommandFor`, and lemmas state what the list looks like in each
  branch.
- `credentials.dfy` (module `Credentials`): the missing-key computation and
  the credential check in `main`.
- `bot.dfy` (module `SotdBot`): `GetAndMakeFiles` runs the whole routine. The
  random draws are inputs. The transcoder is a function from the argument list
  to "exited with status 0". The routine's three outcomes are modelled
  explicitly: a descriptor, the silent abort when `artist.txt` is missing, or
  an error. Module `Examples` checks the worked cases on concrete values.

Behaviour of `get_and_make_files` worth noting:

- A missing `artist.txt` is a plain `return` (no value), not a typed error.
  It is checked only after the audio file has been chosen, so a collection
  with no audio files fails with `NoAudioFiles` even when it also lacks
  `artist.txt`.
- The audio filter tests only the suffix of each entry's name. A directory
  named `x.mp3` is therefore a candidate.
- A configured `filter_complex` is rendered with a cover too. The cover branch
  never removes it.
- When `artist.txt` exists but is a directory, opening it fails. The model
  reports this as `ArtistFileUnreadable`.
- A relative `output` name is placed inside `<workspace>/temp`, but an
  absolute one replaces that directory, as pathlib's `/` does.

## Model

| member | source | states |
|---|---|---|
| PyText.IsSpace | sotdbot/main.py:103 | the characters `str.strip` removes: Python's `isspace` set, from tab to carriage return, the four separators 0x1C-0x1F, space, 0x85, 0xA0, 0x1680, 0x2000-0x200A, 0x2028, 0x2029, 0x202F, 0x205F and 0x3000 |
| PyText.StripLeft | sotdbot/main.py:103 | the result is a suffix of the input, everything dropped is whitespace, and it does not start with whitespace |
| PyText.StripRight | sotdbot/main.py:103 | the result is a prefix of the input, everything dropped is whitespace, and it does not end with whitespace |
| PyText.Strip | sotdbot/main.py:103 | the caption is a contiguous slice of the file text with only whitespace around it, and it neither starts nor ends with whitespace |
| PyText.StripFixed | sotdbot/main.py:103 | text with no whitespace at either end is unchanged by stripping |
| PyText.StripIdempotent | sotdbot/main.py:103 | stripping twice gives the same caption as stripping once |
| PyText.LowerChar | sotdbot/main.py:90 | an ASCII capital maps to its lower-case letter; every other character is unchanged |
| PyText.Lower | sotdbot/main.py:90 | lower-casing keeps the length and maps each character on its own |
| PyText.LastDot | sotdbot/main.py:90 | `rfind('.')`: -1 or the index of a dot with no dot after it |
| PyText.Suffix | sotdbot/main.py:90 | the suffix is empty exactly when the name has no split dot; otherwise it starts with the only dot it contains, has at least two characters, and ends the name |
| PyText.Stem | sotdbot/main.py:154 | stem followed by suffix gives back the file name; a non-empty name has a non-empty stem |
| PyText.DigitChar | sotdbot/main.py:139-141 | a digit value becomes the character with that digit's value |
| PyText.NatToDecimal | sotdbot/main.py:139-141 | `str` of a natural number is a non-empty digit string with no leading zero |
| PyText.IntToDecimal | sotdbot/main.py:139-141 | `str` of an integer starts with `-` exactly when the integer is negative, and the rest is non-empty digits with no leading zero (so never `-0`) |
| PyText.NatToDecimalValue | sotdbot/main.py:139-141 | reading the digits back gives the number |
| PyText.IntToDecimalRoundTrip | sotdbot/main.py:139-141 | `int(str(i)) == i`, so distinct integer option values render as distinct words |
| PyText.DecimalValuePositive | sotdbot/main.py:139-141 | digits that do not start with a zero stand for a positive number |
| PyText.CanonicalDigits | sotdbot/main.py:139-141 | digits without a leading zero are the decimal form of their value |
| PyText.CanonicalIntIsDecimal | sotdbot/main.py:139-141 | canonical integer text is `str` of its value, so `str(int)` is the only canonical text that reads back as a given integer |
| PyText.PathOf | sotdbot/main.py:80 | `Path("")` is `.`; any other normalised path string is kept |
| PyText.JoinPath | sotdbot/main.py:113-116 | an absolute name replaces the directory; an empty name leaves `Path(dir)`; under `.` (or an empty directory) a relative name stands alone; otherwise the result is the directory, then exactly one `/`, then the name |
| PyText.JoinRelative | sotdbot/main.py:113 | a relative name joined onto a directory other than `.` follows it after exactly one `/` |
| Sequences.SubsequenceTail | sotdbot/main.py:81 | dropping the first kept element still leaves a subsequence |
| Sequences.SubsequenceSkip | sotdbot/main.py:81 | a subsequence stays one when an element is put in front of the list |
| Sequences.Filter | sotdbot/main.py:81 | a filtering comprehension keeps, in original order and with their multiplicities, exactly the elements that pass the test |
| Media.Choose | sotdbot/main.py:86 | the chosen element is a member of the non-empty list |
| Media.ChooseReachesAll | sotdbot/main.py:95 | every element of the list is the choice for some draw |
| Media.IsAudioName | sotdbot/main.py:88-90 | the audio test: the lower-cased pathlib suffix of the name is `.mp3`, `.wav`, `.flac`, `.ogg` or `.m4a` |
| Media.AudioNameShape | sotdbot/main.py:88-90 | an eligible name has a split dot and a non-empty stem, and stem followed by suffix gives it back |
| Media.SuffixAt | sotdbot/main.py:90 | a name longer than one of the five suffixes that ends with it, ignoring case, has its pathlib suffix exactly there |
| Media.AudioNameEndsWith | sotdbot/main.py:88-90 | a name passes the audio test exactly when it is longer than one of the five suffixes and ends with it, ignoring ASCII case |
| Media.Subdirs | sotdbot/main.py:81 | the subdirectory list is the in-order subsequence of the listing holding exactly its directories, each as often as in the listing |
| Media.AudioFiles | sotdbot/main.py:88-90 | the audio list is the in-order subsequence of the listing holding exactly the entries whose lower-cased suffix is `.mp3`, `.wav`, `.flac`, `.ogg` or `.m4a`, each as often as in the listing |
| Media.FindEntry | sotdbot/main.py:99-110 | `exists()` holds exactly when some entry has that name; the entry found is the first with that name, and in a listing with unique names it is the only one |
| Media.SelectCollection | sotdbot/main.py:80-86 | fails with the media directory exactly when the listing has no directory; otherwise the collection is one of the listing's directories, at its joined path, and in a file-system listing its own listing has unique names too |
| Media.SelectAudio | sotdbot/main.py:88-95 | fails with the collection's path exactly when no entry has an audio suffix; otherwise the choice is an entry with an audio name, at its joined path |
| Media.LoadCaption | sotdbot/main.py:99-106 | the run aborts exactly when no entry is named `artist.txt`; when the entry found is a file, the caption is its text stripped; it is unreadable, at its joined path, exactly when the entry found is a directory; with unique names, any `artist.txt` file gives its stripped text and unreadable means a directory of that name |
| Media.LocateCover | sotdbot/main.py:108-110 | the cover is present exactly when an entry is named `cover.jpg`, and it is then that file's joined path |
| Media.SongName | sotdbot/main.py:154 | the title of an audio file is non-empty and, followed by the suffix, gives back the file name |
| FfmpegOptions.Find | sotdbot/main.py:127 | the index is -1 exactly when the key is absent, and otherwise it is the key's first position |
| FfmpegOptions.Get | sotdbot/main.py:127-128 | `get` finds a value exactly when the key is present, and that pair is in the dict |
| FfmpegOptions.Set | sotdbot/main.py:127 | assignment replaces the value of an existing key in place, and appends a new key at the end |
| FfmpegOptions.SetKeepsDistinct | sotdbot/main.py:127 | assignment keeps the dict's keys distinct |
| FfmpegOptions.SetReadsBack | sotdbot/main.py:127 | after `d[key] = v`, `d.get(key)` is `v` |
| FfmpegOptions.GetCons | sotdbot/main.py:127-128 | a lookup checks the first pair, then the rest |
| FfmpegOptions.SetLeavesOthers | sotdbot/main.py:127 | assignment changes no other key's value |
| FfmpegOptions.WithDefaultFilter | sotdbot/main.py:125-130 | a configured `filter_complex` leaves the dict unchanged (same value, same position); otherwise the default black-canvas filter is appended last; the keys stay distinct and `filter_complex` is present afterwards |
| FfmpegOptions.PyStrForms | sotdbot/main.py:139-141 | what `PyStr`, the model of `str(value)`, gives: a string is itself, an integer is canonical decimal text (no leading zero, never `-0`) that `int` reads back as the integer, and so exactly `str` of it, null is `None`, a boolean `True` or `False` |
| FfmpegOptions.Flag | sotdbot/main.py:133 | the flag is always `-` followed by the key, whether or not the key ends in `:v` or `:a` |
| FfmpegOptions.RenderOption | sotdbot/main.py:134-141 | `true` gives `[-key]`, `false` gives `[]`, and any other value gives `[-key, str(value)]`; the number of words is the value's width |
| FfmpegOptions.RenderOptions | sotdbot/main.py:132-141 | the reference rendering of the option loop: each option's words, in dict order |
| FfmpegOptions.RenderOptionsAppend | sotdbot/main.py:132-141 | the rendering of two dicts put together is the two renderings put together, in order |
| FfmpegOptions.RenderOptionsLength | sotdbot/main.py:132-141 | the option segment's length is the sum over options of 0 (false), 1 (true) or 2 (other) |
| FfmpegOptions.RenderOptionsOrigin | sotdbot/main.py:132-141 | every word of the segment is the flag or the rendered value of some option in the dict |
| FfmpegOptions.FalseOptionVanishes | sotdbot/main.py:134-136 | an option set to `false` renders as if it were absent |
| FfmpegCommand.CommandFor | sotdbot/main.py:118-143 | the reference argument list: `ffmpeg -y`, the branch's input words, the rendered options as the branch leaves them, the output path |
| FfmpegCommand.BuildCommand | sotdbot/main.py:117-143 | for a dict (distinct keys) the dict it leaves keeps distinct keys, and the argument list is `ffmpeg -y`, then the branch's input words, then the options, then the output path; the dict it leaves is unchanged with a cover and has the default filter injected without one |
| FfmpegCommand.AppendOptions | sotdbot/main.py:132-141 | the loop appends exactly the rendering of every option, in dict order |
| FfmpegCommand.LoopStep | sotdbot/main.py:132-141 | one pass of the loop extends the rendered prefix by the next option's words |
| FfmpegCommand.Parts | sotdbot/main.py:118-143 | the program, the inputs, the options and the output can each be read back off the list |
| FfmpegCommand.CommandFrame | sotdbot/main.py:118-143 | the list starts with `ffmpeg -y`, ends with the output path, and its length is 3 plus the input words plus the options' widths |
| FfmpegCommand.CoverCommand | sotdbot/main.py:121-124 | with a cover, the words right after `-y` are `-loop 1 -i <cover> -i <audio> -map 0:v:0 -map 1:a:0 -b:a 192k -shortest`, then the options exactly as configured, then the output |
| FfmpegCommand.NoCoverDefaultFilter | sotdbot/main.py:125-130 | without a cover or a configured filter, `-i <audio>` follows `-y`, and `-filter_complex <default>` comes right before the output, after the configured options |
| FfmpegCommand.NoCoverConfiguredFilter | sotdbot/main.py:125-130 | without a cover but with `filter_complex` configured, `-i <audio>` follows `-y`, and the options render verbatim, each in its own position |
| FfmpegCommand.OptionAt | sotdbot/main.py:132-141 | each option's words sit in the segment right after those of the options before it |
| FfmpegCommand.RenderStep | sotdbot/main.py:132-141 | rendering one more option of the dict appends that option's words |
| Credentials.GetEnv | sotdbot/main.py:29 | `os.getenv` gives nothing exactly when the variable is unset (set but empty counts as set), and otherwise the variable's value |
| Credentials.EnvVars | sotdbot/main.py:29 | one pair per key in key order; its value is absent exactly when the key is unset, and otherwise is the key's value |
| Credentials.KeysOf | sotdbot/main.py:31 | the keys of the pairs, in order |
| Credentials.MissingKeys | sotdbot/main.py:31 | the missing list is an in-order subsequence of the keys and holds exactly the keys paired with no value |
| Credentials.MissingKeysOfEnv | sotdbot/main.py:29-31 | over the environment, the missing list holds exactly the unset keys, in key order |
| Credentials.AllKeysPresent | sotdbot/main.py:32-34 | with nothing missing, all five credentials can be read |
| Credentials.CheckCredentials | sotdbot/main.py:29-51 | fails with the missing-key list (non-empty, some key unset) when any key is missing; otherwise all five are set and are passed on as read |
| SotdBot.MediaDir | sotdbot/main.py:80 | an absent or empty `media_directory` means the current directory, and a configured one is used as given |
| SotdBot.TempDir | sotdbot/main.py:113 | `temp` directly inside the absolute workspace: the workspace followed by `temp`, with a `/` between unless the workspace already ends with one |
| SotdBot.TempDirInside | sotdbot/main.py:113 | the temp directory starts with the workspace, ends in `/temp`, and is at most five characters longer |
| SotdBot.OutputPath | sotdbot/main.py:113-116 | a relative output name lies inside the temp directory (`<workspace>/temp/<output>`), an absolute one is used as given, an empty one is the temp directory; the path ends with the name |
| SotdBot.ConfiguredOptions | sotdbot/main.py:117 | absent `options` means an empty dict, and configured options are used as given |
| SotdBot.GetAndMakeFiles | sotdbot/main.py:68-155 | for an absolute workspace, a file-system listing and a dict of options: no subdirectory, or no audio file in the chosen one, gives that error; a missing `artist.txt` gives the silent abort; in all three cases no command runs. Otherwise the command run is exactly `CommandFor` of the chosen audio, cover, options and output. A zero exit gives the descriptor (output path, stripped caption, stem) and any other exit gives `TranscodeFailed`; a made video's caption is the stripped text of the collection's `artist.txt` |
| Examples.TitleOfTrack | sotdbot/main.py:154 | `track01.mp3` is an audio file titled `track01` |
| Examples.SuffixIgnoresCase | sotdbot/main.py:90 | `a.FLAC` is an audio file |
| Examples.HiddenFileIsNotAudio | sotdbot/main.py:90 | `.mp3` has no suffix, so it is not an audio file |
| Examples.TextFileIsNotAudio | sotdbot/main.py:90 | `a.txt` is not an audio file |
| Examples.OptionRendering | sotdbot/main.py:132-141 | `true` renders as a bare flag, `false` as nothing, `preset: fast` as `-preset fast`, `crf: -3` as `-crf -3`, and `c:v` keeps its specifier |

## Left out

- Loading `.env` and reading the environment (lines 12-19, 29): the environment is a `map` given as input.
- Reading and parsing `settings.yml` (lines 69-77): the settings are a `Settings` value given as input. Its keys being missing or malformed (`config["ffmpeg"]`, a null `output`) is not modelled.
- `os.path.expanduser`: the media directory string is taken after home-directory expansion.
- Case-insensitive file systems: listings are those of a case-sensitive file system, so `exists()` (lines 101, 109) matches `artist.txt` and `cover.jpg` exactly. On a case-insensitive one (the default on macOS and Windows) `Artist.txt` or `COVER.JPG` would also be found, where the model aborts or uses no cover.
- A `media_directory` that does not exist or is not a directory: `iterdir()` raises at line 81. The listing is a sequence of entries, so it always exists.
- `Path.iterdir`, `exists()` and file reads (lines 81, 90, 101-103, 108-109): a directory is a listing of `Entry` values in the order the OS returns them, and a file carries its decoded text, taken after Python's universal-newline translation of `\r\n` and `\r` to `\n`. Decoding errors are not modelled.
- `temp_dir.mkdir` (line 114): creating the directory is I/O.
- `random.choice` (lines 86, 95): the draw is an input `pick`, reduced modulo the list length. How the draws are distributed is not modelled.
- Running `ffmpeg` (lines 145-149): the transcoder is a function parameter that says whether a given argument list exits with status 0. The source catches only a non-zero exit; a launch failure such as a missing `ffmpeg` binary raises out of the routine, and the model counts it as a failed run.
- The tweepy client, the media upload and the tweet (lines 37-64): network calls into a foreign library.
- `print` and `sys.exit`: the exits are error results. In `main`, the `None` returned after a missing `artist.txt` is then subscripted. That crash belongs to the posting code and is not modelled.
- PyText.Lower: lower-cases ASCII letters only. Python's full Unicode case mapping only matters for characters that lower-case to an ASCII letter of an eligible suffix, and only the Kelvin sign does that, for `k`, which no eligible suffix contains.
- SotdBot.OutputPath: the configured `output` and `media_directory` are taken in pathlib's normal form. A name such as `./out.mp4`, `out.mp4/` or `a//b.mp4`, which pathlib would normalise, is joined as written, so the model's last argument word differs from Python's for it.
- Option keys that are not strings: YAML such as `1:` or `on:` loads as an integer or boolean key, and `key.endswith` at line 133 then raises. The model's keys are strings.
- FfmpegOptions.PyStrForms: CPython refuses `str()` of an integer with more than 4300 decimal digits (`ValueError`, the integer string conversion limit), and a hexadecimal, octal or binary YAML integer can be that large; lines 139-141 then raise out of `get_and_make_files` and nothing runs. The model renders every integer as its decimal text, so `PyStr`, `RenderOption`, `RenderOptions`, `BuildCommand` and `GetAndMakeFiles` give a command for such a value.
- Option values that are floats, lists or mappings: `str()` of these is not modelled. Values are booleans, strings, integers or null.
