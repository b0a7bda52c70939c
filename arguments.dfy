/**
 * `build_args_from_form`: the yt-dlp command line built from the fields of a
 * start request. The request body is a dictionary of text fields plus the
 * `toggles` list.
 */
module Arguments {
  import opened Results
  import opened Text

  const YtdlpBin: string := "yt-dlp"

  /** The output template used under a destination directory when the form gives none. */
  const DefaultTemplate: string := "%(uploader)s/%(title)s.%(ext)s"

  /** The flags a form may switch on; anything else in `toggles` is ignored. */
  const Allowed: set<string> := {
    "--no-abort-on-error", "--skip-unavailable-fragments", "--continue",
    "--restrict-filenames", "--windows-filenames",
    "--embed-thumbnail", "--embed-metadata", "--embed-chapters",
    "--write-description", "--write-info-json", "--no-clean-info-json",
    "--write-subs", "--no-simulate", "--no-ignore-no-formats-error",
    "--list-formats", "--list-subs", "--progress", "--console-title",
    "--no-keep-fragments"
  }

  /** A start request: its text fields by name, and its `toggles` list (empty when absent). */
  datatype Form = Form(fields: map<string, string>, toggles: seq<string>)

  /** `data.get(key, default)`. */
  function Field(form: Form, key: string, default: string): string {
    if key in form.fields then form.fields[key] else default
  }

  /** `data.get(key, "").strip()`. */
  function Stripped(form: Form, key: string): string {
    Strip(Field(form, key, ""))
  }

  /** `[flag, value]` when `value` is not blank, nothing otherwise. */
  function OptionPair(flag: string, value: string): (r: seq<string>)
    ensures r == [] <==> value == []
    ensures r != [] ==> r == [flag, value]
  {
    if value == [] then [] else [flag, value]
  }

  function OutputTemplateOption(form: Form): seq<string> {
    OptionPair("-o", Stripped(form, "output_template"))
  }

  function ArchiveOption(form: Form): seq<string> {
    OptionPair("--download-archive", Stripped(form, "archive_path"))
  }

  /** The `bestvideo*[height<=H]` selector that bounds the video by a maximum height. */
  function HeightBound(maxHeight: string): string {
    "bestvideo*[height<=" + maxHeight + "]"
  }

  /** The `-f` value of preset mode, by download kind and maximum height (blank for none). */
  function PresetFormat(kind: string, maxHeight: string): string {
    if kind == "audio" then "bestaudio/best"
    else if kind == "video" then
      if maxHeight != [] then HeightBound(maxHeight) + "/bestvideo" else "bestvideo"
    else
      if maxHeight != [] then HeightBound(maxHeight) + "+bestaudio/best[height<=" + maxHeight + "]/best"
      else "bestvideo+bestaudio/best"
  }

  /** Custom mode passes the custom format if one is given; any other mode is preset mode. */
  function FormatOption(form: Form): seq<string> {
    if Field(form, "format_mode", "preset") == "custom" then OptionPair("-f", Stripped(form, "custom_format"))
    else ["-f", PresetFormat(Field(form, "dl_kind", "video_audio"), Stripped(form, "max_height"))]
  }

  /** The allowed toggles of `toggles`, in their order. */
  function ToggleFlags(toggles: seq<string>): seq<string> {
    if toggles == [] then []
    else
      var last := toggles[|toggles| - 1];
      ToggleFlags(toggles[..|toggles| - 1]) + (if last in Allowed then [last] else [])
  }

  /** The `-o` under the destination directory, only when no output template was given. */
  function DestinationOption(form: Form): seq<string> {
    var base := Stripped(form, "destination_dir");
    if base != [] && Stripped(form, "output_template") == [] then ["-o", PathJoin(base, DefaultTemplate)] else []
  }

  /** The fixed head and every option, in the order they are added; the URL comes after them. */
  function Command(form: Form): seq<string> {
    [YtdlpBin, "--newline"]
    + OutputTemplateOption(form)
    + ArchiveOption(form)
    + FormatOption(form)
    + OptionPair("--limit-rate", Stripped(form, "limit_rate"))
    + OptionPair("--sleep-interval", Stripped(form, "sleep_interval"))
    + OptionPair("--max-sleep-interval", Stripped(form, "max_sleep_interval"))
    + ToggleFlags(form.toggles)
    + DestinationOption(form)
  }

  /**
   * The command line for a form: refused when the URL is blank, otherwise
   * `yt-dlp --newline`, the options, and the URL last.
   */
  function BuildArgs(form: Form): (r: Result<seq<string>, string>)
    ensures r.Failure? <==> Stripped(form, "url") == []
    ensures r.Failure? ==> r.error == "Missing URL"
    ensures r.Success? ==> |r.value| >= 3 && r.value[..2] == [YtdlpBin, "--newline"]
    ensures r.Success? ==> r.value[|r.value| - 1] == Stripped(form, "url")
    ensures r.Success? ==> r.value[..|r.value| - 1] == Command(form)
  {
    var url := Stripped(form, "url");
    if url == [] then Failure("Missing URL")
    else
      var argv := Command(form) + [url];
      assert argv[..|argv| - 1] == Command(form);
      Success(argv)
  }

  /** The toggles kept are exactly those of the input that are allowed. */
  lemma {:induction false} ToggleFlagsMembers(toggles: seq<string>)
    ensures |ToggleFlags(toggles)| <= |toggles|
    ensures forall t :: t in ToggleFlags(toggles) <==> t in toggles && t in Allowed
  {
    if toggles != [] {
      var init := toggles[..|toggles| - 1];
      ToggleFlagsMembers(init);
      assert toggles == init + [toggles[|toggles| - 1]];
    }
  }

  /** Filtering respects concatenation, so the kept toggles keep their input order. */
  lemma {:induction false} ToggleFlagsOrder(a: seq<string>, b: seq<string>)
    ensures ToggleFlags(a + b) == ToggleFlags(a) + ToggleFlags(b)
  {
    if b == [] {
      assert a + b == a;
    } else {
      var init := b[..|b| - 1];
      ToggleFlagsOrder(a, init);
      assert (a + b)[..|a + b| - 1] == a + init;
    }
  }

  /** A list of allowed toggles passes unchanged; a list of unknown ones adds nothing. */
  lemma {:induction false} ToggleFlagsExtremes(toggles: seq<string>)
    ensures (forall i :: 0 <= i < |toggles| ==> toggles[i] in Allowed) ==> ToggleFlags(toggles) == toggles
    ensures (forall i :: 0 <= i < |toggles| ==> toggles[i] !in Allowed) ==> ToggleFlags(toggles) == []
  {
    if toggles != [] {
      ToggleFlagsExtremes(toggles[..|toggles| - 1]);
      assert toggles[..|toggles| - 1] + [toggles[|toggles| - 1]] == toggles;
    }
  }

  /**
   * Preset mode adds exactly one `-f` pair, chosen by kind and maximum height; custom mode adds
   * one only for a non-blank custom format, and then passes that format.
   */
  lemma FormatSelection(form: Form)
    ensures var r := FormatOption(form);
      && (Field(form, "format_mode", "preset") != "custom" ==>
            |r| == 2 && r[0] == "-f"
            && r[1] == PresetFormat(Field(form, "dl_kind", "video_audio"), Stripped(form, "max_height")))
      && (Field(form, "format_mode", "preset") == "custom" ==>
            (r == [] <==> Stripped(form, "custom_format") == [])
            && (r != [] ==> r == ["-f", Stripped(form, "custom_format")]))
  {
  }

  /** Audio ignores the height. */
  lemma PresetFormatAudio(maxHeight: string)
    ensures PresetFormat("audio", maxHeight) == "bestaudio/best"
  {
  }

  /** Without a maximum height no kind asks for a height bound. */
  lemma PresetFormatUnbounded(kind: string)
    ensures '[' !in PresetFormat(kind, [])
  {
    var f := PresetFormat(kind, []);
    if kind == "audio" {
      assert f == "bestaudio/best";
    } else if kind == "video" {
      assert f == "bestvideo";
    } else {
      assert f == "bestvideo+bestaudio/best";
    }
  }

  /** With a maximum height, both video kinds first ask for a stream no taller than it. */
  lemma PresetFormatBounded(kind: string, maxHeight: string)
    requires kind != "audio" && maxHeight != []
    ensures var f, bound := PresetFormat(kind, maxHeight), HeightBound(maxHeight);
      |f| > |bound| && f[..|bound|] == bound
  {
    var bound := HeightBound(maxHeight);
    var rest := if kind == "video" then "/bestvideo" else "+bestaudio/best[height<=" + maxHeight + "]/best";
    assert PresetFormat(kind, maxHeight) == bound + rest;
  }

  /**
   * At most one `-o` comes from the form: the destination directory's default template is used
   * exactly when no output template was given, and it is the directory joined with that template.
   */
  lemma SingleOutputTemplate(form: Form)
    ensures |OutputTemplateOption(form)| + |DestinationOption(form)| <= 2
    ensures DestinationOption(form) != [] <==>
      Stripped(form, "output_template") == [] && Stripped(form, "destination_dir") != []
    ensures DestinationOption(form) != [] ==>
      var base, path := Stripped(form, "destination_dir"), DestinationOption(form)[1];
      && DestinationOption(form)[0] == "-o"
      && path == (if base[|base| - 1] == '/' then base + DefaultTemplate else base + "/" + DefaultTemplate)
  {
    assert DefaultTemplate[0] == '%';
  }

  /** The "# Boolean toggles" loop: append each allowed toggle in turn. */
  method AppendToggles(argv0: seq<string>, toggles: seq<string>) returns (argv: seq<string>)
    ensures argv == argv0 + ToggleFlags(toggles)
  {
    argv := argv0;
    ghost var head := argv;
    var i := 0;
    while i < |toggles|
      invariant 0 <= i <= |toggles|
      invariant argv == head + ToggleFlags(toggles[..i])
    {
      var t := toggles[i];
      assert toggles[..i + 1][..i] == toggles[..i];
      if t in Allowed {
        argv := argv + [t];
      }
      i := i + 1;
    }
    assert toggles[..i] == toggles;
  }
}
