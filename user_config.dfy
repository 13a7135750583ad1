/**
 * The user settings of the C screen reader and how `LoadUserSettings` derives them from
 * config.json.  The file system and the cJSON parser are collaborators: a `ConfigFile` value
 * says what opening, sizing, reading and parsing the file produced.
 */
module UserConfig {
  import opened Wrappers

  /** A keyboard layout handle (HKL), only ever compared for identity. */
  type Layout = int

  /** The process-wide settings record (the `UserSettings` struct). */
  datatype UserSettings = UserSettings(
    speechRate: real,
    volume: real,
    pollInterval: nat,
    keyboardLayout: Layout)

  const DefaultSpeechRate: real := 1.0
  const DefaultVolume: real := 1.0
  const DefaultPollInterval: nat := 5000

  /**
   * The three members of the parsed JSON object that are JSON numbers; `None` when the member
   * is absent or is not a number.  `pollInterval` is the value after its conversion to DWORD.
   */
  datatype ConfigDocument = ConfigDocument(
    speechRate: Option<real>,
    volume: Option<real>,
    pollInterval: Option<nat>)

  /**
   * What the file system and the parser report for config.json: `Missing` when `fopen` fails;
   * otherwise the raw file contents as stored on disk, whether the content buffer could be
   * allocated, whether `fread` hit a genuine I/O error, and what cJSON made of the text read
   * (`None`: a parse error).
   */
  datatype ConfigFile =
    | Missing
    | Present(contents: seq<char>, allocates: bool, ioError: bool, parsed: Option<ConfigDocument>)

  /** The settings every "use defaults" path assigns, with the layout active at load time. */
  function Defaults(layout: Layout): (s: UserSettings)
    ensures s.keyboardLayout == layout
    ensures s.speechRate == 1.0 && s.volume == 1.0 && s.pollInterval == 5000
  {
    UserSettings(DefaultSpeechRate, DefaultVolume, DefaultPollInterval, layout)
  }

  /** Each field takes the parsed number when there is one, and its own default otherwise. */
  function FromDocument(doc: ConfigDocument, layout: Layout): (s: UserSettings)
    ensures s.keyboardLayout == layout
  {
    UserSettings(
      doc.speechRate.GetOr(DefaultSpeechRate),
      doc.volume.GetOr(DefaultVolume),
      doc.pollInterval.GetOr(DefaultPollInterval),
      layout)
  }

  /** True when the raw contents hold a carriage return followed by a line feed. */
  predicate HasCrlf(raw: seq<char>)
  {
    exists i :: 0 <= i < |raw| - 1 && raw[i] == '\r' && raw[i + 1] == '\n'
  }

  /**
   * The characters a text-mode `fread` delivers for the raw contents: every CR LF pair
   * becomes a single LF, so the count is short by one per pair.
   */
  function TextModeRead(raw: seq<char>): (r: seq<char>)
    ensures |r| <= |raw|
    ensures |r| == |raw| <==> !HasCrlf(raw)
  {
    if |raw| >= 2 && raw[0] == '\r' && raw[1] == '\n' then
      ['\n'] + TextModeRead(raw[2..])
    else if raw == [] then
      []
    else
      var rest := TextModeRead(raw[1..]);
      assert HasCrlf(raw[1..]) ==> HasCrlf(raw) by {
        if HasCrlf(raw[1..]) {
          var i :| 0 <= i < |raw[1..]| - 1 && raw[1..][i] == '\r' && raw[1..][i + 1] == '\n';
          assert raw[i + 1] == '\r' && raw[i + 2] == '\n';
        }
      }
      assert HasCrlf(raw) ==> HasCrlf(raw[1..]) by {
        if HasCrlf(raw) {
          var i :| 0 <= i < |raw| - 1 && raw[i] == '\r' && raw[i + 1] == '\n';
          assert i != 0;
          assert raw[1..][i - 1] == '\r' && raw[1..][i] == '\n';
        }
      }
      [raw[0]] + rest
  }

  /**
   * `LoadUserSettings` as written: after reading, it compares the count `fread` returned
   * against the size `ftell` reported for the stream opened in text mode, so any CR LF in the
   * file counts as a failed read.  `None` stands for a FALSE return (settings untouched).
   */
  function LoadedSettingsAsWritten(file: ConfigFile, layout: Layout): (r: Option<UserSettings>)
    ensures r.None? <==> file.Present? && (!file.allocates || file.ioError || HasCrlf(file.contents))
    ensures r.Some? ==> r.value.keyboardLayout == layout
  {
    match file
    case Missing => Some(Defaults(layout))
    case Present(contents, allocates, ioError, parsed) =>
      if !allocates then None
      else if ioError || |TextModeRead(contents)| != |contents| then None
      else match parsed
        case None => Some(Defaults(layout))
        case Some(doc) => Some(FromDocument(doc, layout))
  }

  /**
   * `LoadUserSettings` with the read check corrected: the read fails only on a genuine I/O
   * error, and the text read is whatever text mode delivered.
   */
  function LoadedSettings(file: ConfigFile, layout: Layout): (r: Option<UserSettings>)
    ensures r.None? <==> file.Present? && (!file.allocates || file.ioError)
    ensures r.Some? ==> r.value.keyboardLayout == layout
    ensures file.Present? && file.allocates && !file.ioError && file.parsed.Some? ==>
              r == Some(FromDocument(file.parsed.value, layout))
    ensures file.Missing? || (file.Present? && file.allocates && !file.ioError && file.parsed.None?) ==>
              r == Some(Defaults(layout))
  {
    match file
    case Missing => Some(Defaults(layout))
    case Present(contents, allocates, ioError, parsed) =>
      if !allocates || ioError then None
      else match parsed
        case None => Some(Defaults(layout))
        case Some(doc) => Some(FromDocument(doc, layout))
  }

  /** A missing file yields rate 1.0, volume 1.0, poll interval 5000 ms and success. */
  lemma MissingFileGivesDefaults(layout: Layout)
    ensures LoadedSettings(Missing, layout) == Some(UserSettings(1.0, 1.0, 5000, layout))
  {
  }

  /** A parse error yields exactly what a missing file yields. */
  lemma ParseErrorLikeMissingFile(contents: seq<char>, layout: Layout)
    ensures LoadedSettings(Present(contents, true, false, None), layout)
         == LoadedSettings(Missing, layout)
  {
  }

  /** A document without any numeric member is indistinguishable from a missing file. */
  lemma EmptyDocumentLikeMissingFile(contents: seq<char>, layout: Layout)
    ensures LoadedSettings(Present(contents, true, false, Some(ConfigDocument(None, None, None))), layout)
         == LoadedSettings(Missing, layout)
  {
  }

  /**
   * The fields are defaulted independently: one member of the document decides one field of
   * the settings, whatever the other members hold.
   */
  lemma FieldsDefaultIndependently(d1: ConfigDocument, d2: ConfigDocument, layout: Layout)
    ensures d1.speechRate == d2.speechRate ==>
              FromDocument(d1, layout).speechRate == FromDocument(d2, layout).speechRate
    ensures d1.volume == d2.volume ==>
              FromDocument(d1, layout).volume == FromDocument(d2, layout).volume
    ensures d1.pollInterval == d2.pollInterval ==>
              FromDocument(d1, layout).pollInterval == FromDocument(d2, layout).pollInterval
    ensures d1.speechRate.Some? ==> FromDocument(d1, layout).speechRate == d1.speechRate.value
    ensures d1.volume.Some? ==> FromDocument(d1, layout).volume == d1.volume.value
    ensures d1.pollInterval.Some? ==> FromDocument(d1, layout).pollInterval == d1.pollInterval.value
  {
  }

  /** As written, a config file with Windows line endings makes the load fail. */
  lemma CrlfConfigFailsAsWritten(contents: seq<char>, parsed: Option<ConfigDocument>, layout: Layout)
    requires HasCrlf(contents)
    ensures LoadedSettingsAsWritten(Present(contents, true, false, parsed), layout) == None
  {
  }

  /** A concrete instance: the two-line document "{" CR LF "}". */
  lemma CrlfExampleFailsAsWritten(layout: Layout)
    ensures LoadedSettingsAsWritten(Present("{\r\n}", true, false, Some(ConfigDocument(None, None, None))), layout) == None
  {
    assert "{\r\n}"[1] == '\r' && "{\r\n}"[2] == '\n';
    CrlfConfigFailsAsWritten("{\r\n}", Some(ConfigDocument(None, None, None)), layout);
  }

  /** Corrected: the line endings of the file no longer change the outcome of the load. */
  lemma LineEndingsDoNotMatter(c1: seq<char>, c2: seq<char>, allocates: bool, ioError: bool,
                               parsed: Option<ConfigDocument>, layout: Layout)
    ensures LoadedSettings(Present(c1, allocates, ioError, parsed), layout)
         == LoadedSettings(Present(c2, allocates, ioError, parsed), layout)
  {
  }

  /** The correction changes nothing for files without CR LF. */
  lemma CorrectionOnlyAffectsCrlf(file: ConfigFile, layout: Layout)
    requires file.Present? ==> !HasCrlf(file.contents)
    ensures LoadedSettings(file, layout) == LoadedSettingsAsWritten(file, layout)
  {
  }
}
