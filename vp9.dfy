/**
 * The VP9 (libvpx-vp9) video encoder profile: default settings, the ffmpeg
 * argument list the settings turn into, the one-line summary, and the
 * settings updates the encoder's form reports to its owner.
 *
 * Settings are a JavaScript object whose values the form fills with strings;
 * a key the object lacks reads as `undefined`.
 */
module Vp9 {
  import opened Wrappers
  import opened JsBuiltins

  type Settings = map<string, string>

  const DisplayName := "VP9 (libvpx-vp9)"

  const DefaultSettings: Settings :=
    map["bitrate" := "4096", "fps" := "25", "gop" := "2", "fps_mode" := "passthrough"]

  function Field(s: Settings, key: string): Option<string>
  {
    if key in s then Some(s[key]) else None
  }

  /** `init`: the caller's settings spread over the defaults; the caller wins and extra keys are kept. */
  function Init(initial: Settings): (s: Settings)
    ensures s.Keys == DefaultSettings.Keys + initial.Keys
    ensures forall k :: k in initial ==> s[k] == initial[k]
    ensures forall k :: k in DefaultSettings && k !in initial ==> s[k] == DefaultSettings[k]
  {
    DefaultSettings + initial
  }

  lemma InitOfEmpty()
    ensures Init(map[]) == DefaultSettings
    ensures Field(Init(map[]), "bitrate") == Some("4096") && Field(Init(map[]), "fps") == Some("25")
    ensures Field(Init(map[]), "gop") == Some("2") && Field(Init(map[]), "fps_mode") == Some("passthrough")
  {
    assert Init(map[]).Keys == DefaultSettings.Keys;
  }

  // ---------------------------------------------------------------------
  // The argument mapping
  // ---------------------------------------------------------------------

  /** One option of the transcoder: a flag and the value token that follows it. */
  datatype Arg = Arg(flag: string, value: string)

  /** Arguments shared by every output (`global`) and those of this stream (`local`). */
  datatype Mapping = Mapping(global: seq<string>, local: seq<string>)

  /** The flat token list: each flag immediately followed by its value. */
  function Flatten(args: seq<Arg>): seq<string>
  {
    if args == [] then [] else [args[0].flag, args[0].value] + Flatten(args[1..])
  }

  /** `parseInt(fps) * parseInt(gop)`, rounded and printed with no decimals. */
  function GopFrames(s: Settings): string
  {
    ToFixed0(Multiply(ParseInt(Template(Field(s, "fps"))), ParseInt(Template(Field(s, "gop")))))
  }

  /** `${bitrate}k` */
  function BitrateToken(s: Settings): string
  {
    Template(Field(s, "bitrate")) + "k"
  }

  predicate UsesGop(s: Settings)
  {
    Field(s, "gop") != Some("auto")
  }

  predicate SetsFpsMode(s: Settings)
  {
    Field(s, "fps_mode") != Some("passthrough")
  }

  /** The options always present, in their fixed order. */
  function FixedArgs(s: Settings): seq<Arg>
  {
    [ Arg("-codec:v", "libvpx-vp9"),
      Arg("-b:v", BitrateToken(s)),
      Arg("-maxrate:v", BitrateToken(s)),
      Arg("-bufsize:v", BitrateToken(s)),
      Arg("-r", Template(Field(s, "fps"))),
      Arg("-sc_threshold", "0"),
      Arg("-pix_fmt", "yuv420p") ]
  }

  /** The fourteen fixed tokens for a bitrate token `b` and a frame rate `f`. */
  function FixedTokens(b: string, f: string): seq<string>
  {
    [ "-codec:v", "libvpx-vp9", "-b:v", b, "-maxrate:v", b, "-bufsize:v", b, "-r", f,
      "-sc_threshold", "0", "-pix_fmt", "yuv420p" ]
  }

  function GopArgs(s: Settings): seq<Arg>
  {
    if UsesGop(s) then [Arg("-g", GopFrames(s)), Arg("-keyint_min", GopFrames(s))] else []
  }

  function FpsModeArgs(s: Settings): seq<Arg>
  {
    if SetsFpsMode(s) then [Arg("-fps_mode", Template(Field(s, "fps_mode")))] else []
  }

  /** The options of the stream, as flag/value pairs in command-line order. */
  function Options(s: Settings): seq<Arg>
  {
    FixedArgs(s) + GopArgs(s) + FpsModeArgs(s)
  }

  /** What `createMapping` is specified to produce. */
  function MappingOf(s: Settings): Mapping
  {
    Mapping([], Flatten(Options(s)))
  }

  /** `createMapping`: the fixed tokens, then the GOP pair and the fps_mode pair when they apply. */
  method CreateMapping(s: Settings) returns (m: Mapping)
    ensures m == MappingOf(s)
  {
    var local := [
      "-codec:v",
      "libvpx-vp9",
      "-b:v",
      Template(Field(s, "bitrate")) + "k",
      "-maxrate:v",
      Template(Field(s, "bitrate")) + "k",
      "-bufsize:v",
      Template(Field(s, "bitrate")) + "k",
      "-r",
      Template(Field(s, "fps")),
      "-sc_threshold",
      "0",
      "-pix_fmt",
      "yuv420p"
    ];
    FlattenFixedArgs(s);
    assert local == Flatten(FixedArgs(s));

    if Field(s, "gop") != Some("auto") {
      var frames := ToFixed0(Multiply(ParseInt(Template(Field(s, "fps"))), ParseInt(Template(Field(s, "gop")))));
      local := local + ["-g", frames, "-keyint_min", frames];
    }
    FlattenGopArgs(s);
    FlattenAppend(FixedArgs(s), GopArgs(s));
    assert local == Flatten(FixedArgs(s) + GopArgs(s));

    if Field(s, "fps_mode") != Some("passthrough") {
      local := local + ["-fps_mode", Template(Field(s, "fps_mode"))];
    }
    FlattenFpsModeArgs(s);
    FlattenAppend(FixedArgs(s) + GopArgs(s), FpsModeArgs(s));

    m := Mapping([], local);
  }

  lemma {:induction false} FlattenAppend(a: seq<Arg>, b: seq<Arg>)
    ensures Flatten(a + b) == Flatten(a) + Flatten(b)
  {
    if a == [] {
      assert a + b == b;
    } else {
      assert (a + b)[1..] == a[1..] + b;
      FlattenAppend(a[1..], b);
    }
  }

  lemma {:induction false} FlattenLength(args: seq<Arg>)
    ensures |Flatten(args)| == 2 * |args|
  {
    if args != [] {
      FlattenLength(args[1..]);
    }
  }

  /** Flattening puts the i-th flag at position 2i and its value right after it. */
  lemma {:induction false} FlattenAt(args: seq<Arg>, i: nat)
    requires i < |args|
    ensures |Flatten(args)| == 2 * |args|
    ensures Flatten(args)[2 * i] == args[i].flag && Flatten(args)[2 * i + 1] == args[i].value
  {
    FlattenLength(args);
    if i > 0 {
      FlattenAt(args[1..], i - 1);
    }
  }

  lemma FlattenSingle(a: Arg)
    ensures Flatten([a]) == [a.flag, a.value]
  {
    assert [a][1..] == [];
  }

  lemma FlattenGopArgs(s: Settings)
    ensures Flatten(GopArgs(s)) == if UsesGop(s) then ["-g", GopFrames(s), "-keyint_min", GopFrames(s)] else []
  {
    var g := GopArgs(s);
    if UsesGop(s) {
      assert g == [g[0]] + [g[1]];
      FlattenAppend([g[0]], [g[1]]);
      FlattenSingle(g[0]);
      FlattenSingle(g[1]);
    }
  }

  lemma FlattenFpsModeArgs(s: Settings)
    ensures Flatten(FpsModeArgs(s)) == if SetsFpsMode(s) then ["-fps_mode", Template(Field(s, "fps_mode"))] else []
  {
    if SetsFpsMode(s) {
      FlattenSingle(FpsModeArgs(s)[0]);
    }
  }

  lemma FlattenFixedArgs(s: Settings)
    ensures Flatten(FixedArgs(s)) == FixedTokens(BitrateToken(s), Template(Field(s, "fps")))
  {
    var f := FixedArgs(s);
    assert f == [f[0]] + [f[1]] + [f[2]] + [f[3]] + [f[4]] + [f[5]] + [f[6]];
    FlattenSingle(f[0]); FlattenSingle(f[1]); FlattenSingle(f[2]); FlattenSingle(f[3]);
    FlattenSingle(f[4]); FlattenSingle(f[5]); FlattenSingle(f[6]);
    FlattenAppend([f[0]] + [f[1]] + [f[2]] + [f[3]] + [f[4]] + [f[5]], [f[6]]);
    FlattenAppend([f[0]] + [f[1]] + [f[2]] + [f[3]] + [f[4]], [f[5]]);
    FlattenAppend([f[0]] + [f[1]] + [f[2]] + [f[3]], [f[4]]);
    FlattenAppend([f[0]] + [f[1]] + [f[2]], [f[3]]);
    FlattenAppend([f[0]] + [f[1]], [f[2]]);
    FlattenAppend([f[0]], [f[1]]);
  }

  /** `global` is empty and `local` always opens with the same fourteen tokens. */
  lemma MappingPrefix(s: Settings)
    ensures MappingOf(s).global == []
    ensures var local := MappingOf(s).local;
      |local| >= 14 &&
      local[..14] == FixedTokens(BitrateToken(s), Template(Field(s, "fps")))
  {
    FlattenAppend(FixedArgs(s), GopArgs(s) + FpsModeArgs(s));
    assert Options(s) == FixedArgs(s) + (GopArgs(s) + FpsModeArgs(s));
    FlattenFixedArgs(s);
  }

  /** `local` has 14 tokens, plus 4 for the GOP pair and 2 for the fps_mode pair. */
  lemma MappingLength(s: Settings)
    ensures var n := |MappingOf(s).local|;
      && n == 14 + (if UsesGop(s) then 4 else 0) + (if SetsFpsMode(s) then 2 else 0)
      && n % 2 == 0
      && n in {14, 16, 18, 20}
  {
    FlattenLength(Options(s));
  }

  /** `local` alternates flag and value: the i-th option's flag at 2i, its value at 2i + 1. */
  lemma MappingAlternates(s: Settings, i: nat)
    requires i < |Options(s)|
    ensures |MappingOf(s).local| == 2 * |Options(s)|
    ensures MappingOf(s).local[2 * i] == Options(s)[i].flag
    ensures MappingOf(s).local[2 * i + 1] == Options(s)[i].value
  {
    FlattenAt(Options(s), i);
  }

  /** The number of options: seven fixed ones, two for the GOP, one for fps_mode. */
  lemma OptionsLength(s: Settings)
    ensures |Options(s)| == 7 + (if UsesGop(s) then 2 else 0) + (if SetsFpsMode(s) then 1 else 0)
    ensures |MappingOf(s).local| == 2 * |Options(s)|
  {
    FlattenLength(Options(s));
  }

  /** The flags `local` carries, in order. */
  function FlagsOf(args: seq<Arg>): (flags: seq<string>)
    ensures |flags| == |args|
    ensures forall i :: 0 <= i < |args| ==> flags[i] == args[i].flag
  {
    if args == [] then [] else [args[0].flag] + FlagsOf(args[1..])
  }

  lemma FlagsOfAppend(a: seq<Arg>, b: seq<Arg>)
    ensures FlagsOf(a + b) == FlagsOf(a) + FlagsOf(b)
  {
    assert forall i :: 0 <= i < |a + b| ==> FlagsOf(a + b)[i] == (FlagsOf(a) + FlagsOf(b))[i];
  }

  const FixedFlags := ["-codec:v", "-b:v", "-maxrate:v", "-bufsize:v", "-r", "-sc_threshold", "-pix_fmt"]

  lemma FlagsOfFixedArgs(s: Settings)
    ensures FlagsOf(FixedArgs(s)) == FixedFlags
  {
    var f := FlagsOf(FixedArgs(s));
    assert f[0] == FixedFlags[0] && f[1] == FixedFlags[1] && f[2] == FixedFlags[2];
    assert f[3] == FixedFlags[3] && f[4] == FixedFlags[4] && f[5] == FixedFlags[5];
    assert f[6] == FixedFlags[6];
  }

  lemma FlagsOfGopArgs(s: Settings)
    ensures FlagsOf(GopArgs(s)) == if UsesGop(s) then ["-g", "-keyint_min"] else []
  {
    if UsesGop(s) {
      var g := GopArgs(s);
      assert g[1..] == [g[1]];
      assert FlagsOf([g[1]]) == [g[1].flag];
    }
  }

  lemma FlagsOfFpsModeArgs(s: Settings)
    ensures FlagsOf(FpsModeArgs(s)) == if SetsFpsMode(s) then ["-fps_mode"] else []
  {
  }

  /**
   * The order of the flags: the seven fixed ones, then `-g` and `-keyint_min`
   * exactly when gop is not "auto", then `-fps_mode` exactly when fps_mode
   * is not "passthrough".
   */
  lemma MappingFlags(s: Settings)
    ensures FlagsOf(Options(s)) ==
      FixedFlags + (if UsesGop(s) then ["-g", "-keyint_min"] else [])
      + (if SetsFpsMode(s) then ["-fps_mode"] else [])
  {
    FlagsOfAppend(FixedArgs(s), GopArgs(s));
    FlagsOfAppend(FixedArgs(s) + GopArgs(s), FpsModeArgs(s));
    FlagsOfFixedArgs(s);
    FlagsOfGopArgs(s);
    FlagsOfFpsModeArgs(s);
  }

  /** The GOP flags occur exactly when gop is not "auto", the fps_mode flag exactly when fps_mode is not "passthrough". */
  lemma ConditionalFlags(s: Settings)
    ensures ("-g" in FlagsOf(Options(s))) <==> UsesGop(s)
    ensures ("-keyint_min" in FlagsOf(Options(s))) <==> UsesGop(s)
    ensures ("-fps_mode" in FlagsOf(Options(s))) <==> SetsFpsMode(s)
  {
    MappingFlags(s);
    var gop: seq<string> := if UsesGop(s) then ["-g", "-keyint_min"] else [];
    var mode: seq<string> := if SetsFpsMode(s) then ["-fps_mode"] else [];
    assert FlagsOf(Options(s)) == FixedFlags + gop + mode;
    assert "-g" !in FixedFlags && "-keyint_min" !in FixedFlags && "-fps_mode" !in FixedFlags;
    assert "-g" !in mode && "-keyint_min" !in mode && "-fps_mode" !in gop;
  }

  /** `local` is the fixed tokens, then the GOP tokens, then the fps_mode tokens. */
  lemma MappingSections(s: Settings)
    ensures MappingOf(s).local == Flatten(FixedArgs(s)) + Flatten(GopArgs(s)) + Flatten(FpsModeArgs(s))
    ensures |Flatten(FixedArgs(s))| == 14
  {
    FlattenAppend(FixedArgs(s), GopArgs(s));
    FlattenAppend(FixedArgs(s) + GopArgs(s), FpsModeArgs(s));
    FlattenFixedArgs(s);
  }

  /** Both GOP flags carry the same value, the printed product of the parsed fps and gop. */
  lemma GopPairValues(s: Settings)
    requires UsesGop(s)
    ensures |MappingOf(s).local| >= 18
    ensures MappingOf(s).local[14..18] == ["-g", GopFrames(s), "-keyint_min", GopFrames(s)]
  {
    MappingSections(s);
    FlattenGopArgs(s);
    var fixed := Flatten(FixedArgs(s));
    var gop := Flatten(GopArgs(s));
    var local := MappingOf(s).local;
    assert local[14..18] == (fixed + gop + Flatten(FpsModeArgs(s)))[|fixed|..|fixed| + |gop|];
  }

  /** The fps_mode pair is last; when both conditional pairs are present the GOP pair comes first. */
  lemma FpsModePairValue(s: Settings)
    requires SetsFpsMode(s)
    ensures |MappingOf(s).local| >= 16
    ensures var local := MappingOf(s).local;
      local[|local| - 2..] == ["-fps_mode", Template(Field(s, "fps_mode"))]
    ensures UsesGop(s) ==> |MappingOf(s).local| == 20 && MappingOf(s).local[14] == "-g" && MappingOf(s).local[18] == "-fps_mode"
  {
    MappingSections(s);
    FlattenGopArgs(s);
    FlattenFpsModeArgs(s);
    var local := MappingOf(s).local;
    var mode := Flatten(FpsModeArgs(s));
    assert local[|local| - 2..] == mode;
  }

  /** With whole-number settings such as "30" and "2" the GOP value is the numeral of the product. */
  lemma GopFramesOfNumerals(s: Settings, fps: int, gop: int)
    requires Field(s, "fps") == Some(IntToString(fps)) && Field(s, "gop") == Some(IntToString(gop))
    ensures GopFrames(s) == IntToString(fps * gop)
    ensures ParseInt(GopFrames(s)) == Int(fps * gop)
  {
    ToFixed0OfProduct(fps, gop);
    ParseIntOfIntToString(fps * gop);
  }

  /** A gop of "auto" parses to NaN, but the pair is left out altogether; a gop the form fills oddly prints "NaN". */
  lemma GopFramesOfWord(s: Settings)
    requires Field(s, "gop") == Some("auto") || Field(s, "fps") == Some("auto")
    ensures GopFrames(s) == "NaN"
  {
    ParseIntOfWord();
  }

  // ---------------------------------------------------------------------
  // Defaults and summary
  // ---------------------------------------------------------------------

  datatype Snapshot = Snapshot(settings: Settings, mapping: Mapping)

  /** `defaults`: the settings of `init({})` with their own mapping. */
  method Defaults() returns (d: Snapshot)
    ensures d.settings == Init(map[]) && d.settings == DefaultSettings
    ensures d.mapping == MappingOf(d.settings)
    ensures d.mapping.global == []
    ensures d.mapping.local == FixedTokens("4096k", "25") + ["-g", "50", "-keyint_min", "50"]
  {
    var settings := Init(map[]);
    InitOfEmpty();
    var mapping := CreateMapping(settings);
    d := Snapshot(settings, mapping);
    DefaultLocal();
  }

  /** With the defaults the GOP is 25 * 2 = 50 frames. */
  lemma DefaultGopFrames()
    ensures GopFrames(DefaultSettings) == "50"
  {
    InitOfEmpty();
    assert NatToString(25) == "25" && NatToString(50) == "50";
    assert IntToString(25) == "25" && IntToString(2) == "2";
    GopFramesOfNumerals(DefaultSettings, 25, 2);
  }

  lemma DefaultFields()
    ensures BitrateToken(DefaultSettings) == "4096k" && Template(Field(DefaultSettings, "fps")) == "25"
    ensures UsesGop(DefaultSettings) && !SetsFpsMode(DefaultSettings)
  {
    InitOfEmpty();
  }

  /** The whole of `local` when the GOP pair is present and the fps_mode pair is not. */
  lemma LocalWithGopOnly(s: Settings)
    requires UsesGop(s) && !SetsFpsMode(s)
    ensures MappingOf(s).local ==
      FixedTokens(BitrateToken(s), Template(Field(s, "fps"))) + ["-g", GopFrames(s), "-keyint_min", GopFrames(s)]
  {
    MappingSections(s);
    FlattenFixedArgs(s);
    FlattenGopArgs(s);
    FlattenFpsModeArgs(s);
    assert Flatten(FpsModeArgs(s)) == [];
  }

  lemma DefaultLocal()
    ensures MappingOf(DefaultSettings).local == FixedTokens("4096k", "25") + ["-g", "50", "-keyint_min", "50"]
  {
    DefaultGopFrames();
    DefaultFields();
    LocalWithGopOnly(DefaultSettings);
  }

  /** `summarize`: display name, bitrate, fps, preset and profile in a fixed template. */
  function Summarize(s: Settings): string
  {
    DisplayName + ", " + Template(Field(s, "bitrate")) + " kbit/s, " + Template(Field(s, "fps"))
    + " FPS, Preset: " + Template(Field(s, "preset")) + ", Profile: " + Template(Field(s, "profile"))
  }

  /** `init` never sets preset or profile, so the summary of the defaults shows them as "undefined". */
  lemma SummarizeDefaults()
    ensures Summarize(Init(map[])) ==
      DisplayName + ", " + "4096" + " kbit/s, " + "25" + " FPS, Preset: " + "undefined" + ", Profile: " + "undefined"
  {
    InitOfEmpty();
    var s := Init(map[]);
    assert Field(s, "preset") == None && Field(s, "profile") == None;
    assert Template(Field(s, "bitrate")) == "4096" && Template(Field(s, "fps")) == "25";
  }

  /** The summary reads only bitrate, fps, preset and profile. */
  lemma SummarizeReadsFourFields(s: Settings, t: Settings)
    requires forall k :: k in {"bitrate", "fps", "preset", "profile"} ==> Field(s, k) == Field(t, k)
    ensures Summarize(s) == Summarize(t)
  {
    assert Field(s, "bitrate") == Field(t, "bitrate");
    assert Field(s, "fps") == Field(t, "fps");
    assert Field(s, "preset") == Field(t, "preset");
    assert Field(s, "profile") == Field(t, "profile");
  }

  // ---------------------------------------------------------------------
  // The encoder form (`Coder`)
  // ---------------------------------------------------------------------

  /** What the form reports through `onChange`: the settings, their mapping, and whether no user edit caused it. */
  datatype Change = Change(settings: Settings, mapping: Mapping, automatic: bool)

  /**
   * `handleChange`: with no new settings (the initial report when the form
   * mounts) the current settings `init(props.settings)` are reported as an
   * automatic change; otherwise the given ones, as a user change.
   */
  method HandleChange(props: Settings, newSettings: Option<Settings>) returns (c: Change)
    ensures c.automatic <==> newSettings.None?
    ensures newSettings.None? ==> c.settings == Init(props)
    ensures newSettings.Some? ==> c.settings == newSettings.value
    ensures c.mapping == MappingOf(c.settings)
  {
    var settings := if newSettings.None? then Init(props) else newSettings.value;
    var automatic := newSettings.None?;
    var mapping := CreateMapping(settings);
    c := Change(settings, mapping, automatic);
  }

  /** `update(what)(event)`: the current settings with key `what` set to the control's value, reported as a user change. */
  method Update(props: Settings, what: string, value: string) returns (c: Change)
    ensures !c.automatic
    ensures Field(c.settings, what) == Some(value)
    ensures forall k :: k != what ==> Field(c.settings, k) == Field(Init(props), k)
    ensures c.mapping == MappingOf(c.settings)
  {
    var newSettings := Init(props)[what := value];
    c := HandleChange(props, Some(newSettings));
  }
}
