/**
 * The command line: the first argument picks `help`, `generate` or `analyze`,
 * the second names the file to work on, and the options after it are read by
 * a loop that moves its index one or two arguments at a time.
 */
module Cli {
  import opened Wrappers

  /** The options of `generate`: no output or template override, verbose. */
  datatype GenerateOptions = GenerateOptions(output: Option<string>, template: Option<string>, verbose: bool)

  const GenerateDefaults: GenerateOptions := GenerateOptions(None, None, true)

  /** The options of `analyze`. */
  datatype AnalyzeOptions = AnalyzeOptions(layout: string, listOnly: bool)

  const AnalyzeDefaultLayout: string := "VideoLayout"
  const AnalyzeDefaults: AnalyzeOptions := AnalyzeOptions(AnalyzeDefaultLayout, false)

  /** The command `parse_args` dispatches to, with the arguments it passes. */
  datatype Command =
    | Help
    | Generate(configPath: string, generateOptions: GenerateOptions)
    | Analyze(templatePath: string, analyzeOptions: AnalyzeOptions)

  /** What `parse_args` decides: a command to run, or a usage error it reports itself. */
  datatype Invocation =
    | Dispatch(command: Command)
    | MissingArgument(commandName: string)
    | UnknownCommand(commandName: string)

  predicate IsHelpWord(s: string)
  {
    s == "help" || s == "--help" || s == "-h"
  }

  predicate IsOutputFlag(s: string) { s == "-o" || s == "--output" }
  predicate IsTemplateFlag(s: string) { s == "-t" || s == "--template" }
  predicate IsQuietFlag(s: string) { s == "-q" || s == "--quiet" }
  predicate IsLayoutFlag(s: string) { s == "-l" || s == "--layout" }

  /** The `generate` option loop from position `i` on, starting from options `o`. */
  function ScanGenerate(args: seq<string>, i: nat, o: GenerateOptions): GenerateOptions
    decreases |args| - i
  {
    if i >= |args| then o
    else if IsOutputFlag(args[i]) && i + 1 < |args| then ScanGenerate(args, i + 2, o.(output := Some(args[i + 1])))
    else if IsTemplateFlag(args[i]) && i + 1 < |args| then ScanGenerate(args, i + 2, o.(template := Some(args[i + 1])))
    else if IsQuietFlag(args[i]) then ScanGenerate(args, i + 1, o.(verbose := false))
    else ScanGenerate(args, i + 1, o)
  }

  /** The `analyze` option loop from position `i` on, starting from options `o`. */
  function ScanAnalyze(args: seq<string>, i: nat, o: AnalyzeOptions): AnalyzeOptions
    decreases |args| - i
  {
    if i >= |args| then o
    else if IsLayoutFlag(args[i]) && i + 1 < |args| then ScanAnalyze(args, i + 2, o.(layout := args[i + 1]))
    else if args[i] == "--list" then ScanAnalyze(args, i + 1, o.(listOnly := true))
    else ScanAnalyze(args, i + 1, o)
  }

  /** `parse_args` as a decision: help first, then the command and its required argument, then the options. */
  function Parse(args: seq<string>): (r: Invocation)
    ensures r == Dispatch(Help) <==> args == [] || IsHelpWord(args[0])
    ensures r.MissingArgument? <==> |args| == 1 && (args[0] == "generate" || args[0] == "analyze")
    ensures r.UnknownCommand? <==>
              args != [] && !IsHelpWord(args[0]) && args[0] != "generate" && args[0] != "analyze"
    ensures r.Dispatch? && r.command.Generate? ==> |args| >= 2 && args[0] == "generate" && r.command.configPath == args[1]
    ensures r.Dispatch? && r.command.Analyze? ==> |args| >= 2 && args[0] == "analyze" && r.command.templatePath == args[1]
  {
    if args == [] || IsHelpWord(args[0]) then Dispatch(Help)
    else if args[0] == "generate" then
      if |args| < 2 then MissingArgument(args[0])
      else Dispatch(Generate(args[1], ScanGenerate(args, 2, GenerateDefaults)))
    else if args[0] == "analyze" then
      if |args| < 2 then MissingArgument(args[0])
      else Dispatch(Analyze(args[1], ScanAnalyze(args, 2, AnalyzeDefaults)))
    else UnknownCommand(args[0])
  }

  /** The exit code `parse_args` returns itself; a dispatched command's own code is its command's. */
  function ExitCode(r: Invocation): (code: Option<nat>)
    ensures r == Dispatch(Help) ==> code == Some(0)
    ensures r.MissingArgument? || r.UnknownCommand? ==> code == Some(1)
  {
    match r
    case Dispatch(Help) => Some(0)
    case Dispatch(_) => None
    case _ => Some(1)
  }

  /** `parse_args`, with its two option loops. */
  method ParseArgs(args: seq<string>) returns (r: Invocation)
    ensures r == Parse(args)
  {
    if |args| == 0 || IsHelpWord(args[0]) {
      return Dispatch(Help);
    }
    var command := args[0];
    if command == "generate" {
      if |args| < 2 {
        return MissingArgument(command);
      }
      var configPath := args[1];
      var output: Option<string> := None;
      var template: Option<string> := None;
      var verbose := true;
      var i := 2;
      while i < |args|
        invariant 2 <= i
        invariant ScanGenerate(args, i, GenerateOptions(output, template, verbose))
                  == ScanGenerate(args, 2, GenerateDefaults)
        decreases |args| - i
      {
        if IsOutputFlag(args[i]) && i + 1 < |args| {
          output := Some(args[i + 1]);
          i := i + 2;
        } else if IsTemplateFlag(args[i]) && i + 1 < |args| {
          template := Some(args[i + 1]);
          i := i + 2;
        } else if IsQuietFlag(args[i]) {
          verbose := false;
          i := i + 1;
        } else {
          i := i + 1;
        }
      }
      return Dispatch(Generate(configPath, GenerateOptions(output, template, verbose)));
    } else if command == "analyze" {
      if |args| < 2 {
        return MissingArgument(command);
      }
      var templatePath := args[1];
      var layout := AnalyzeDefaultLayout;
      var listOnly := false;
      var i := 2;
      while i < |args|
        invariant 2 <= i
        invariant ScanAnalyze(args, i, AnalyzeOptions(layout, listOnly)) == ScanAnalyze(args, 2, AnalyzeDefaults)
        decreases |args| - i
      {
        if IsLayoutFlag(args[i]) && i + 1 < |args| {
          layout := args[i + 1];
          i := i + 2;
        } else if args[i] == "--list" {
          listOnly := true;
          i := i + 1;
        } else {
          i := i + 1;
        }
      }
      return Dispatch(Analyze(templatePath, AnalyzeOptions(layout, listOnly)));
    } else {
      return UnknownCommand(command);
    }
  }

  /** One `generate` option as written on the command line; a stray token is any non-option word. */
  datatype GenerateFlag =
    | OutputFlag(longForm: bool, value: string)
    | TemplateFlag(longForm: bool, value: string)
    | QuietFlag(longForm: bool)
    | Stray(token: string)

  predicate IsGenerateOption(s: string)
  {
    IsOutputFlag(s) || IsTemplateFlag(s) || IsQuietFlag(s)
  }

  predicate WellWritten(flags: seq<GenerateFlag>)
  {
    forall k | 0 <= k < |flags| :: flags[k].Stray? ==> !IsGenerateOption(flags[k].token)
  }

  function RenderFlag(f: GenerateFlag): (words: seq<string>)
    ensures 1 <= |words| <= 2
  {
    match f
    case OutputFlag(long, v) => [if long then "--output" else "-o", v]
    case TemplateFlag(long, v) => [if long then "--template" else "-t", v]
    case QuietFlag(long) => [if long then "--quiet" else "-q"]
    case Stray(t) => [t]
  }

  function Render(flags: seq<GenerateFlag>): seq<string>
  {
    if flags == [] then [] else RenderFlag(flags[0]) + Render(flags[1..])
  }

  /** The effect of one option: a value replaces the earlier one, quiet turns verbose off, strays do nothing. */
  function ApplyFlag(f: GenerateFlag, o: GenerateOptions): GenerateOptions
  {
    match f
    case OutputFlag(_, v) => o.(output := Some(v))
    case TemplateFlag(_, v) => o.(template := Some(v))
    case QuietFlag(_) => o.(verbose := false)
    case Stray(_) => o
  }

  function Apply(flags: seq<GenerateFlag>, o: GenerateOptions): GenerateOptions
  {
    if flags == [] then o else Apply(flags[1..], ApplyFlag(flags[0], o))
  }

  /** The option loop reads a written option list as the options applied left to right. */
  lemma {:induction false} ScanRendered(prefix: seq<string>, flags: seq<GenerateFlag>, suffix: seq<string>, o: GenerateOptions)
    requires WellWritten(flags)
    ensures ScanGenerate(prefix + Render(flags) + suffix, |prefix|, o)
            == ScanGenerate(prefix + Render(flags) + suffix, |prefix| + |Render(flags)|, Apply(flags, o))
    decreases |flags|
  {
    if flags != [] {
      var first := RenderFlag(flags[0]);
      var prefix' := prefix + first;
      assert prefix + Render(flags) + suffix == prefix' + Render(flags[1..]) + suffix;
      assert WellWritten(flags[1..]) by {
        forall k | 0 <= k < |flags[1..]| ensures flags[1..][k].Stray? ==> !IsGenerateOption(flags[1..][k].token) {
          assert flags[1..][k] == flags[k + 1];
        }
      }
      assert flags[0].Stray? ==> !IsGenerateOption(flags[0].token);
      var args := prefix + Render(flags) + suffix;
      assert args[|prefix|] == first[0];
      assert |first| == 2 ==> args[|prefix| + 1] == first[1];
      ScanRendered(prefix', flags[1..], suffix, ApplyFlag(flags[0], o));
    } else {
      assert Render(flags) == [];
    }
  }

  /** Applying two option lists one after the other. */
  lemma {:induction false} ApplyAppend(a: seq<GenerateFlag>, b: seq<GenerateFlag>, o: GenerateOptions)
    ensures Apply(a + b, o) == Apply(b, Apply(a, o))
    decreases |a|
  {
    if a != [] {
      assert (a + b)[1..] == a[1..] + b;
      ApplyAppend(a[1..], b, ApplyFlag(a[0], o));
    } else {
      assert a + b == b;
    }
  }

  /**
   * `generate` with a written option list: the last `-o`/`--output` and the last
   * `-t`/`--template` win, and one `-q`/`--quiet` anywhere turns verbose off.
   */
  lemma GenerateReadsOptions(config: string, flags: seq<GenerateFlag>, v: string, long: bool)
    requires WellWritten(flags)
    ensures Parse(["generate", config] + Render(flags)) == Dispatch(Generate(config, Apply(flags, GenerateDefaults)))
    ensures Apply(flags + [OutputFlag(long, v)], GenerateDefaults).output == Some(v)
    ensures Apply(flags + [TemplateFlag(long, v)], GenerateDefaults).template == Some(v)
    ensures Apply(flags + [QuietFlag(long)], GenerateDefaults).verbose == false
  {
    ScanRendered(["generate", config], flags, [], GenerateDefaults);
    assert ["generate", config] + Render(flags) + [] == ["generate", config] + Render(flags);
    ApplyAppend(flags, [OutputFlag(long, v)], GenerateDefaults);
    ApplyAppend(flags, [TemplateFlag(long, v)], GenerateDefaults);
    ApplyAppend(flags, [QuietFlag(long)], GenerateDefaults);
  }

  /** An option flag left without a value at the end is skipped and changes nothing. */
  lemma TrailingFlagSkipped(config: string, flags: seq<GenerateFlag>, flag: string)
    requires WellWritten(flags) && (IsOutputFlag(flag) || IsTemplateFlag(flag))
    ensures Parse(["generate", config] + Render(flags) + [flag]) == Dispatch(Generate(config, Apply(flags, GenerateDefaults)))
  {
    ScanRendered(["generate", config], flags, [flag], GenerateDefaults);
  }

  /** Once `-q`/`--quiet` has been read, no later option turns verbose back on. */
  lemma {:induction false} VerboseStaysOff(flags: seq<GenerateFlag>, o: GenerateOptions)
    requires !o.verbose
    ensures !Apply(flags, o).verbose
    decreases |flags|
  {
    if flags != [] {
      VerboseStaysOff(flags[1..], ApplyFlag(flags[0], o));
    }
  }

  predicate HasNoOutputFlag(flags: seq<GenerateFlag>)
  {
    forall k | 0 <= k < |flags| :: !flags[k].OutputFlag?
  }

  predicate HasNoTemplateFlag(flags: seq<GenerateFlag>)
  {
    forall k | 0 <= k < |flags| :: !flags[k].TemplateFlag?
  }

  /** Options without `-o`/`--output` leave the output path as it was. */
  lemma {:induction false} NoOutputFlagKeepsOutput(flags: seq<GenerateFlag>, o: GenerateOptions)
    requires HasNoOutputFlag(flags)
    ensures Apply(flags, o).output == o.output
    decreases |flags|
  {
    if flags != [] {
      assert !flags[0].OutputFlag?;
      assert HasNoOutputFlag(flags[1..]) by {
        forall k | 0 <= k < |flags[1..]| ensures !flags[1..][k].OutputFlag? {
          assert flags[1..][k] == flags[k + 1];
        }
      }
      NoOutputFlagKeepsOutput(flags[1..], ApplyFlag(flags[0], o));
    }
  }

  /** Options without `-t`/`--template` leave the template path as it was. */
  lemma {:induction false} NoTemplateFlagKeepsTemplate(flags: seq<GenerateFlag>, o: GenerateOptions)
    requires HasNoTemplateFlag(flags)
    ensures Apply(flags, o).template == o.template
    decreases |flags|
  {
    if flags != [] {
      assert !flags[0].TemplateFlag?;
      assert HasNoTemplateFlag(flags[1..]) by {
        forall k | 0 <= k < |flags[1..]| ensures !flags[1..][k].TemplateFlag? {
          assert flags[1..][k] == flags[k + 1];
        }
      }
      NoTemplateFlagKeepsTemplate(flags[1..], ApplyFlag(flags[0], o));
    }
  }

  /**
   * Wherever they stand in the list: the last `-o`/`--output` and the last `-t`/`--template`
   * give the paths, and one `-q`/`--quiet` turns verbose off; without an output or template
   * flag the defaults stay.
   */
  lemma GenerateLastWins(before: seq<GenerateFlag>, long: bool, v: string, rest: seq<GenerateFlag>)
    ensures HasNoOutputFlag(rest) ==> Apply(before + [OutputFlag(long, v)] + rest, GenerateDefaults).output == Some(v)
    ensures HasNoTemplateFlag(rest) ==> Apply(before + [TemplateFlag(long, v)] + rest, GenerateDefaults).template == Some(v)
    ensures !Apply(before + [QuietFlag(long)] + rest, GenerateDefaults).verbose
    ensures HasNoOutputFlag(rest) ==> Apply(rest, GenerateDefaults).output == None
    ensures HasNoTemplateFlag(rest) ==> Apply(rest, GenerateDefaults).template == None
  {
    var d := GenerateDefaults;
    ApplyAppend(before + [OutputFlag(long, v)], rest, d);
    ApplyAppend(before, [OutputFlag(long, v)], d);
    ApplyAppend(before + [TemplateFlag(long, v)], rest, d);
    ApplyAppend(before, [TemplateFlag(long, v)], d);
    ApplyAppend(before + [QuietFlag(long)], rest, d);
    ApplyAppend(before, [QuietFlag(long)], d);
    if HasNoOutputFlag(rest) {
      NoOutputFlagKeepsOutput(rest, Apply(before + [OutputFlag(long, v)], d));
      NoOutputFlagKeepsOutput(rest, d);
    }
    if HasNoTemplateFlag(rest) {
      NoTemplateFlagKeepsTemplate(rest, Apply(before + [TemplateFlag(long, v)], d));
      NoTemplateFlagKeepsTemplate(rest, d);
    }
    VerboseStaysOff(rest, Apply(before + [QuietFlag(long)], d));
  }

  /** One `analyze` option as written on the command line; another word is any non-option word. */
  datatype AnalyzeFlag =
    | LayoutOption(longForm: bool, value: string)
    | ListOption
    | OtherWord(word: string)

  predicate IsAnalyzeOption(s: string)
  {
    IsLayoutFlag(s) || s == "--list"
  }

  predicate AnalyzeWellWritten(flags: seq<AnalyzeFlag>)
  {
    forall k | 0 <= k < |flags| :: flags[k].OtherWord? ==> !IsAnalyzeOption(flags[k].word)
  }

  function RenderAnalyzeFlag(f: AnalyzeFlag): (words: seq<string>)
    ensures 1 <= |words| <= 2
  {
    match f
    case LayoutOption(long, v) => [if long then "--layout" else "-l", v]
    case ListOption => ["--list"]
    case OtherWord(w) => [w]
  }

  function RenderAnalyze(flags: seq<AnalyzeFlag>): seq<string>
  {
    if flags == [] then [] else RenderAnalyzeFlag(flags[0]) + RenderAnalyze(flags[1..])
  }

  /** The effect of one option: a layout replaces the earlier one, `--list` asks for the list only. */
  function ApplyAnalyzeFlag(f: AnalyzeFlag, o: AnalyzeOptions): AnalyzeOptions
  {
    match f
    case LayoutOption(_, v) => o.(layout := v)
    case ListOption => o.(listOnly := true)
    case OtherWord(_) => o
  }

  function ApplyAnalyze(flags: seq<AnalyzeFlag>, o: AnalyzeOptions): AnalyzeOptions
  {
    if flags == [] then o else ApplyAnalyze(flags[1..], ApplyAnalyzeFlag(flags[0], o))
  }

  /** The `analyze` option loop reads a written option list as the options applied left to right. */
  lemma {:induction false} ScanAnalyzeRendered(prefix: seq<string>, flags: seq<AnalyzeFlag>, suffix: seq<string>,
                                               o: AnalyzeOptions)
    requires AnalyzeWellWritten(flags)
    ensures ScanAnalyze(prefix + RenderAnalyze(flags) + suffix, |prefix|, o)
            == ScanAnalyze(prefix + RenderAnalyze(flags) + suffix, |prefix| + |RenderAnalyze(flags)|, ApplyAnalyze(flags, o))
    decreases |flags|
  {
    if flags != [] {
      var first := RenderAnalyzeFlag(flags[0]);
      var prefix' := prefix + first;
      assert prefix + RenderAnalyze(flags) + suffix == prefix' + RenderAnalyze(flags[1..]) + suffix;
      assert AnalyzeWellWritten(flags[1..]) by {
        forall k | 0 <= k < |flags[1..]| ensures flags[1..][k].OtherWord? ==> !IsAnalyzeOption(flags[1..][k].word) {
          assert flags[1..][k] == flags[k + 1];
        }
      }
      assert flags[0].OtherWord? ==> !IsAnalyzeOption(flags[0].word);
      var args := prefix + RenderAnalyze(flags) + suffix;
      assert args[|prefix|] == first[0];
      match flags[0] {
        case LayoutOption(_, v) =>
          assert args[|prefix| + 1] == v;
          assert ScanAnalyze(args, |prefix|, o) == ScanAnalyze(args, |prefix'|, o.(layout := v));
        case ListOption =>
          assert ScanAnalyze(args, |prefix|, o) == ScanAnalyze(args, |prefix'|, o.(listOnly := true));
        case OtherWord(_) =>
          assert ScanAnalyze(args, |prefix|, o) == ScanAnalyze(args, |prefix'|, o);
      }
      ScanAnalyzeRendered(prefix', flags[1..], suffix, ApplyAnalyzeFlag(flags[0], o));
    } else {
      assert RenderAnalyze(flags) == [];
    }
  }

  /** Applying two `analyze` option lists one after the other. */
  lemma {:induction false} ApplyAnalyzeAppend(a: seq<AnalyzeFlag>, b: seq<AnalyzeFlag>, o: AnalyzeOptions)
    ensures ApplyAnalyze(a + b, o) == ApplyAnalyze(b, ApplyAnalyze(a, o))
    decreases |a|
  {
    if a != [] {
      assert (a + b)[1..] == a[1..] + b;
      ApplyAnalyzeAppend(a[1..], b, ApplyAnalyzeFlag(a[0], o));
    } else {
      assert a + b == b;
    }
  }

  /**
   * `analyze` with a written option list: the last `-l`/`--layout` wins, one
   * `--list` anywhere asks for the list only, and other words change nothing.
   */
  lemma AnalyzeReadsOptions(template: string, flags: seq<AnalyzeFlag>, v: string, long: bool, w: string)
    requires AnalyzeWellWritten(flags) && !IsAnalyzeOption(w)
    ensures Parse(["analyze", template] + RenderAnalyze(flags))
            == Dispatch(Analyze(template, ApplyAnalyze(flags, AnalyzeDefaults)))
    ensures ApplyAnalyze(flags + [LayoutOption(long, v)], AnalyzeDefaults).layout == v
    ensures ApplyAnalyze(flags + [ListOption], AnalyzeDefaults).listOnly
    ensures ApplyAnalyze(flags + [OtherWord(w)], AnalyzeDefaults) == ApplyAnalyze(flags, AnalyzeDefaults)
  {
    ScanAnalyzeRendered(["analyze", template], flags, [], AnalyzeDefaults);
    assert ["analyze", template] + RenderAnalyze(flags) + [] == ["analyze", template] + RenderAnalyze(flags);
    ApplyAnalyzeAppend(flags, [LayoutOption(long, v)], AnalyzeDefaults);
    ApplyAnalyzeAppend(flags, [ListOption], AnalyzeDefaults);
    ApplyAnalyzeAppend(flags, [OtherWord(w)], AnalyzeDefaults);
  }

  /** Once `--list` has been read, no later option undoes it. */
  lemma {:induction false} ListOnlyStays(flags: seq<AnalyzeFlag>, o: AnalyzeOptions)
    requires o.listOnly
    ensures ApplyAnalyze(flags, o).listOnly
    decreases |flags|
  {
    if flags != [] {
      ListOnlyStays(flags[1..], ApplyAnalyzeFlag(flags[0], o));
    }
  }

  predicate HasNoLayoutOption(flags: seq<AnalyzeFlag>)
  {
    forall k | 0 <= k < |flags| :: !flags[k].LayoutOption?
  }

  /** Options without `-l`/`--layout` leave the layout as it was. */
  lemma {:induction false} NoLayoutOptionKeepsLayout(flags: seq<AnalyzeFlag>, o: AnalyzeOptions)
    requires HasNoLayoutOption(flags)
    ensures ApplyAnalyze(flags, o).layout == o.layout
    decreases |flags|
  {
    if flags != [] {
      assert !flags[0].LayoutOption?;
      assert HasNoLayoutOption(flags[1..]) by {
        forall k | 0 <= k < |flags[1..]| ensures !flags[1..][k].LayoutOption? {
          assert flags[1..][k] == flags[k + 1];
        }
      }
      NoLayoutOptionKeepsLayout(flags[1..], ApplyAnalyzeFlag(flags[0], o));
    }
  }

  /**
   * Wherever they stand in the list: the last `-l`/`--layout` gives the layout and one
   * `--list` asks for the list only; without a layout option the default layout stays.
   */
  lemma AnalyzeLastWins(before: seq<AnalyzeFlag>, long: bool, v: string, rest: seq<AnalyzeFlag>)
    ensures HasNoLayoutOption(rest) ==> ApplyAnalyze(before + [LayoutOption(long, v)] + rest, AnalyzeDefaults).layout == v
    ensures ApplyAnalyze(before + [ListOption] + rest, AnalyzeDefaults).listOnly
    ensures HasNoLayoutOption(rest) ==> ApplyAnalyze(rest, AnalyzeDefaults).layout == AnalyzeDefaultLayout
  {
    var d := AnalyzeDefaults;
    ApplyAnalyzeAppend(before + [LayoutOption(long, v)], rest, d);
    ApplyAnalyzeAppend(before, [LayoutOption(long, v)], d);
    ApplyAnalyzeAppend(before + [ListOption], rest, d);
    ApplyAnalyzeAppend(before, [ListOption], d);
    if HasNoLayoutOption(rest) {
      NoLayoutOptionKeepsLayout(rest, ApplyAnalyze(before + [LayoutOption(long, v)], d));
      NoLayoutOptionKeepsLayout(rest, d);
    }
    ListOnlyStays(rest, ApplyAnalyze(before + [ListOption], d));
  }

  /** A `-l`/`--layout` left without a value at the end is skipped and changes nothing. */
  lemma AnalyzeTrailingFlagSkipped(template: string, flags: seq<AnalyzeFlag>, flag: string)
    requires AnalyzeWellWritten(flags) && IsLayoutFlag(flag)
    ensures Parse(["analyze", template] + RenderAnalyze(flags) + [flag])
            == Dispatch(Analyze(template, ApplyAnalyze(flags, AnalyzeDefaults)))
  {
    ScanAnalyzeRendered(["analyze", template], flags, [flag], AnalyzeDefaults);
  }

  /** `analyze`: a layout flag's value replaces the default, `--list` asks for the list only, anything else is skipped. */
  lemma AnalyzeExamples()
    ensures Parse(["analyze", "t.pptx"]) == Dispatch(Analyze("t.pptx", AnalyzeOptions("VideoLayout", false)))
    ensures Parse(["analyze", "t.pptx", "-l", "A", "--layout", "B", "--list"])
            == Dispatch(Analyze("t.pptx", AnalyzeOptions("B", true)))
    ensures Parse(["analyze", "t.pptx", "-x", "--layout"]) == Dispatch(Analyze("t.pptx", AnalyzeOptions("VideoLayout", false)))
  {
  }
}
