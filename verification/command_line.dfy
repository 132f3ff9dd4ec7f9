/** The player's argument loop: `argv[1]` is the stream URL, and every later
    argument is folded, left to right, into a configuration record. Exact flags
    switch a setting on, `--color-format=` picks the output colour format (the
    last occurrence wins), a non-option word replaces the output file name
    (the last one wins), and any other dash-option is ignored. */
module CommandLine {
  import opened Wrappers

  /** The settings `main` holds in its locals after the loop. */
  datatype Config = Config(
    url: string,
    noRecord: bool,
    noResize: bool,
    useBgr: bool,
    useNv12: bool,
    useMpp: bool,
    outputFile: string)

  /** Both errors end the process with exit code -1. */
  datatype ParseError = Usage | InvalidColorFormat(value: string)

  const DefaultOutput: string := "output.mp4"
  const ColorFormatPrefix: string := "--color-format="

  /** The settings before any option is seen: record, resize, native colour, OpenCV. */
  function Defaults(url: string): Config {
    Config(url, false, false, false, false, false, DefaultOutput)
  }

  /** `arg.find("--color-format=") == 0`: the prefix starts the argument. */
  predicate IsColorOption(arg: string) {
    ColorFormatPrefix <= arg
  }

  /** The text after the 15-character prefix. */
  function ColorValue(arg: string): string
    requires IsColorOption(arg)
  {
    arg[|ColorFormatPrefix|..]
  }

  predicate IsValidColor(value: string) {
    value == "yuv" || value == "nv12" || value == "bgr"
  }

  /** `arg[0] != '-'`; on an empty argument `arg[0]` is the terminating NUL,
      so the empty argument counts as an output file name. */
  predicate IsPositional(arg: string) {
    |arg| == 0 || arg[0] != '-'
  }

  predicate IsFlag(arg: string) {
    arg == "--no-record" || arg == "--no-resize" || arg == "--use-mpp"
  }

  /** A dash-option the loop does not recognise. */
  predicate IsIgnored(arg: string) {
    !IsFlag(arg) && !IsColorOption(arg) && !IsPositional(arg)
  }

  /** One pass of the loop body. */
  function ApplyArgument(c: Config, arg: string): (r: Result<Config, ParseError>)
    ensures r.Failure? <==> IsColorOption(arg) && !IsValidColor(ColorValue(arg))
    ensures r.Failure? ==> r.error == InvalidColorFormat(ColorValue(arg))
    ensures IsIgnored(arg) ==> r == Success(c)
    ensures r.Success? ==> r.value.url == c.url
    ensures r.Success? && !(c.useBgr && c.useNv12) ==> !(r.value.useBgr && r.value.useNv12)
  {
    if arg == "--no-record" then
      Success(c.(noRecord := true))
    else if arg == "--no-resize" then
      Success(c.(noResize := true))
    else if arg == "--use-mpp" then
      Success(c.(useMpp := true))
    else if IsColorOption(arg) then
      var format := ColorValue(arg);
      if format == "yuv" then Success(c.(useBgr := false, useNv12 := false))
      else if format == "nv12" then Success(c.(useBgr := false, useNv12 := true))
      else if format == "bgr" then Success(c.(useBgr := true, useNv12 := false))
      else Failure(InvalidColorFormat(format))
    else if IsPositional(arg) then
      Success(c.(outputFile := arg))
    else
      Success(c)
  }

  /** The loop state after the arguments `args`, in order; the first invalid
      colour format stops the loop. */
  function ParseArguments(c: Config, args: seq<string>): (r: Result<Config, ParseError>)
    decreases |args|
    ensures r.Failure? ==> r.error.InvalidColorFormat?
    ensures r.Success? ==> r.value.url == c.url
    ensures r.Success? && !(c.useBgr && c.useNv12) ==> !(r.value.useBgr && r.value.useNv12)
  {
    if |args| == 0 then
      Success(c)
    else
      match ParseArguments(c, args[..|args| - 1])
      case Failure(e) => Failure(e)
      case Success(prev) => ApplyArgument(prev, args[|args| - 1])
  }

  /** The whole of `main`'s argument handling; `argv[0]` is the program name. */
  function Parse(argv: seq<string>): (r: Result<Config, ParseError>)
    ensures |argv| < 2 <==> r == Failure(Usage)
    ensures r.Success? ==> r.value.url == argv[1]
    ensures r.Success? ==> !(r.value.useBgr && r.value.useNv12)
  {
    if |argv| < 2 then Failure(Usage)
    else ParseArguments(Defaults(argv[1]), argv[2..])
  }

  // Reference definitions: each setting stated directly over the argument list.

  /** Every `--color-format=` argument names a valid format. */
  predicate AllColorsValid(args: seq<string>) {
    forall i :: 0 <= i < |args| && IsColorOption(args[i]) ==> IsValidColor(ColorValue(args[i]))
  }

  /** The value of the last `--color-format=` argument, if any. */
  function LastColor(args: seq<string>): Option<string>
    decreases |args|
  {
    if |args| == 0 then None
    else if IsColorOption(args[|args| - 1]) then Some(ColorValue(args[|args| - 1]))
    else LastColor(args[..|args| - 1])
  }

  /** The last non-option argument, if any. */
  function LastPositional(args: seq<string>): Option<string>
    decreases |args|
  {
    if |args| == 0 then None
    else if IsPositional(args[|args| - 1]) then Some(args[|args| - 1])
    else LastPositional(args[..|args| - 1])
  }

  /** Validity of all colour formats, one argument at a time. */
  lemma AllColorsValidSnoc(init: seq<string>, a: string)
    ensures AllColorsValid(init + [a]) <==>
      AllColorsValid(init) && (IsColorOption(a) ==> IsValidColor(ColorValue(a)))
  {
    var args := init + [a];
    if AllColorsValid(init) && (IsColorOption(a) ==> IsValidColor(ColorValue(a))) {
      forall i | 0 <= i < |args| && IsColorOption(args[i])
        ensures IsValidColor(ColorValue(args[i]))
      {
        if i < |init| {
          assert args[i] == init[i];
        }
      }
    }
    if AllColorsValid(args) {
      forall i | 0 <= i < |init| && IsColorOption(init[i])
        ensures IsValidColor(ColorValue(init[i]))
      {
        assert init[i] == args[i];
      }
      assert args[|init|] == a;
    }
  }

  /** The fold fails exactly when some `--color-format=` value is invalid. */
  lemma {:induction false} ParseArgumentsSucceedsIff(c: Config, args: seq<string>)
    ensures ParseArguments(c, args).Success? <==> AllColorsValid(args)
    decreases |args|
  {
    if |args| > 0 {
      var init := args[..|args| - 1];
      var a := args[|args| - 1];
      assert args == init + [a];
      ParseArgumentsSucceedsIff(c, init);
      AllColorsValidSnoc(init, a);
    }
  }

  /** On success each flag is set iff it occurs among the arguments. */
  lemma {:induction false} ParseArgumentsFlags(c: Config, args: seq<string>)
    requires ParseArguments(c, args).Success?
    ensures var r := ParseArguments(c, args).value;
      && r.noRecord == (c.noRecord || "--no-record" in args)
      && r.noResize == (c.noResize || "--no-resize" in args)
      && r.useMpp == (c.useMpp || "--use-mpp" in args)
    decreases |args|
  {
    if |args| > 0 {
      var init := args[..|args| - 1];
      var a := args[|args| - 1];
      assert args == init + [a];
      ParseArgumentsFlags(c, init);
      assert ("--no-record" in args) == ("--no-record" in init || a == "--no-record");
      assert ("--no-resize" in args) == ("--no-resize" in init || a == "--no-resize");
      assert ("--use-mpp" in args) == ("--use-mpp" in init || a == "--use-mpp");
    }
  }

  /** On success the colour flags are those the last `--color-format=` names,
      or the initial ones when there is none. */
  lemma {:induction false} ParseArgumentsColor(c: Config, args: seq<string>)
    requires ParseArguments(c, args).Success?
    ensures var r := ParseArguments(c, args).value;
      && r.useBgr == (match LastColor(args) case None => c.useBgr case Some(v) => v == "bgr")
      && r.useNv12 == (match LastColor(args) case None => c.useNv12 case Some(v) => v == "nv12")
    decreases |args|
  {
    if |args| > 0 {
      ParseArgumentsColor(c, args[..|args| - 1]);
    }
  }

  /** On success the output file is the last non-option argument, or the
      initial one when there is none. */
  lemma {:induction false} ParseArgumentsOutput(c: Config, args: seq<string>)
    requires ParseArguments(c, args).Success?
    ensures ParseArguments(c, args).value.outputFile == LastPositional(args).GetOr(c.outputFile)
    decreases |args|
  {
    if |args| > 0 {
      ParseArgumentsOutput(c, args[..|args| - 1]);
    }
  }

  /** `Parse` in terms of the reference definitions, with the defaults filled in. */
  lemma ParseMatchesReference(argv: seq<string>)
    ensures Parse(argv).Success? <==> |argv| >= 2 && AllColorsValid(argv[2..])
    ensures var r := Parse(argv);
      r.Success? ==>
        && r.value.noRecord == ("--no-record" in argv[2..])
        && r.value.noResize == ("--no-resize" in argv[2..])
        && r.value.useMpp == ("--use-mpp" in argv[2..])
        && r.value.useBgr == (LastColor(argv[2..]) == Some("bgr"))
        && r.value.useNv12 == (LastColor(argv[2..]) == Some("nv12"))
        && r.value.outputFile == LastPositional(argv[2..]).GetOr(DefaultOutput)
  {
    if |argv| >= 2 {
      ParseArgumentsSucceedsIff(Defaults(argv[1]), argv[2..]);
      if Parse(argv).Success? {
        ParseArgumentsFlags(Defaults(argv[1]), argv[2..]);
        ParseArgumentsColor(Defaults(argv[1]), argv[2..]);
        ParseArgumentsOutput(Defaults(argv[1]), argv[2..]);
      }
    }
  }

  /** A `--color-format=` value is accepted exactly when it is `yuv`, `nv12` or `bgr`. */
  lemma ColorFormatAcceptedIff(program: string, url: string, value: string)
    ensures Parse([program, url, ColorFormatPrefix + value]).Success? <==> IsValidColor(value)
    ensures Parse([program, url, ColorFormatPrefix + value]).Failure? ==>
      Parse([program, url, ColorFormatPrefix + value]).error == InvalidColorFormat(value)
  {
    var arg := ColorFormatPrefix + value;
    assert IsColorOption(arg);
    assert ColorValue(arg) == value;
    assert |arg| >= 15;
    assert !IsFlag(arg);
    var argv := [program, url, arg];
    assert argv[2..] == [arg];
    assert [arg][..0] == [];
    assert ParseArguments(Defaults(url), [arg]) == ApplyArgument(Defaults(url), arg);
  }

  /** Removing an unrecognised dash-option, wherever it stands, changes nothing. */
  lemma {:induction false} IgnoredOptionChangesNothing(c: Config, before: seq<string>, arg: string, after: seq<string>)
    requires IsIgnored(arg)
    ensures ParseArguments(c, before + [arg] + after) == ParseArguments(c, before + after)
    decreases |after|
  {
    if |after| == 0 {
      assert before + [arg] + after == before + [arg];
      assert (before + [arg])[..|before|] == before;
      assert before + after == before;
    } else {
      var init := after[..|after| - 1];
      var last := after[|after| - 1];
      IgnoredOptionChangesNothing(c, before, arg, init);
      var long := before + [arg] + after;
      var short := before + after;
      assert long[..|long| - 1] == before + [arg] + init;
      assert long[|long| - 1] == last;
      assert short[..|short| - 1] == before + init;
      assert short[|short| - 1] == last;
    }
  }
}
