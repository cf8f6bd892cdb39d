/**
 * A reading of an ffmpeg command line, used as the reference meaning of the
 * argument vectors the video service builds. It covers the options those
 * vectors use: `-y` (overwrite, global), `-i` (an input file), the per-file
 * options with one value (`-f`, `-safe`, `-c:a`, `-c:v`, `-map`) and the
 * per-output flag `-shortest`. Per-file options apply to the next input or
 * output file named after them, as in ffmpeg.
 */
module FfmpegArgv {
  import opened Common

  /** A file named on the command line with the options that apply to it. */
  datatype FileSpec = FileSpec(path: string, options: seq<(string, string)>)

  /** What an ffmpeg invocation asks for. */
  datatype Invocation = Invocation(overwrite: bool, inputs: seq<FileSpec>, outputs: seq<FileSpec>)

  /** An argument ffmpeg reads as an option rather than a file name. */
  predicate IsOption(arg: string)
  {
    |arg| > 1 && arg[0] == '-'
  }

  predicate TakesValue(opt: string)
  {
    opt == "-f" || opt == "-safe" || opt == "-c:a" || opt == "-c:v" || opt == "-map"
  }

  /** Reads the arguments after the program name; `pending` holds the options seen since the last file. */
  function ParseFrom(args: seq<string>, inv: Invocation, pending: seq<(string, string)>): Option<Invocation>
    decreases |args|
  {
    if args == [] then
      if pending == [] then Some(inv) else None
    else if args[0] == "-y" then
      ParseFrom(args[1..], inv.(overwrite := true), pending)
    else if args[0] == "-i" then
      if |args| < 2 then None
      else ParseFrom(args[2..], inv.(inputs := inv.inputs + [FileSpec(args[1], pending)]), [])
    else if TakesValue(args[0]) then
      if |args| < 2 then None
      else ParseFrom(args[2..], inv, pending + [(args[0], args[1])])
    else if args[0] == "-shortest" then
      ParseFrom(args[1..], inv, pending + [("-shortest", "")])
    else if IsOption(args[0]) then
      None
    else
      ParseFrom(args[1..], inv.(outputs := inv.outputs + [FileSpec(args[0], pending)]), [])
  }

  /** The meaning of a whole argument vector; ffmpeg refuses a command with no output file. */
  function Parse(argv: seq<string>): Option<Invocation>
  {
    if argv == [] || argv[0] != "ffmpeg" then None
    else
      match ParseFrom(argv[1..], Invocation(false, [], []), [])
      case None => None
      case Some(inv) => if inv.outputs == [] then None else Some(inv)
  }

  lemma ParseOverwrite(rest: seq<string>, inv: Invocation, pending: seq<(string, string)>)
    ensures ParseFrom(["-y"] + rest, inv, pending) == ParseFrom(rest, inv.(overwrite := true), pending)
  {
    assert (["-y"] + rest)[1..] == rest;
  }

  lemma ParseInput(path: string, rest: seq<string>, inv: Invocation, pending: seq<(string, string)>)
    ensures ParseFrom(["-i", path] + rest, inv, pending)
         == ParseFrom(rest, inv.(inputs := inv.inputs + [FileSpec(path, pending)]), [])
  {
    assert (["-i", path] + rest)[2..] == rest;
  }

  lemma ParseValueOption(opt: string, value: string, rest: seq<string>, inv: Invocation, pending: seq<(string, string)>)
    requires TakesValue(opt)
    ensures ParseFrom([opt, value] + rest, inv, pending) == ParseFrom(rest, inv, pending + [(opt, value)])
  {
    assert ([opt, value] + rest)[2..] == rest;
  }

  lemma ParseShortest(rest: seq<string>, inv: Invocation, pending: seq<(string, string)>)
    ensures ParseFrom(["-shortest"] + rest, inv, pending) == ParseFrom(rest, inv, pending + [("-shortest", "")])
  {
    assert (["-shortest"] + rest)[1..] == rest;
  }

  lemma ParseOutput(path: string, inv: Invocation, pending: seq<(string, string)>)
    requires !IsOption(path)
    ensures ParseFrom([path], inv, pending)
         == Some(inv.(outputs := inv.outputs + [FileSpec(path, pending)]))
  {
    assert [path][1..] == [];
  }
}
