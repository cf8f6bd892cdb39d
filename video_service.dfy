/**
 * The FFmpeg video service: the concat manifest written before stitching,
 * the argument vectors of the two ffmpeg invocations, and the order in which
 * the manifest is written, the process run and the manifest removed.
 *
 * The operating system is the `Host` object: the files the service has
 * written, every argument vector handed to `subprocess.run` together with
 * the files that process found, and the exit status the external process
 * gives for an argument vector.
 */
module Video {
  import opened Common
  import opened FfmpegArgv

  const ConcatListName := "concat_list.txt"
  const DefaultUploadsPath := "/app/uploads"

  /** `str(Path(dir) / name)` for a plain directory name. */
  function JoinPath(dir: string, name: string): string
  {
    if dir == "" || dir == "." then name
    else if dir[|dir| - 1] == '/' then dir + name
    else dir + "/" + name
  }

  /** One manifest line, `file '<path>'` and a newline; the path is not escaped. */
  function ManifestLine(path: string): string
  {
    "file '" + path + "'\n"
  }

  /** The concat manifest for the clips, in order. */
  function Manifest(paths: seq<string>): string
  {
    if paths == [] then "" else ManifestLine(paths[0]) + Manifest(paths[1..])
  }

  lemma {:induction false} ManifestConcat(a: seq<string>, b: seq<string>)
    ensures Manifest(a + b) == Manifest(a) + Manifest(b)
    decreases |a|
  {
    if a == [] {
      assert a + b == b;
    } else {
      assert (a + b)[1..] == a[1..] + b;
      ManifestConcat(a[1..], b);
    }
  }

  /** The manifest grows by exactly one line per clip. */
  lemma ManifestAppend(paths: seq<string>, path: string)
    ensures Manifest(paths + [path]) == Manifest(paths) + ManifestLine(path)
  {
    ManifestConcat(paths, [path]);
    assert [path][1..] == [];
  }

  /** The k-th clip's line sits between the lines of the clips before and after it. */
  lemma ManifestLineAt(paths: seq<string>, k: nat)
    requires k < |paths|
    ensures Manifest(paths) == Manifest(paths[..k]) + ManifestLine(paths[k]) + Manifest(paths[k + 1..])
  {
    var rest := paths[k..];
    assert paths[..k] + rest == paths;
    ManifestConcat(paths[..k], rest);
    assert rest[0] == paths[k] && rest[1..] == paths[k + 1..];
  }

  function CountNewlines(s: string): nat
  {
    if s == [] then 0 else (if s[0] == '\n' then 1 else 0) + CountNewlines(s[1..])
  }

  lemma {:induction false} CountNewlinesConcat(a: string, b: string)
    ensures CountNewlines(a + b) == CountNewlines(a) + CountNewlines(b)
    decreases |a|
  {
    if a == [] {
      assert a + b == b;
    } else {
      assert (a + b)[1..] == a[1..] + b;
      CountNewlinesConcat(a[1..], b);
    }
  }

  lemma {:induction false} CountNewlinesNone(s: string)
    requires '\n' !in s
    ensures CountNewlines(s) == 0
    decreases |s|
  {
    if s != [] {
      assert '\n' !in s[1..];
      CountNewlinesNone(s[1..]);
    }
  }

  /** When no path holds a newline, the manifest has exactly one line per clip. */
  lemma {:induction false} ManifestLineCount(paths: seq<string>)
    requires forall i :: 0 <= i < |paths| ==> '\n' !in paths[i]
    ensures CountNewlines(Manifest(paths)) == |paths|
    decreases |paths|
  {
    if paths != [] {
      var p := paths[0];
      assert ManifestLine(p) == ("file '" + p + "'") + "\n";
      CountNewlinesConcat(ManifestLine(p), Manifest(paths[1..]));
      CountNewlinesConcat("file '" + p + "'", "\n");
      CountNewlinesConcat("file '", p);
      CountNewlinesConcat("file '" + p, "'");
      CountNewlinesNone(p);
      ManifestLineCount(paths[1..]);
    }
  }

  /** The position of the first newline, if any. */
  function IndexOfNewline(s: string): (r: Option<nat>)
    ensures r.Some? ==> r.value < |s| && s[r.value] == '\n' && '\n' !in s[..r.value]
    ensures r.None? ==> '\n' !in s
  {
    if s == [] then None
    else if s[0] == '\n' then Some(0)
    else
      match IndexOfNewline(s[1..])
      case None => None
      case Some(k) => assert s[..k + 1] == [s[0]] + s[1..][..k]; Some(k + 1)
  }

  /** Reads a manifest back into its clip paths; `None` for text that is not a manifest. */
  function ParseManifest(text: string): Option<seq<string>>
    decreases |text|
  {
    if text == [] then Some([])
    else
      match IndexOfNewline(text)
      case None => None
      case Some(j) =>
        var line := text[..j];
        if |line| >= 7 && line[..6] == "file '" && line[|line| - 1] == '\'' then
          match ParseManifest(text[j + 1..])
          case None => None
          case Some(rest) => Some([line[6..|line| - 1]] + rest)
        else None
  }

  lemma {:induction false} IndexOfNewlineAfter(a: string, b: string)
    requires '\n' !in a
    ensures IndexOfNewline(a + "\n" + b) == Some(|a|)
    decreases |a|
  {
    if a != [] {
      assert a[0] in a;
      assert (a + "\n" + b)[1..] == a[1..] + "\n" + b;
      IndexOfNewlineAfter(a[1..], b);
    }
  }

  /** Reading the manifest back yields the clips in order: one line per clip, none lost or added. */
  lemma {:induction false} ManifestRoundTrip(paths: seq<string>)
    requires forall i :: 0 <= i < |paths| ==> '\n' !in paths[i]
    ensures ParseManifest(Manifest(paths)) == Some(paths)
    decreases |paths|
  {
    if paths != [] {
      var p := paths[0];
      var body := "file '" + p + "'";
      var rest := Manifest(paths[1..]);
      assert Manifest(paths) == body + "\n" + rest;
      assert '\n' !in body by {
        assert '\n' !in p;
        forall i | 0 <= i < |body| ensures body[i] != '\n' {
          if 6 <= i < 6 + |p| { assert body[i] == p[i - 6]; }
        }
      }
      IndexOfNewlineAfter(body, rest);
      var text := body + "\n" + rest;
      assert text[..|body|] == body;
      assert text[|body| + 1..] == rest;
      assert body[..6] == "file '";
      assert body[6..|body| - 1] == p;
      assert forall i :: 0 <= i < |paths[1..]| ==> '\n' !in paths[1..][i];
      ManifestRoundTrip(paths[1..]);
      assert [p] + paths[1..] == paths;
    }
  }

  /** Python truthiness of the optional audio path: `None` and `""` both mean no audio. */
  predicate HasAudio(audio: Option<string>)
  {
    audio.Some? && audio.value != ""
  }

  /** The audio part of the stitch command. */
  function AudioArgs(audio: Option<string>): seq<string>
  {
    if HasAudio(audio) then ["-i", audio.value, "-c:a", "aac", "-shortest"] else ["-c:a", "copy"]
  }

  /** The ffmpeg argument vector of `stitch_videos`. */
  function StitchArgv(listFile: string, audio: Option<string>, output: string): seq<string>
  {
    ["ffmpeg", "-y", "-f", "concat", "-safe", "0", "-i", listFile] + AudioArgs(audio) + ["-c:v", "copy", output]
  }

  /** The ffmpeg argument vector of `add_audio_to_video`. */
  function AddAudioArgv(video: string, audio: string, output: string): seq<string>
  {
    ["ffmpeg", "-y", "-i", video, "-i", audio, "-c:v", "copy", "-c:a", "aac",
     "-map", "0:v:0", "-map", "1:a:0", "-shortest", output]
  }

  /** The inputs of the stitch command: the manifest, then the audio track when there is one. */
  function StitchInputs(listFile: string, audio: Option<string>): seq<FileSpec>
  {
    [FileSpec(listFile, [("-f", "concat"), ("-safe", "0")])]
      + (if HasAudio(audio) then [FileSpec(audio.value, [])] else [])
  }

  /** The options of the stitch output: audio re-encoded and cut to the shorter stream, or copied. */
  function StitchOutputOptions(audio: Option<string>): seq<(string, string)>
  {
    (if HasAudio(audio) then [("-c:a", "aac"), ("-shortest", "")] else [("-c:a", "copy")])
      + [("-c:v", "copy")]
  }

  /** The layout of the stitch command: its fixed head, the audio branch, and the output path last. */
  lemma StitchArgvShape(listFile: string, audio: Option<string>, output: string)
    ensures var argv := StitchArgv(listFile, audio, output);
      && |argv| == (if HasAudio(audio) then 16 else 13)
      && argv[..8] == ["ffmpeg", "-y", "-f", "concat", "-safe", "0", "-i", listFile]
      && (HasAudio(audio) ==> argv[8..13] == ["-i", audio.value, "-c:a", "aac", "-shortest"])
      && (!HasAudio(audio) ==> argv[8..10] == ["-c:a", "copy"])
      && argv[|argv| - 3..] == ["-c:v", "copy", output]
      && argv[|argv| - 1] == output
  {
  }

  /** The head of the stitch command names the manifest as the one concat input. */
  lemma StitchHeadMeaning(listFile: string, rest: seq<string>)
    ensures ParseFrom(["-y", "-f", "concat", "-safe", "0", "-i", listFile] + rest, Invocation(false, [], []), [])
         == ParseFrom(rest, Invocation(true, [FileSpec(listFile, [("-f", "concat"), ("-safe", "0")])], []), [])
  {
    var i0 := Invocation(true, [], []);
    var t1 := ["-i", listFile] + rest;
    var t0 := ["-safe", "0"] + t1;
    assert ["-y", "-f", "concat", "-safe", "0", "-i", listFile] + rest == ["-y"] + (["-f", "concat"] + t0);
    ParseOverwrite(["-f", "concat"] + t0, Invocation(false, [], []), []);
    ParseValueOption("-f", "concat", t0, i0, []);
    assert [] + [("-f", "concat")] == [("-f", "concat")];
    ParseValueOption("-safe", "0", t1, i0, [("-f", "concat")]);
    assert [("-f", "concat")] + [("-safe", "0")] == [("-f", "concat"), ("-safe", "0")];
    ParseInput(listFile, rest, i0, [("-f", "concat"), ("-safe", "0")]);
    assert i0.inputs + [FileSpec(listFile, [("-f", "concat"), ("-safe", "0")])]
        == [FileSpec(listFile, [("-f", "concat"), ("-safe", "0")])];
  }

  /** With an audio track: a second input, then AAC audio cut to the shorter stream. */
  lemma StitchTailWithAudio(a: string, output: string, inv: Invocation)
    requires !IsOption(output) && inv.outputs == []
    ensures ParseFrom(["-i", a, "-c:a", "aac", "-shortest", "-c:v", "copy", output], inv, [])
         == Some(Invocation(inv.overwrite, inv.inputs + [FileSpec(a, [])],
                            [FileSpec(output, [("-c:a", "aac"), ("-shortest", ""), ("-c:v", "copy")])]))
  {
    var i2 := inv.(inputs := inv.inputs + [FileSpec(a, [])]);
    var s2 := ["-c:v", "copy"] + [output];
    var s1 := ["-shortest"] + s2;
    var s0 := ["-c:a", "aac"] + s1;
    assert ["-i", a, "-c:a", "aac", "-shortest", "-c:v", "copy", output] == ["-i", a] + s0;
    ParseInput(a, s0, inv, []);
    ParseValueOption("-c:a", "aac", s1, i2, []);
    assert [] + [("-c:a", "aac")] == [("-c:a", "aac")];
    ParseShortest(s2, i2, [("-c:a", "aac")]);
    assert [("-c:a", "aac")] + [("-shortest", "")] == [("-c:a", "aac"), ("-shortest", "")];
    ParseValueOption("-c:v", "copy", [output], i2, [("-c:a", "aac"), ("-shortest", "")]);
    assert [("-c:a", "aac"), ("-shortest", "")] + [("-c:v", "copy")]
        == [("-c:a", "aac"), ("-shortest", ""), ("-c:v", "copy")];
    ParseOutput(output, i2, [("-c:a", "aac"), ("-shortest", ""), ("-c:v", "copy")]);
    assert i2.outputs + [FileSpec(output, [("-c:a", "aac"), ("-shortest", ""), ("-c:v", "copy")])]
        == [FileSpec(output, [("-c:a", "aac"), ("-shortest", ""), ("-c:v", "copy")])];
  }

  /** Without an audio track: no further input, and the audio stream is copied. */
  lemma StitchTailWithoutAudio(output: string, inv: Invocation)
    requires !IsOption(output) && inv.outputs == []
    ensures ParseFrom(["-c:a", "copy", "-c:v", "copy", output], inv, [])
         == Some(inv.(outputs := [FileSpec(output, [("-c:a", "copy"), ("-c:v", "copy")])]))
  {
    var s0 := ["-c:v", "copy"] + [output];
    assert ["-c:a", "copy", "-c:v", "copy", output] == ["-c:a", "copy"] + s0;
    ParseValueOption("-c:a", "copy", s0, inv, []);
    assert [] + [("-c:a", "copy")] == [("-c:a", "copy")];
    ParseValueOption("-c:v", "copy", [output], inv, [("-c:a", "copy")]);
    assert [("-c:a", "copy")] + [("-c:v", "copy")] == [("-c:a", "copy"), ("-c:v", "copy")];
    ParseOutput(output, inv, [("-c:a", "copy"), ("-c:v", "copy")]);
    assert inv.outputs + [FileSpec(output, [("-c:a", "copy"), ("-c:v", "copy")])]
        == [FileSpec(output, [("-c:a", "copy"), ("-c:v", "copy")])];
  }

  /**
   * What the stitch command asks ffmpeg to do: overwrite, read the manifest
   * with the concat demuxer (and the audio track when given), and write one
   * output with the video stream copied.
   */
  lemma StitchArgvMeaning(listFile: string, audio: Option<string>, output: string)
    requires !IsOption(output)
    ensures Parse(StitchArgv(listFile, audio, output))
         == Some(Invocation(true, StitchInputs(listFile, audio), [FileSpec(output, StitchOutputOptions(audio))]))
    ensures |StitchInputs(listFile, audio)| == (if HasAudio(audio) then 2 else 1)
  {
    var i1 := Invocation(true, [FileSpec(listFile, [("-f", "concat"), ("-safe", "0")])], []);
    var rest := AudioArgs(audio) + ["-c:v", "copy", output];
    var argv := StitchArgv(listFile, audio, output);
    assert argv[1..] == ["-y", "-f", "concat", "-safe", "0", "-i", listFile] + rest;
    StitchHeadMeaning(listFile, rest);
    if HasAudio(audio) {
      assert rest == ["-i", audio.value, "-c:a", "aac", "-shortest", "-c:v", "copy", output];
      StitchTailWithAudio(audio.value, output, i1);
      assert StitchOutputOptions(audio) == [("-c:a", "aac"), ("-shortest", ""), ("-c:v", "copy")];
    } else {
      assert rest == ["-c:a", "copy", "-c:v", "copy", output];
      StitchTailWithoutAudio(output, i1);
      assert StitchOutputOptions(audio) == [("-c:a", "copy"), ("-c:v", "copy")];
      assert StitchInputs(listFile, audio) == i1.inputs;
    }
  }

  /** The head of the audio-mux command names the video, then the audio, as inputs. */
  lemma AddAudioHeadMeaning(video: string, audio: string, rest: seq<string>)
    ensures ParseFrom(["-y", "-i", video, "-i", audio] + rest, Invocation(false, [], []), [])
         == ParseFrom(rest, Invocation(true, [FileSpec(video, []), FileSpec(audio, [])], []), [])
  {
    var i0 := Invocation(true, [], []);
    var i1 := Invocation(true, [FileSpec(video, [])], []);
    assert ["-y", "-i", video, "-i", audio] + rest == ["-y"] + (["-i", video] + (["-i", audio] + rest));
    ParseOverwrite(["-i", video] + (["-i", audio] + rest), Invocation(false, [], []), []);
    ParseInput(video, ["-i", audio] + rest, i0, []);
    assert i0.inputs + [FileSpec(video, [])] == i1.inputs;
    ParseInput(audio, rest, i1, []);
    assert i1.inputs + [FileSpec(audio, [])] == [FileSpec(video, []), FileSpec(audio, [])];
  }

  /** The options of the audio-mux output, in order, all applying to the output path. */
  lemma AddAudioTailMeaning(output: string, inv: Invocation)
    requires !IsOption(output) && inv.outputs == []
    ensures ParseFrom(["-c:v", "copy", "-c:a", "aac", "-map", "0:v:0", "-map", "1:a:0", "-shortest", output], inv, [])
         == Some(inv.(outputs := [FileSpec(output, [("-c:v", "copy"), ("-c:a", "aac"), ("-map", "0:v:0"),
                                                    ("-map", "1:a:0"), ("-shortest", "")])]))
  {
    var p1 := [("-c:v", "copy")];
    var p2 := p1 + [("-c:a", "aac")];
    var p3 := p2 + [("-map", "0:v:0")];
    var p4 := p3 + [("-map", "1:a:0")];
    var p5 := p4 + [("-shortest", "")];
    var t5 := ["-shortest"] + [output];
    var t4 := ["-map", "1:a:0"] + t5;
    var t3 := ["-map", "0:v:0"] + t4;
    var t2 := ["-c:a", "aac"] + t3;
    var t1 := ["-c:v", "copy"] + t2;
    assert ["-c:v", "copy", "-c:a", "aac", "-map", "0:v:0", "-map", "1:a:0", "-shortest", output] == t1;
    ParseValueOption("-c:v", "copy", t2, inv, []);
    assert [] + [("-c:v", "copy")] == p1;
    ParseValueOption("-c:a", "aac", t3, inv, p1);
    ParseValueOption("-map", "0:v:0", t4, inv, p2);
    ParseValueOption("-map", "1:a:0", t5, inv, p3);
    ParseShortest([output], inv, p4);
    ParseOutput(output, inv, p5);
    assert p5 == [("-c:v", "copy"), ("-c:a", "aac"), ("-map", "0:v:0"), ("-map", "1:a:0"), ("-shortest", "")];
    assert inv.outputs + [FileSpec(output, p5)] == [FileSpec(output, p5)];
  }

  /**
   * What the audio-mux command asks ffmpeg to do: overwrite, read the video
   * and the audio file, and write one output that copies the first video
   * stream of the first input, encodes the first audio stream of the second
   * input as AAC and stops at the shorter stream.
   */
  lemma AddAudioArgvMeaning(video: string, audio: string, output: string)
    requires !IsOption(output)
    ensures Parse(AddAudioArgv(video, audio, output))
         == Some(Invocation(true, [FileSpec(video, []), FileSpec(audio, [])],
                            [FileSpec(output, [("-c:v", "copy"), ("-c:a", "aac"), ("-map", "0:v:0"),
                                               ("-map", "1:a:0"), ("-shortest", "")])]))
  {
    var rest := ["-c:v", "copy", "-c:a", "aac", "-map", "0:v:0", "-map", "1:a:0", "-shortest", output];
    assert AddAudioArgv(video, audio, output)[1..] == ["-y", "-i", video, "-i", audio] + rest;
    AddAudioHeadMeaning(video, audio, rest);
    AddAudioTailMeaning(output, Invocation(true, [FileSpec(video, []), FileSpec(audio, [])], []));
  }

  /** `subprocess.run(cmd, check=True)` raises when the process exits with a non-zero status. */
  datatype ProcessError = CalledProcessError(status: int)

  /** The operating system as the video service sees it. */
  class Host {
    /** The files the service has written and not removed, with their contents. */
    var files: map<string, string>
    /** Every argument vector handed to `subprocess.run`, oldest first. */
    var runs: seq<seq<string>>
    /** The files as they stood at each `subprocess.run`, oldest first. */
    ghost var seen: seq<map<string, string>>
    /** The exit status the external process gives for an argument vector. */
    const exitStatus: seq<string> -> int

    constructor (files: map<string, string>, exitStatus: seq<string> -> int)
      ensures this.files == files && runs == [] && seen == [] && this.exitStatus == exitStatus
    {
      this.files := files;
      runs := [];
      seen := [];
      this.exitStatus := exitStatus;
    }

    /** `open(path, "w")`: creates the file, or empties it. */
    method Create(path: string)
      modifies this
      ensures files == old(files)[path := ""] && runs == old(runs) && seen == old(seen)
    {
      files := files[path := ""];
    }

    /** `f.write(text)` on a file opened for writing. */
    method Write(path: string, text: string)
      requires path in files
      modifies this
      ensures files == old(files)[path := old(files)[path] + text] && runs == old(runs) && seen == old(seen)
    {
      files := files[path := files[path] + text];
    }

    /** `subprocess.run(argv)`: records the invocation and the files it found, and reports its exit status. */
    method Run(argv: seq<string>) returns (status: int)
      modifies this
      ensures status == exitStatus(argv)
      ensures runs == old(runs) + [argv] && seen == old(seen) + [old(files)] && files == old(files)
    {
      runs := runs + [argv];
      seen := seen + [files];
      status := exitStatus(argv);
    }

    /** `Path.unlink()` of an existing file. */
    method Unlink(path: string)
      requires path in files
      modifies this
      ensures files == old(files) - {path} && runs == old(runs) && seen == old(seen)
    {
      files := files - {path};
    }
  }

  /** `VideoService`: works in one uploads directory, fixed at construction. */
  class VideoService {
    const uploadsPath: string

    constructor (uploadsPath: string := DefaultUploadsPath)
      ensures this.uploadsPath == uploadsPath
    {
      this.uploadsPath := uploadsPath;
    }

    /** Where the concat manifest is written. */
    function ListFile(): string
    {
      JoinPath(uploadsPath, ConcatListName)
    }

    /**
     * Writes the manifest, then runs the concat command once (the process
     * finds the manifest of the clips, in order, at the list file), and
     * removes the manifest only when ffmpeg exits with status zero; on a
     * failing run the error propagates and the manifest stays behind.
     */
    method StitchVideos(host: Host, videoPaths: seq<string>, outputPath: string, audioPath: Option<string> := None)
      returns (r: Result<string, ProcessError>)
      modifies host
      ensures host.runs == old(host.runs) + [StitchArgv(ListFile(), audioPath, outputPath)]
      ensures host.seen == old(host.seen) + [old(host.files)[ListFile() := Manifest(videoPaths)]]
      ensures var status := host.exitStatus(StitchArgv(ListFile(), audioPath, outputPath));
        && (status == 0 ==> r == Ok(outputPath) && host.files == old(host.files) - {ListFile()})
        && (status != 0 ==> r == Err(CalledProcessError(status))
                            && host.files == old(host.files)[ListFile() := Manifest(videoPaths)])
    {
      var listFile := ListFile();
      host.Create(listFile);
      for i := 0 to |videoPaths|
        invariant host.files == old(host.files)[listFile := Manifest(videoPaths[..i])]
        invariant host.runs == old(host.runs) && host.seen == old(host.seen)
      {
        ManifestAppend(videoPaths[..i], videoPaths[i]);
        assert videoPaths[..i + 1] == videoPaths[..i] + [videoPaths[i]];
        host.Write(listFile, "file '" + videoPaths[i] + "'\n");
      }
      assert videoPaths[..|videoPaths|] == videoPaths;

      var cmd := ["ffmpeg", "-y", "-f", "concat", "-safe", "0", "-i", listFile];
      if audioPath.Some? && audioPath.value != "" {
        cmd := cmd + ["-i", audioPath.value, "-c:a", "aac", "-shortest"];
      } else {
        cmd := cmd + ["-c:a", "copy"];
      }
      cmd := cmd + ["-c:v", "copy", outputPath];

      var status := host.Run(cmd);
      if status != 0 {
        return Err(CalledProcessError(status));
      }
      host.Unlink(listFile);
      return Ok(outputPath);
    }

    /** Runs the audio-mux command once and returns the output path when ffmpeg succeeds. */
    method AddAudioToVideo(host: Host, videoPath: string, audioPath: string, outputPath: string)
      returns (r: Result<string, ProcessError>)
      modifies host
      ensures host.runs == old(host.runs) + [AddAudioArgv(videoPath, audioPath, outputPath)]
      ensures host.files == old(host.files) && host.seen == old(host.seen) + [old(host.files)]
      ensures var status := host.exitStatus(AddAudioArgv(videoPath, audioPath, outputPath));
        r == if status == 0 then Ok(outputPath) else Err(CalledProcessError(status))
    {
      var cmd := ["ffmpeg", "-y", "-i", videoPath, "-i", audioPath, "-c:v", "copy", "-c:a", "aac",
                  "-map", "0:v:0", "-map", "1:a:0", "-shortest", outputPath];
      var status := host.Run(cmd);
      if status != 0 {
        return Err(CalledProcessError(status));
      }
      return Ok(outputPath);
    }
  }

  /** The default uploads directory puts the manifest at `/app/uploads/concat_list.txt`. */
  lemma DefaultListFile()
    ensures JoinPath(DefaultUploadsPath, ConcatListName) == "/app/uploads/concat_list.txt"
  {
  }
}
