/** The transcoder and probe command lines built in
    audio-handling/audio_manager.js. Each command is specified as the list of
    shell words it stands for; the string the source builds step by step is
    those words joined by single spaces. */
module StitchCommand {
  import opened Decimal
  import opened Strings

  /** `[k:0]`: the first (audio) stream of input `k`. */
  function StreamLabel(k: nat): string {
    "[" + NatToString(k) + ":0]"
  }

  /** `[0:0][1:0]...[n-1:0]`. */
  function FilterLabels(n: nat): string {
    if n == 0 then "" else FilterLabels(n - 1) + StreamLabel(n - 1)
  }

  /** `concat=n=<n>:v=0:a=1[output]`: join `n` inputs, keep only audio. */
  function ConcatFilter(n: nat): string {
    "concat=n=" + NatToString(n) + ":v=0:a=1[output]"
  }

  /** The filter graph over `n` inputs: their stream labels, then the concat
      filter. */
  function FilterGraph(n: nat): string {
    FilterLabels(n) + ConcatFilter(n)
  }

  /** `-i <file>` for each input, in input order. */
  function InputClauses(files: seq<string>): (args: seq<string>)
    ensures |args| == 2 * |files|
    ensures forall k :: 0 <= k < |files| ==> args[2 * k] == "-i" && args[2 * k + 1] == files[k]
  {
    if files == [] then [] else InputClauses(files[..|files| - 1]) + ["-i", files[|files| - 1]]
  }

  /** `key="value"`: one metadata entry as a word. */
  function MetadataArg(key: string, value: string): string {
    key + "=\"" + value + "\""
  }

  /** One word per metadata entry, in insertion order. */
  function MetadataArgs(metadata: seq<(string, string)>): seq<string> {
    if metadata == [] then []
    else MetadataArgs(metadata[..|metadata| - 1]) + [MetadataArg(metadata[|metadata| - 1].0, metadata[|metadata| - 1].1)]
  }

  /** Map the filter's output, drop the inputs' metadata, and name the codec. */
  const MappingOptions := ["-map", "[output]", "-map_metadata", "-1", "-c:a"]

  /** The mapping, metadata-stripping and encoding options. */
  function OutputOptions(codec: string, bitrate: string): seq<string> {
    MappingOptions + [codec, "-b:a", bitrate + "k", "-metadata"]
  }

  /** The shell words of the concat-and-re-encode invocation. */
  function ConcatArguments(ffmpegPath: string, inputFiles: seq<string>, outputFile: string,
                           codec: string, bitrate: string, metadata: seq<(string, string)>): seq<string>
  {
    [ffmpegPath] + InputClauses(inputFiles)
    + ["-filter_complex", "\"" + FilterGraph(|inputFiles|) + "\""]
    + OutputOptions(codec, bitrate) + MetadataArgs(metadata) + [outputFile]
  }

  /** A command line: its words separated by single spaces. */
  function CommandLine(args: seq<string>): string
    requires |args| >= 1
  {
    Join(args, ' ')
  }

  /** The layout of the concat invocation: the engine, one `-i` per input in
      input order, the filter over exactly those inputs, the output options,
      one word per metadata entry, and the output file last. */
  lemma ConcatArgumentsLayout(ffmpegPath: string, inputFiles: seq<string>, outputFile: string,
                              codec: string, bitrate: string, metadata: seq<(string, string)>)
    ensures var args := ConcatArguments(ffmpegPath, inputFiles, outputFile, codec, bitrate, metadata);
            var n := |inputFiles|;
            && |args| == 2 * n + 13 + |metadata|
            && args[0] == ffmpegPath
            && (forall k :: 0 <= k < n ==> args[2 * k + 1] == "-i" && args[2 * k + 2] == inputFiles[k])
            && args[2 * n + 1] == "-filter_complex"
            && args[2 * n + 2] == "\"" + FilterGraph(n) + "\""
            && args[2 * n + 3..2 * n + 12] == OutputOptions(codec, bitrate)
            && (forall j :: 0 <= j < |metadata| ==>
                  args[2 * n + 12 + j] == MetadataArg(metadata[j].0, metadata[j].1))
            && args[|args| - 1] == outputFile
  {
    ConcatArgumentsFront(ffmpegPath, inputFiles, outputFile, codec, bitrate, metadata);
    ConcatArgumentsBack(ffmpegPath, inputFiles, outputFile, codec, bitrate, metadata);
  }

  /** The first half of `ConcatArgumentsLayout`: the engine, the inputs and the
      filter option. */
  lemma ConcatArgumentsFront(ffmpegPath: string, inputFiles: seq<string>, outputFile: string,
                             codec: string, bitrate: string, metadata: seq<(string, string)>)
    ensures var args := ConcatArguments(ffmpegPath, inputFiles, outputFile, codec, bitrate, metadata);
            var n := |inputFiles|;
            && |args| == 2 * n + 13 + |metadata|
            && args[0] == ffmpegPath
            && (forall k :: 0 <= k < n ==> args[2 * k + 1] == "-i" && args[2 * k + 2] == inputFiles[k])
            && args[2 * n + 1] == "-filter_complex"
            && args[2 * n + 2] == "\"" + FilterGraph(n) + "\""
  {
    var n := |inputFiles|;
    var head := [ffmpegPath] + InputClauses(inputFiles) + ["-filter_complex", "\"" + FilterGraph(n) + "\""];
    var tail := OutputOptions(codec, bitrate) + MetadataArgs(metadata) + [outputFile];
    HeadLayout(ffmpegPath, inputFiles);
    TailLayout(codec, bitrate, metadata, outputFile);
    ConcatArgumentsSplit(ffmpegPath, inputFiles, outputFile, codec, bitrate, metadata);
    var args := head + tail;
    assert forall i :: 0 <= i < |head| ==> args[i] == head[i];
  }

  /** The second half of `ConcatArgumentsLayout`: the output options, the
      metadata words and the output file. */
  lemma ConcatArgumentsBack(ffmpegPath: string, inputFiles: seq<string>, outputFile: string,
                            codec: string, bitrate: string, metadata: seq<(string, string)>)
    ensures var args := ConcatArguments(ffmpegPath, inputFiles, outputFile, codec, bitrate, metadata);
            var n := |inputFiles|;
            && |args| == 2 * n + 13 + |metadata|
            && args[2 * n + 3..2 * n + 12] == OutputOptions(codec, bitrate)
            && (forall j :: 0 <= j < |metadata| ==>
                  args[2 * n + 12 + j] == MetadataArg(metadata[j].0, metadata[j].1))
            && args[|args| - 1] == outputFile
  {
    var n := |inputFiles|;
    var head := [ffmpegPath] + InputClauses(inputFiles) + ["-filter_complex", "\"" + FilterGraph(n) + "\""];
    var tail := OutputOptions(codec, bitrate) + MetadataArgs(metadata) + [outputFile];
    HeadLayout(ffmpegPath, inputFiles);
    TailLayout(codec, bitrate, metadata, outputFile);
    ConcatArgumentsSplit(ffmpegPath, inputFiles, outputFile, codec, bitrate, metadata);
    var args := head + tail;
    assert args[|head|..] == tail;
    assert args[2 * n + 3..2 * n + 12] == tail[..9];
  }

  /** The invocation is its engine, inputs and filter, then everything after. */
  lemma ConcatArgumentsSplit(ffmpegPath: string, inputFiles: seq<string>, outputFile: string,
                             codec: string, bitrate: string, metadata: seq<(string, string)>)
    ensures ConcatArguments(ffmpegPath, inputFiles, outputFile, codec, bitrate, metadata)
         == ([ffmpegPath] + InputClauses(inputFiles) + ["-filter_complex", "\"" + FilterGraph(|inputFiles|) + "\""])
            + (OutputOptions(codec, bitrate) + MetadataArgs(metadata) + [outputFile])
  {
    var head := [ffmpegPath] + InputClauses(inputFiles) + ["-filter_complex", "\"" + FilterGraph(|inputFiles|) + "\""];
    var o := OutputOptions(codec, bitrate);
    var m := MetadataArgs(metadata);
    ConcatAssoc(head, o + m, [outputFile]);
    ConcatAssoc(head, o, m);
  }

  /** The engine, one `-i` clause per input, and the filter option. */
  lemma HeadLayout(ffmpegPath: string, inputFiles: seq<string>)
    ensures var n := |inputFiles|;
            var head := [ffmpegPath] + InputClauses(inputFiles) + ["-filter_complex", "\"" + FilterGraph(n) + "\""];
            && |head| == 2 * n + 3
            && head[0] == ffmpegPath
            && (forall k :: 0 <= k < n ==> head[2 * k + 1] == "-i" && head[2 * k + 2] == inputFiles[k])
            && head[2 * n + 1] == "-filter_complex"
            && head[2 * n + 2] == "\"" + FilterGraph(n) + "\""
  {
    var clauses := InputClauses(inputFiles);
    var head := [ffmpegPath] + clauses + ["-filter_complex", "\"" + FilterGraph(|inputFiles|) + "\""];
    forall k | 0 <= k < |inputFiles|
      ensures head[2 * k + 1] == "-i" && head[2 * k + 2] == inputFiles[k]
    {
      assert head[2 * k + 1] == clauses[2 * k];
      assert head[2 * k + 2] == clauses[2 * k + 1];
    }
  }

  /** The output options, one word per metadata entry, and the output file. */
  lemma TailLayout(codec: string, bitrate: string, metadata: seq<(string, string)>, outputFile: string)
    ensures var tail := OutputOptions(codec, bitrate) + MetadataArgs(metadata) + [outputFile];
            && |tail| == 10 + |metadata|
            && tail[..9] == OutputOptions(codec, bitrate)
            && (forall j :: 0 <= j < |metadata| ==> tail[9 + j] == MetadataArg(metadata[j].0, metadata[j].1))
            && tail[|tail| - 1] == outputFile
  {
    var meta := MetadataArgs(metadata);
    var tail := OutputOptions(codec, bitrate) + meta + [outputFile];
    MetadataArgsAt(metadata);
    forall j | 0 <= j < |metadata|
      ensures tail[9 + j] == MetadataArg(metadata[j].0, metadata[j].1)
    {
      assert tail[9 + j] == meta[j];
    }
  }

  /** Each metadata entry gives one word, in order. */
  lemma {:induction false} MetadataArgsAt(metadata: seq<(string, string)>)
    ensures |MetadataArgs(metadata)| == |metadata|
    ensures forall j :: 0 <= j < |metadata| ==> MetadataArgs(metadata)[j] == MetadataArg(metadata[j].0, metadata[j].1)
  {
    if metadata != [] {
      MetadataArgsAt(metadata[..|metadata| - 1]);
    }
  }

  /** `concatCmdWithReEncoding`: the command string, built in the source's
      order, is exactly the concat invocation's words joined by spaces. */
  method ConcatCmdWithReEncoding(ffmpegPath: string, inputFiles: seq<string>, outputFile: string,
                                 outputCodec: string, outputBitrate: string,
                                 trackMetadata: seq<(string, string)>) returns (concatCmd: string)
    ensures concatCmd == CommandLine(ConcatArguments(ffmpegPath, inputFiles, outputFile,
                                                     outputCodec, outputBitrate, trackMetadata))
  {
    concatCmd := ffmpegPath;

    // One `-i <file>` pair per input, in input order.
    for i := 0 to |inputFiles|
      invariant concatCmd == Join([ffmpegPath] + InputClauses(inputFiles[..i]), ' ')
    {
      InputStep(ffmpegPath, inputFiles, i);
      concatCmd := concatCmd + " -i " + inputFiles[i];
    }
    assert inputFiles[..|inputFiles|] == inputFiles;
    ghost var head := [ffmpegPath] + InputClauses(inputFiles);

    // The filter option: one stream label per input, then the concat filter.
    concatCmd := concatCmd + " -filter_complex \"";
    for k := 0 to |inputFiles|
      invariant concatCmd == Join(head, ' ') + " -filter_complex \"" + FilterLabels(k)
    {
      FilterLabelStep(Join(head, ' ') + " -filter_complex \"", k);
      concatCmd := concatCmd + "[" + NatToString(k) + ":0]";
    }
    concatCmd := concatCmd + "concat=n=" + NatToString(|inputFiles|) + ":v=0:a=1[output]\"";
    FilterStep(head, |inputFiles|);
    ghost var filtered := head + ["-filter_complex", "\"" + FilterGraph(|inputFiles|) + "\""];

    // The encoding options, one word per metadata entry, and the output file.
    concatCmd := concatCmd + " -map [output] -map_metadata -1 -c:a " + outputCodec + " -b:a " + outputBitrate + "k -metadata";
    OutputStep(filtered, outputCodec, outputBitrate);
    ghost var options := filtered + OutputOptions(outputCodec, outputBitrate);
    assert trackMetadata[..0] == [] && options + [] == options;
    for j := 0 to |trackMetadata|
      invariant concatCmd == Join(options + MetadataArgs(trackMetadata[..j]), ' ')
    {
      var (metaKey, metaValue) := trackMetadata[j];
      MetadataStep(options, trackMetadata, j);
      concatCmd := concatCmd + " " + metaKey + "=\"" + metaValue + "\"";
    }
    assert trackMetadata[..|trackMetadata|] == trackMetadata;
    ghost var all := options + MetadataArgs(trackMetadata);
    JoinSnoc(all, outputFile, ' ');
    assert all + [outputFile] == ConcatArguments(ffmpegPath, inputFiles, outputFile,
                                                 outputCodec, outputBitrate, trackMetadata);
    concatCmd := concatCmd + " " + outputFile;
  }

  /** When no word contains a space, the command line splits back into exactly
      its words, so every input path and option reaches the engine intact. */
  lemma CommandLineSplitsIntoArguments(args: seq<string>)
    requires |args| >= 1
    requires forall i :: 0 <= i < |args| ==> ' ' !in args[i]
    ensures Split(CommandLine(args), ' ') == args
  {
    SplitJoin(args, ' ');
  }

  /** The stream labels of two inputs. */
  lemma FilterLabelsForTwoInputs()
    ensures FilterLabels(2) == "[0:0][1:0]"
  {
    assert NatToString(0) == "0" && NatToString(1) == "1";
    assert StreamLabel(0) == "[0:0]";
    assert StreamLabel(1) == "[1:0]";
  }

  /** The concat filter for two inputs. */
  lemma ConcatFilterForTwoInputs()
    ensures ConcatFilter(2) == "concat=n=2:v=0:a=1[output]"
  {
    assert NatToString(2) == "2";
  }

  /** The filter for two inputs, as the source's documentation shows it. */
  lemma FilterGraphForTwoInputs()
    ensures FilterGraph(2) == "[0:0][1:0]concat=n=2:v=0:a=1[output]"
  {
    FilterLabelsForTwoInputs();
    ConcatFilterForTwoInputs();
  }

  /** The filter over no inputs: no stream labels, and a concat of zero. */
  lemma FilterGraphForNoInputs()
    ensures FilterGraph(0) == "concat=n=0:v=0:a=1[output]"
  {
    assert NatToString(0) == "0";
    assert "concat=n=" + "0" == "concat=n=0";
    assert "" + "concat=n=0:v=0:a=1[output]" == "concat=n=0:v=0:a=1[output]";
  }

  /** Ask for the duration alone, as a bare number. */
  const QueryOptions := ["-show_entries", "format=duration", "-v", "quiet", "-of", "csv=\"p=0\""]

  /** The probe invocation's words: query the duration of `file`. */
  function ProbeArguments(ffprobePath: string, file: string): seq<string> {
    [ffprobePath, "-i", file] + QueryOptions
  }

  /** The probe command string as `getAudioDuration` builds it. */
  function ProbeCommand(ffprobePath: string, file: string): string {
    ffprobePath + " -i " + file + " -show_entries format=duration -v quiet -of csv=\"p=0\""
  }

  /** The probe command is exactly the probe invocation's words joined by
      spaces. */
  lemma ProbeCommandWords(ffprobePath: string, file: string)
    ensures ProbeCommand(ffprobePath, file) == CommandLine(ProbeArguments(ffprobePath, file))
  {
    JoinWords([ffprobePath], "-i", file);
    assert [ffprobePath] + ["-i", file] == [ffprobePath, "-i", file];
    JoinPrefixed([ffprobePath, "-i", file], QueryOptions, ' ');
    QueryOptionsText();
    assert ffprobePath + " " + "-i" + " " + file == ffprobePath + " -i " + file;
  }

  /** When the paths hold no space, the probe command splits back into exactly
      the probe invocation's words. */
  lemma ProbeCommandSplits(ffprobePath: string, file: string)
    requires ' ' !in ffprobePath && ' ' !in file
    ensures Split(ProbeCommand(ffprobePath, file), ' ') == ProbeArguments(ffprobePath, file)
  {
    ProbeCommandWords(ffprobePath, file);
    var args := ProbeArguments(ffprobePath, file);
    forall i | 0 <= i < |args|
      ensures ' ' !in args[i]
    {
      if i >= 3 {
        assert args[i] == QueryOptions[i - 3];
      }
    }
    SplitJoin(args, ' ');
  }

  /* ---------------------------------------------------------------------
   *  Text regrouping used by the proofs above: each lemma shows that one
   *  piece the source appends equals the next word (or words) joined after
   *  a space. They carry no behaviour of their own.
   * --------------------------------------------------------------------- */

  /** Joining two more words adds each after a space. */
  lemma JoinWords(prefix: seq<string>, a: string, b: string)
    requires |prefix| >= 1
    ensures Join(prefix + [a, b], ' ') == Join(prefix, ' ') + " " + a + " " + b
  {
    JoinSnoc(prefix, a, ' ');
    JoinSnoc(prefix + [a], b, ' ');
    assert prefix + [a] + [b] == prefix + [a, b];
  }

  /** The clauses of one more input end in `-i` and that input. */
  lemma InputClausesSnoc(files: seq<string>, i: nat)
    requires i < |files|
    ensures InputClauses(files[..i + 1]) == InputClauses(files[..i]) + ["-i", files[i]]
  {
    assert files[..i + 1][..i] == files[..i];
  }

  /** One `-i` clause: the text the input loop appends. */
  lemma InputStep(ffmpegPath: string, files: seq<string>, i: nat)
    requires i < |files|
    ensures Join([ffmpegPath] + InputClauses(files[..i + 1]), ' ')
         == Join([ffmpegPath] + InputClauses(files[..i]), ' ') + " -i " + files[i]
  {
    var before := [ffmpegPath] + InputClauses(files[..i]);
    InputClausesSnoc(files, i);
    ConcatAssoc([ffmpegPath], InputClauses(files[..i]), ["-i", files[i]]);
    JoinWords(before, "-i", files[i]);
  }

  /** One stream label: the text the label loop appends. */
  lemma FilterLabelStep(text: string, k: nat)
    ensures text + FilterLabels(k) + "[" + NatToString(k) + ":0]" == text + FilterLabels(k + 1)
  {
    ConcatAssoc(text, FilterLabels(k), StreamLabel(k));
    ConcatAssoc(text + FilterLabels(k), "[" + NatToString(k), ":0]");
    ConcatAssoc(text + FilterLabels(k), "[", NatToString(k));
  }

  /** The opening of the filter option: its name and the opening quote. */
  lemma FilterOpen(line: string, graph: string)
    ensures line + " " + "-filter_complex" + " " + ("\"" + graph + "\"")
         == line + " -filter_complex \"" + graph + "\""
  {
    var x := line + " " + "-filter_complex" + " ";
    assert x == line + " -filter_complex ";
    ConcatAssoc(x, "\"" + graph, "\"");
    ConcatAssoc(x, "\"", graph);
    assert x + "\"" == line + " -filter_complex \"";
  }

  /** The close of the filter option: the concat filter and the closing quote,
      appended in one piece. */
  lemma FilterClose(text: string, n: nat)
    ensures text + ConcatFilter(n) + "\""
         == text + "concat=n=" + NatToString(n) + ":v=0:a=1[output]\""
  {
    var count := "concat=n=" + NatToString(n);
    ConcatAssoc(text, count, ":v=0:a=1[output]");
    ConcatAssoc(text, "concat=n=", NatToString(n));
    ConcatAssoc(text + count, ":v=0:a=1[output]", "\"");
    assert ":v=0:a=1[output]" + "\"" == ":v=0:a=1[output]\"";
  }

  /** The filter option: the text the filter steps append. */
  lemma FilterStep(head: seq<string>, n: nat)
    requires |head| >= 1
    ensures Join(head + ["-filter_complex", "\"" + FilterGraph(n) + "\""], ' ')
         == Join(head, ' ') + " -filter_complex \"" + FilterLabels(n)
            + "concat=n=" + NatToString(n) + ":v=0:a=1[output]\""
  {
    var line := Join(head, ' ');
    JoinWords(head, "-filter_complex", "\"" + FilterGraph(n) + "\"");
    FilterOpen(line, FilterGraph(n));
    ConcatAssoc(line + " -filter_complex \"", FilterLabels(n), ConcatFilter(n));
    FilterClose(line + " -filter_complex \"" + FilterLabels(n), n);
  }

  /** The mapping options, each after a space. */
  lemma MappingOptionsText()
    ensures Prefixed(MappingOptions, ' ') == " -map [output] -map_metadata -1 -c:a"
  {
    MapMetadataText();
    PrefixedSnoc(["-map", "[output]", "-map_metadata", "-1"], "-c:a", ' ');
    assert ["-map", "[output]", "-map_metadata", "-1"] + ["-c:a"] == MappingOptions;
    assert " -map [output] -map_metadata -1" + " " + "-c:a" == " -map [output] -map_metadata -1 -c:a";
  }

  /** The first four mapping options, each after a space. */
  lemma MapMetadataText()
    ensures Prefixed(["-map", "[output]", "-map_metadata", "-1"], ' ') == " -map [output] -map_metadata -1"
  {
    MapOutputText();
    PrefixedSnoc(["-map", "[output]"], "-map_metadata", ' ');
    assert ["-map", "[output]"] + ["-map_metadata"] == ["-map", "[output]", "-map_metadata"];
    assert " -map [output]" + " " + "-map_metadata" == " -map [output] -map_metadata";
    PrefixedSnoc(["-map", "[output]", "-map_metadata"], "-1", ' ');
    assert ["-map", "[output]", "-map_metadata"] + ["-1"] == ["-map", "[output]", "-map_metadata", "-1"];
    assert " -map [output] -map_metadata" + " " + "-1" == " -map [output] -map_metadata -1";
  }

  /** The first two mapping options, each after a space. */
  lemma MapOutputText()
    ensures Prefixed(["-map", "[output]"], ' ') == " -map [output]"
  {
    PrefixedSnoc([], "-map", ' ');
    assert [] + ["-map"] == ["-map"];
    PrefixedSnoc(["-map"], "[output]", ' ');
    assert ["-map"] + ["[output]"] == ["-map", "[output]"];
    assert " -map" + " " + "[output]" == " -map [output]";
  }

  /** The output options, each after a space: the text of the source's single
      template. */
  lemma OutputOptionsText(codec: string, bitrate: string)
    ensures Prefixed(OutputOptions(codec, bitrate), ' ')
         == " -map [output] -map_metadata -1 -c:a " + codec + " -b:a " + bitrate + "k -metadata"
  {
    var p1 := MappingOptions + [codec];
    var p2 := p1 + ["-b:a"];
    var p3 := p2 + [bitrate + "k"];
    assert p3 + ["-metadata"] == OutputOptions(codec, bitrate);
    MappingOptionsText();
    PrefixedSnoc(MappingOptions, codec, ' ');
    PrefixedSnoc(p1, "-b:a", ' ');
    PrefixedSnoc(p2, bitrate + "k", ' ');
    PrefixedSnoc(p3, "-metadata", ' ');
    assert " -map [output] -map_metadata -1 -c:a" + " " == " -map [output] -map_metadata -1 -c:a ";
    var x := " -map [output] -map_metadata -1 -c:a " + codec;
    assert x + " " + "-b:a" + " " == x + " -b:a ";
    ConcatAssoc(x + " -b:a ", bitrate, "k");
    var y := x + " -b:a " + bitrate;
    assert y + "k" + " " + "-metadata" == y + "k -metadata";
  }

  /** The output options: the text the source appends in one step. */
  lemma OutputStep(prefix: seq<string>, codec: string, bitrate: string)
    requires |prefix| >= 1
    ensures Join(prefix + OutputOptions(codec, bitrate), ' ')
         == Join(prefix, ' ') + " -map [output] -map_metadata -1 -c:a " + codec + " -b:a " + bitrate + "k -metadata"
  {
    var line := Join(prefix, ' ');
    JoinPrefixed(prefix, OutputOptions(codec, bitrate), ' ');
    OutputOptionsText(codec, bitrate);
    var a := " -map [output] -map_metadata -1 -c:a " + codec;
    var b := a + " -b:a ";
    var c := b + bitrate;
    ConcatAssoc(line, c, "k -metadata");
    ConcatAssoc(line, b, bitrate);
    ConcatAssoc(line, a, " -b:a ");
    ConcatAssoc(line, " -map [output] -map_metadata -1 -c:a ", codec);
  }

  /** The words of one more metadata entry end in that entry's word. */
  lemma MetadataArgsSnoc(metadata: seq<(string, string)>, j: nat)
    requires j < |metadata|
    ensures MetadataArgs(metadata[..j + 1]) == MetadataArgs(metadata[..j]) + [MetadataArg(metadata[j].0, metadata[j].1)]
  {
    assert metadata[..j + 1][..j] == metadata[..j];
  }

  /** One metadata entry: the text the metadata loop appends. */
  lemma MetadataStep(prefix: seq<string>, metadata: seq<(string, string)>, j: nat)
    requires |prefix| >= 1 && j < |metadata|
    ensures Join(prefix + MetadataArgs(metadata[..j + 1]), ' ')
         == Join(prefix + MetadataArgs(metadata[..j]), ' ') + " " + metadata[j].0 + "=\"" + metadata[j].1 + "\""
  {
    var before := prefix + MetadataArgs(metadata[..j]);
    var (key, value) := metadata[j];
    MetadataArgsSnoc(metadata, j);
    ConcatAssoc(prefix, MetadataArgs(metadata[..j]), [MetadataArg(key, value)]);
    JoinSnoc(before, MetadataArg(key, value), ' ');
    var line := Join(before, ' ') + " ";
    ConcatAssoc(line, key + "=\"" + value, "\"");
    ConcatAssoc(line, key + "=\"", value);
    ConcatAssoc(line, key, "=\"");
  }

  /** The first query option after a space. */
  lemma ShowEntriesText()
    ensures Prefixed(["-show_entries"], ' ') == " -show_entries"
  {
    PrefixedSnoc([], "-show_entries", ' ');
    assert [] + ["-show_entries"] == ["-show_entries"];
  }

  /** The first three query options, each after a space. */
  lemma ShowDurationText()
    ensures Prefixed(["-show_entries", "format=duration", "-v"], ' ') == " -show_entries format=duration -v"
  {
    ShowEntriesText();
    PrefixedSnoc(["-show_entries"], "format=duration", ' ');
    assert ["-show_entries"] + ["format=duration"] == ["-show_entries", "format=duration"];
    assert " -show_entries" + " " + "format=duration" == " -show_entries format=duration";
    PrefixedSnoc(["-show_entries", "format=duration"], "-v", ' ');
    assert ["-show_entries", "format=duration"] + ["-v"] == ["-show_entries", "format=duration", "-v"];
    assert " -show_entries format=duration" + " " + "-v" == " -show_entries format=duration -v";
  }

  /** The first five query options, each after a space. */
  lemma QuietText()
    ensures Prefixed(["-show_entries", "format=duration", "-v", "quiet", "-of"], ' ')
         == " -show_entries format=duration -v quiet -of"
  {
    ShowDurationText();
    PrefixedSnoc(["-show_entries", "format=duration", "-v"], "quiet", ' ');
    assert ["-show_entries", "format=duration", "-v"] + ["quiet"] == ["-show_entries", "format=duration", "-v", "quiet"];
    assert " -show_entries format=duration -v" + " " + "quiet" == " -show_entries format=duration -v quiet";
    PrefixedSnoc(["-show_entries", "format=duration", "-v", "quiet"], "-of", ' ');
    assert ["-show_entries", "format=duration", "-v", "quiet"] + ["-of"] == ["-show_entries", "format=duration", "-v", "quiet", "-of"];
    assert " -show_entries format=duration -v quiet" + " " + "-of" == " -show_entries format=duration -v quiet -of";
  }

  /** The query options, each after a space. */
  lemma QueryOptionsText()
    ensures Prefixed(QueryOptions, ' ') == " -show_entries format=duration -v quiet -of csv=\"p=0\""
  {
    QuietText();
    PrefixedSnoc(["-show_entries", "format=duration", "-v", "quiet", "-of"], "csv=\"p=0\"", ' ');
    assert ["-show_entries", "format=duration", "-v", "quiet", "-of"] + ["csv=\"p=0\""] == QueryOptions;
    assert " -show_entries format=duration -v quiet -of" + " " + "csv=\"p=0\""
        == " -show_entries format=duration -v quiet -of csv=\"p=0\"";
  }
}
