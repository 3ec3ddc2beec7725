/** The populated-image builder: the command line handed to the xorrisofs
    ISO-mastering tool.  Running the tool is outside the model; its outcome is an
    input. */
module IsoImage {
  import opened Basics

  const ISO_BINARY := "xorrisofs"

  /** The volume label used when the caller gives none. */
  const DEFAULT_VOLUME_ID := "cfgdata"

  /** An external command: the program and its arguments. */
  datatype Command = Command(binary: string, args: seq<string>)

  /** The volume label written into the image: the caller's, or the default when it is empty. */
  function VolumeLabel(volID: string): (volumeId: string)
    ensures volumeId != ""
    ensures volID != "" ==> volumeId == volID
  {
    if volID == "" then DEFAULT_VOLUME_ID else volID
  }

  /** The fixed flags around the two option values: positions 0, 2, 3 and 5 to 9. */
  predicate HasFlagPrefix(args: seq<string>) {
    |args| >= 10 &&
    args[0] == "-output" && args[2] == "-follow-links" && args[3] == "-volid" &&
    args[5] == "-joliet" && args[6] == "-rock" && args[7] == "-graft-points" &&
    args[8] == "-partition_cyl_align" && args[9] == "on"
  }

  /** The arguments xorrisofs is run with: output path, symlink following, volume
      label, Joliet and Rock Ridge extensions, graft-point mode and cylinder
      alignment, then the graft points in the caller's order. */
  function XorrisofsArgs(output: string, volID: string, files: seq<string>): (args: seq<string>)
    ensures |args| == 10 + |files|
    ensures HasFlagPrefix(args)
    ensures args[1] == output && args[4] == VolumeLabel(volID)
    ensures args[10..] == files
  {
    ["-output", output, "-follow-links", "-volid", VolumeLabel(volID),
     "-joliet", "-rock", "-graft-points", "-partition_cyl_align", "on"] + files
  }

  /** Reads an argument list back: the output path, the volume label and the graft
      points, when the list has the fixed flags in their places. */
  function ParseArgs(args: seq<string>): Option<(string, string, seq<string>)> {
    if HasFlagPrefix(args) then Some((args[1], args[4], args[10..])) else None
  }

  /** The argument list determines the output, the label actually used and every
      graft point in order. */
  lemma ArgsRoundTrip(output: string, volID: string, files: seq<string>)
    ensures ParseArgs(XorrisofsArgs(output, volID, files)) == Some((output, VolumeLabel(volID), files))
  {
  }

  /** Conversely, every list that reads back with a non-empty label is exactly the
      list built from what it reads back as. */
  lemma ParsedArgsRebuild(args: seq<string>, output: string, volumeId: string, files: seq<string>)
    requires ParseArgs(args) == Some((output, volumeId, files))
    requires volumeId != ""
    ensures XorrisofsArgs(output, volumeId, files) == args
  {
  }

  /** `defaultCreateIsoImage`: runs xorrisofs on the argument list, built one
      token at a time, and returns the tool's error unchanged (`toolErr` is
      what running it gave). */
  method DefaultCreateIsoImage(output: string, volID: string, files: seq<string>, toolErr: Option<Error>)
    returns (cmd: Command, err: Option<Error>)
    ensures cmd == Command(ISO_BINARY, XorrisofsArgs(output, volID, files))
    ensures err == toolErr
  {
    var volumeId := volID;
    if volumeId == "" {
      volumeId := DEFAULT_VOLUME_ID;
    }
    var args: seq<string> := [];
    args := args + ["-output"];
    args := args + [output];
    args := args + ["-follow-links"];
    args := args + ["-volid"];
    args := args + [volumeId];
    args := args + ["-joliet"];
    args := args + ["-rock"];
    args := args + ["-graft-points"];
    args := args + ["-partition_cyl_align"];
    args := args + ["on"];
    args := args + files;
    cmd := Command(ISO_BINARY, args);
    err := toolErr;
  }
}
