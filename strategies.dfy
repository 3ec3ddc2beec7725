/** The creation-strategy indirection and the image builder's dispatch: two
    replaceable slots, one for populated images and one for empty images, and
    the choice between them on the requested size. */
module Strategies {
  import opened Basics
  import IsoImage
  import EmptyIso
  import VolumeSize

  /** What a slot holds: the package's own implementation, or a substitute
      installed through a setter (told apart by a name). */
  datatype Strategy = Default | Substitute(name: string)

  /** The one call a build makes: which slot's strategy, with which arguments. */
  datatype Call =
    | Populated(strategy: Strategy, output: string, volID: string, files: seq<string>)
    | Empty(strategy: Strategy, output: string, size: int64)

  /** What the outside world answers during one build: the external tool's
      error and the length of the image it writes, and the operating system's
      errors for the create and resize calls. */
  datatype Environment = Environment(toolErr: Option<Error>, isoLen: int64,
                                     createErr: Option<Error>, truncateErr: Option<Error>)

  /** The call a build makes for `size`, given the strategies in the two slots:
      the populated one exactly when the size is 0, the empty one otherwise. */
  function CallFor(isoSlot: Strategy, emptySlot: Strategy,
                   output: string, volID: string, files: seq<string>, size: int64): (call: Call)
    ensures call.Populated? <==> size == 0
    ensures call.output == output
    ensures call.Populated? ==> call.strategy == isoSlot && call.volID == volID && call.files == files
    ensures call.Empty? ==> call.strategy == emptySlot && call.size == size
  {
    if size == 0 then Populated(isoSlot, output, volID, files) else Empty(emptySlot, output, size)
  }

  /** Feeding the looked-up size into the dispatch: when the lookup succeeds, the
      empty strategy is called exactly when an empty image was requested and the
      first status entry of the volume records a non-zero size.  A recorded size
      of 0 therefore yields a populated image even when an empty one was asked for. */
  lemma EmptyStrategyChosenIff(vmi: VolumeSize.Vmi, volume: VolumeSize.Volume, emptyIso: bool,
                               isoSlot: Strategy, emptySlot: Strategy,
                               output: string, volID: string, files: seq<string>)
    requires VolumeSize.FindIsoSize(vmi, volume, emptyIso).1.None?
    ensures CallFor(isoSlot, emptySlot, output, volID, files, VolumeSize.FindIsoSize(vmi, volume, emptyIso).0).Empty?
        <==> emptyIso && exists i :: VolumeSize.IsFirstMatch(vmi.volumeStatus, volume.name, i) && vmi.volumeStatus[i].size != 0
  {
  }

  /** The two process-wide slots. */
  class CreationSlots {
    var createIsoImage: Strategy
    var createEmptyIsoImage: Strategy

    /** Both slots start out holding the package's own implementations. */
    constructor ()
      ensures createIsoImage == Default && createEmptyIsoImage == Default
    {
      createIsoImage := Default;
      createEmptyIsoImage := Default;
    }

    /** `setIsoCreationFunction`: replaces the populated-image strategy only. */
    method SetIsoCreationFunction(isoFunc: Strategy)
      modifies this
      ensures createIsoImage == isoFunc
      ensures createEmptyIsoImage == old(createEmptyIsoImage)
    {
      createIsoImage := isoFunc;
    }

    /** `setEmptyIsoCreationFunction`: replaces the empty-image strategy only. */
    method SetEmptyIsoCreationFunction(emptyIsoFunc: Strategy)
      modifies this
      ensures createEmptyIsoImage == emptyIsoFunc
      ensures createIsoImage == old(createIsoImage)
    {
      createEmptyIsoImage := emptyIsoFunc;
    }

    /** `createIsoConfigImage`: makes exactly one call, the one `CallFor` names,
        and returns that call's error unchanged.  A default populated build runs
        xorrisofs (returned in `ran`), which writes the image at the output path
        and touches no other file; a default empty build creates and resizes the
        output in `fs`; a substitute's error is `substitute(call)`. */
    method CreateIsoConfigImage(output: string, volID: string, files: seq<string>, size: int64,
                                fs: EmptyIso.FileSystem, env: Environment,
                                substitute: Call -> Option<Error>)
      returns (call: Call, ran: Option<IsoImage.Command>, err: Option<Error>)
      modifies fs
      ensures call == CallFor(createIsoImage, createEmptyIsoImage, output, volID, files, size)
      ensures call.strategy.Substitute? ==>
        err == substitute(call) && ran == None && fs.lengths == old(fs.lengths)
      ensures call.Populated? && call.strategy.Default? ==>
        err == env.toolErr &&
        ran == Some(IsoImage.Command(IsoImage.ISO_BINARY, IsoImage.XorrisofsArgs(output, volID, files))) &&
        (forall p :: p != output ==> (p in fs.lengths <==> p in old(fs.lengths))) &&
        (forall p :: p != output && p in old(fs.lengths) ==> fs.lengths[p] == old(fs.lengths)[p])
      ensures call.Populated? && call.strategy.Default? && env.toolErr.None? ==>
        fs.lengths == old(fs.lengths)[output := env.isoLen]
      ensures call.Empty? && call.strategy.Default? ==>
        ran == None &&
        (fs.lengths, err) == EmptyIso.EmptyImageResult(old(fs.lengths), output, size, env.createErr, env.truncateErr)
    {
      ran := None;
      if size == 0 {
        call := Populated(createIsoImage, output, volID, files);
        if createIsoImage.Default? {
          var cmd;
          cmd, err := IsoImage.DefaultCreateIsoImage(output, volID, files, env.toolErr);
          ran := Some(cmd);
          if err.None? {
            // The successful run leaves the image it mastered at `output`.
            fs.lengths := fs.lengths[output := env.isoLen];
          }
        } else {
          err := substitute(call);
        }
      } else {
        call := Empty(createEmptyIsoImage, output, size);
        if createEmptyIsoImage.Default? {
          err := fs.DefaultCreateEmptyIsoImage(output, size, env.createErr, env.truncateErr);
        } else {
          err := substitute(call);
        }
      }
    }
  }

  /** After a setter replaces one slot (the populated one when `replaceIso`,
      the empty one otherwise), builds call the new strategy through that slot
      and return its error, while the other slot keeps calling the default with
      the default's effect on a file system that starts out empty. */
  method SubstitutedStrategyIsUsed(replaceIso: bool, name: string,
                                   output: string, volID: string, files: seq<string>, size: int64,
                                   env: Environment, substitute: Call -> Option<Error>)
    returns (call: Call, err: Option<Error>, lengths: map<string, int64>)
    ensures call == CallFor(if replaceIso then Substitute(name) else Default,
                            if replaceIso then Default else Substitute(name),
                            output, volID, files, size)
    ensures call.strategy.Substitute? <==> (replaceIso <==> size == 0)
    ensures call.strategy.Substitute? ==> err == substitute(call)
    ensures call.Populated? && call.strategy.Default? ==>
      err == env.toolErr && (env.toolErr.None? ==> lengths == map[output := env.isoLen])
    ensures call.Empty? && call.strategy.Default? ==>
      (lengths, err) == EmptyIso.EmptyImageResult(map[], output, size, env.createErr, env.truncateErr)
  {
    var slots := new CreationSlots();
    if replaceIso {
      slots.SetIsoCreationFunction(Substitute(name));
    } else {
      slots.SetEmptyIsoCreationFunction(Substitute(name));
    }
    var fs := new EmptyIso.FileSystem(map[]);
    var ran;
    call, ran, err := slots.CreateIsoConfigImage(output, volID, files, size, fs, env, substitute);
    lengths := fs.lengths;
  }
}
