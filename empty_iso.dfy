/** The empty-image builder: a placeholder image file whose logical length is
    the size recorded for the volume, with no content written. */
module EmptyIso {
  import opened Basics

  /** What building an empty image leaves behind: the new file lengths and the
      error, given the old lengths and the operating system's answers to the
      create call (`createErr`) and to the resize call (`truncateErr`). */
  function EmptyImageResult(lengths: map<string, int64>, output: string, size: int64,
                            createErr: Option<Error>, truncateErr: Option<Error>)
    : (map<string, int64>, Option<Error>)
  {
    if createErr.Some? then (lengths, Some(CreateEmptyIsoFailed(output)))
    else if size < 0 || truncateErr.Some? then (lengths[output := 0], Some(InflateEmptyIsoFailed(output)))
    else (lengths[output := size], None)
  }

  /** The files the package writes, by path, each with its logical length in
      bytes; their contents are not modelled. */
  class FileSystem {
    var lengths: map<string, int64>

    constructor (lengths: map<string, int64>)
      ensures this.lengths == lengths
    {
      this.lengths := lengths;
    }

    /** `os.Create`: creates the file at `path`, or empties the existing one;
        `osErr` is the operating system's answer. */
    method Create(path: string, osErr: Option<Error>) returns (err: Option<Error>)
      modifies this
      ensures err == osErr
      ensures osErr.Some? ==> lengths == old(lengths)
      ensures osErr.None? ==> lengths == old(lengths)[path := 0]
    {
      err := osErr;
      if osErr.None? {
        lengths := lengths[path := 0];
      }
    }

    /** `Truncate` on the open file at `path`: sets its logical length.  A
        negative size is refused with an invalid-argument error, whatever the
        operating system would otherwise answer (`osErr`). */
    method Truncate(path: string, size: int64, osErr: Option<Error>) returns (err: Option<Error>)
      requires path in lengths
      modifies this
      ensures err.None? <==> size >= 0 && osErr.None?
      ensures err.None? ==> lengths == old(lengths)[path := size]
      ensures err.Some? ==> lengths == old(lengths)
    {
      if size < 0 {
        return Some(OsError("truncate " + path + ": invalid argument"));
      }
      err := osErr;
      if osErr.None? {
        lengths := lengths[path := size];
      }
    }

    /** `defaultCreateEmptyIsoImage`: creates `output`, then sets its length to
        `size`.  A failed create reports the output path and changes nothing; a
        failed resize reports the output path and leaves the file created empty.
        The deferred close and its error are not modelled. */
    method DefaultCreateEmptyIsoImage(output: string, size: int64,
                                      createErr: Option<Error>, truncateErr: Option<Error>)
      returns (err: Option<Error>)
      modifies this
      ensures (lengths, err) == EmptyImageResult(old(lengths), output, size, createErr, truncateErr)
    {
      var e := Create(output, createErr);
      if e.Some? {
        return Some(CreateEmptyIsoFailed(output));
      }
      e := Truncate(output, size, truncateErr);
      if e.Some? {
        return Some(InflateEmptyIsoFailed(output));
      }
      assert lengths == old(lengths)[output := 0][output := size];
      assert old(lengths)[output := 0][output := size] == old(lengths)[output := size];
      err := None;
    }
  }

  /** The three outcomes: a failed create names the output and leaves every file
      as it was; a failed resize names the output and leaves it empty; otherwise
      the output's length is exactly the requested size.  Either way no other
      file changes. */
  lemma EmptyImageOutcomes(lengths: map<string, int64>, output: string, size: int64,
                           createErr: Option<Error>, truncateErr: Option<Error>)
    ensures var (after, err) := EmptyImageResult(lengths, output, size, createErr, truncateErr);
      && (createErr.Some? ==> after == lengths && err == Some(CreateEmptyIsoFailed(output)))
      && (createErr.None? ==> output in after)
      && (createErr.None? && (size < 0 || truncateErr.Some?) ==>
            after[output] == 0 && err == Some(InflateEmptyIsoFailed(output)))
      && (createErr.None? && size >= 0 && truncateErr.None? ==> after[output] == size && err == None)
      && (forall p :: p != output ==> (p in after <==> p in lengths))
      && (forall p :: p != output && p in lengths ==> after[p] == lengths[p])
  {
  }

  /** Building succeeds exactly when both calls succeed and the size is not negative. */
  lemma EmptyImageSucceedsIff(lengths: map<string, int64>, output: string, size: int64,
                              createErr: Option<Error>, truncateErr: Option<Error>)
    ensures EmptyImageResult(lengths, output, size, createErr, truncateErr).1.None?
        <==> createErr.None? && truncateErr.None? && size >= 0
  {
  }

  /** Every error of the empty-image path names the output file. */
  lemma EmptyImageErrorsNameOutput(lengths: map<string, int64>, output: string, size: int64,
                                   createErr: Option<Error>, truncateErr: Option<Error>)
    requires EmptyImageResult(lengths, output, size, createErr, truncateErr).1.Some?
    ensures Contains(Message(EmptyImageResult(lengths, output, size, createErr, truncateErr).1.value), output)
  {
    MessageNamesSubject(EmptyImageResult(lengths, output, size, createErr, truncateErr).1.value);
  }
}
