/** Types shared by the config-image model: Go's 64-bit sizes, its errors, and
    the "maybe nil" wrapper.

    Go functions of this package return `(value, error)`; an `error` that may be
    nil is an `Option<Error>` here, with `None` standing for nil.
 */
module Basics {

  datatype Option<+T> = None | Some(value: T)

  /** A signed 64-bit integer, the type Go gives sizes. */
  newtype int64 = x: int | -0x8000_0000_0000_0000 <= x < 0x8000_0000_0000_0000

  /** The errors the package creates itself, plus the ones it only passes on. */
  datatype Error =
    | VolumeStatusNotFound(volume: string)   // findIsoSize: no status for the volume
    | CreateEmptyIsoFailed(output: string)   // defaultCreateEmptyIsoImage: os.Create failed
    | InflateEmptyIsoFailed(output: string)  // defaultCreateEmptyIsoImage: Truncate failed
    | OsError(description: string)           // an operating-system or external-tool error, passed on unchanged

  /** The path or name an error created by the package is about. */
  function Subject(e: Error): string
    requires !e.OsError?
  {
    match e
    case VolumeStatusNotFound(v) => v
    case CreateEmptyIsoFailed(o) => o
    case InflateEmptyIsoFailed(o) => o
  }

  /** The text the error prints, as formatted by the package. */
  function Message(e: Error): string {
    match e
    case VolumeStatusNotFound(v) => "failed to find the status of volume " + v
    case CreateEmptyIsoFailed(o) => "failed to create empty iso: '" + o + "'"
    case InflateEmptyIsoFailed(o) => "failed to inflate empty iso: '" + o + "'"
    case OsError(d) => d
  }

  /** `part` occurs inside `s` starting at position `k`. */
  predicate OccursAt(s: string, part: string, k: int) {
    0 <= k <= |s| - |part| && s[k..k + |part|] == part
  }

  /** `part` occurs somewhere inside `s`. */
  ghost predicate Contains(s: string, part: string) {
    exists k :: OccursAt(s, part, k)
  }

  /** Every error the package creates names the volume or the output path it is about. */
  lemma MessageNamesSubject(e: Error)
    requires !e.OsError?
    ensures Contains(Message(e), Subject(e))
  {
    var m, s := Message(e), Subject(e);
    var k := match e
      case VolumeStatusNotFound(_) => |"failed to find the status of volume "|
      case CreateEmptyIsoFailed(_) => |"failed to create empty iso: '"|
      case InflateEmptyIsoFailed(_) => |"failed to inflate empty iso: '"|;
    assert OccursAt(m, s, k);
  }

  /** The three kinds of error the package creates never print the same text. */
  lemma MessagesTellKindsApart(a: Error, b: Error)
    requires !a.OsError? && !b.OsError?
    requires Message(a) == Message(b)
    ensures a == b
  {
    var m := Message(a);
    assert m[10] == Message(b)[10];
    match a
    case VolumeStatusNotFound(v) =>
      assert m[10] == 'f';
      assert b.VolumeStatusNotFound?;
      assert m[|"failed to find the status of volume "|..] == v;
    case CreateEmptyIsoFailed(o) =>
      assert m[10] == 'c';
      assert b.CreateEmptyIsoFailed?;
      assert m[|"failed to create empty iso: '"|..|m| - 1] == o;
    case InflateEmptyIsoFailed(o) =>
      assert m[10] == 'i';
      assert b.InflateEmptyIsoFailed?;
      assert m[|"failed to inflate empty iso: '"|..|m| - 1] == o;
  }
}
