/** The volume size resolver: decides whether an empty, pre-sized image is wanted
    and, if so, finds its size in the virtual machine instance's volume status. */
module VolumeSize {
  import opened Basics

  /** The two fields of a volume status entry the resolver reads. */
  datatype VolumeStatus = VolumeStatus(name: string, size: int64)

  /** The part of a virtual machine instance the resolver reads: its status's volume list. */
  datatype Vmi = Vmi(volumeStatus: seq<VolumeStatus>)

  /** The part of a volume the resolver reads. */
  datatype Volume = Volume(name: string)

  /** Entry `i` is the first status entry named `name`. */
  predicate IsFirstMatch(statuses: seq<VolumeStatus>, name: string, i: int) {
    0 <= i < |statuses| && statuses[i].name == name &&
    forall j :: 0 <= j < i ==> statuses[j].name != name
  }

  /** The position of the first status entry named `name`, if there is one. */
  function FirstMatch(statuses: seq<VolumeStatus>, name: string): (r: Option<nat>)
    ensures r.Some? ==> r.value < |statuses| && statuses[r.value].name == name
    ensures r.Some? ==> forall j :: 0 <= j < r.value ==> statuses[j].name != name
    ensures r.None? ==> forall j :: 0 <= j < |statuses| ==> statuses[j].name != name
  {
    if statuses == [] then None
    else if statuses[0].name == name then Some(0)
    else match FirstMatch(statuses[1..], name)
      case None => None
      case Some(i) => Some(i + 1)
  }

  /** `findIsoSize`: 0 and no error unless an empty image is requested; otherwise
      the size recorded for the first status entry of the volume, or 0 and an
      error naming the volume when there is none. */
  function FindIsoSize(vmi: Vmi, volume: Volume, emptyIso: bool): (r: (int64, Option<Error>))
    ensures r.1.Some? ==> r.0 == 0 && r.1.value == VolumeStatusNotFound(volume.name)
    ensures r.1.None? && r.0 != 0 ==> emptyIso
  {
    if emptyIso then
      match FirstMatch(vmi.volumeStatus, volume.name)
      case Some(i) => (vmi.volumeStatus[i].size, None)
      case None => (0, Some(VolumeStatusNotFound(volume.name)))
    else
      (0, None)
  }

  /** Without a request for an empty image the size is 0, whatever the status holds. */
  lemma PopulatedWhenNotRequested(vmi: Vmi, volume: Volume)
    ensures FindIsoSize(vmi, volume, false) == (0, None)
  {
  }

  /** With a request, the first status entry named like the volume decides the size. */
  lemma FirstMatchingStatusDecides(vmi: Vmi, volume: Volume, i: nat)
    requires IsFirstMatch(vmi.volumeStatus, volume.name, i)
    ensures FindIsoSize(vmi, volume, true) == (vmi.volumeStatus[i].size, None)
  {
  }

  /** With a request and no status entry for the volume, the lookup fails with an
      error that names the volume. */
  lemma MissingStatusFails(vmi: Vmi, volume: Volume)
    requires forall j :: 0 <= j < |vmi.volumeStatus| ==> vmi.volumeStatus[j].name != volume.name
    ensures FindIsoSize(vmi, volume, true) == (0, Some(VolumeStatusNotFound(volume.name)))
    ensures Contains(Message(FindIsoSize(vmi, volume, true).1.value), volume.name)
  {
    var m := FirstMatch(vmi.volumeStatus, volume.name);
    assert m.None?;
    MessageNamesSubject(VolumeStatusNotFound(volume.name));
  }

  /** Entries for other volumes, and later entries for the same one, never change the result. */
  lemma OnlyFirstEntryMatters(vmi: Vmi, volume: Volume, before: seq<VolumeStatus>, s: VolumeStatus, after: seq<VolumeStatus>)
    requires s.name == volume.name
    requires forall j :: 0 <= j < |before| ==> before[j].name != volume.name
    requires vmi.volumeStatus == before + [s] + after
    ensures FindIsoSize(vmi, volume, true) == (s.size, None)
  {
    assert vmi.volumeStatus[|before|] == s;
    forall j | 0 <= j < |before|
      ensures vmi.volumeStatus[j].name != volume.name
    {
      assert vmi.volumeStatus[j] == before[j];
    }
    FirstMatchingStatusDecides(vmi, volume, |before|);
  }
}
