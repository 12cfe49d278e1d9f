/** Removal of the floppy and CD-ROM drives from a VMX descriptor, the map
    transformation between reading and writing the file in `stripDrives`
    (ovftool/post-processor.go). */
module Vmx {
  import opened Text

  /** A parsed VMX descriptor: one value per key. */
  type Descriptor = map<string, string>

  const FloppyPrefix: string := "floppy0."
  const CdFilePrefix: string := "ide1:0.file"
  const FloppyPresent: string := "floppy0.present"
  const CdPresent: string := "ide1:0.present"
  const Disabled: string := "FALSE"

  /** A key describing the floppy drive or the file behind the CD-ROM drive. */
  predicate IsDriveKey(k: string) {
    HasPrefix(k, FloppyPrefix) || HasPrefix(k, CdFilePrefix)
  }

  predicate IsPresentKey(k: string) {
    k == FloppyPresent || k == CdPresent
  }

  /** The shape every stripped descriptor has. */
  predicate Stripped(m: Descriptor) {
    && FloppyPresent in m && m[FloppyPresent] == Disabled
    && CdPresent in m && m[CdPresent] == Disabled
    && (forall k :: k in m && HasPrefix(k, FloppyPrefix) ==> k == FloppyPresent)
    && (forall k :: k in m ==> !HasPrefix(k, CdFilePrefix))
  }

  /** Drops every drive key, then sets both `present` flags to `FALSE`. */
  function StripDrives(m: Descriptor): (r: Descriptor)
    ensures Stripped(r)
    ensures r.Keys == (set k | k in m && !IsDriveKey(k)) + {FloppyPresent, CdPresent}
    ensures forall k :: k in m && !IsDriveKey(k) && !IsPresentKey(k) ==> k in r && r[k] == m[k]
  {
    var kept := map k | k in m && !IsDriveKey(k) :: m[k];
    assert CdPresent[..|FloppyPrefix|][0] != FloppyPrefix[0];
    assert CdPresent[..|CdFilePrefix|][7] != CdFilePrefix[7];
    assert FloppyPresent[..|CdFilePrefix|][0] != CdFilePrefix[0];
    kept[FloppyPresent := Disabled][CdPresent := Disabled]
  }

  /** Stripping a stripped descriptor changes nothing. */
  lemma StripDrivesIdempotent(m: Descriptor)
    ensures StripDrives(StripDrives(m)) == StripDrives(m)
  {
  }

  /** A stripped descriptor is a fixed point: on such a map the operation is
      the identity, and its results are exactly those maps. */
  lemma StrippedIsFixedPoint(m: Descriptor)
    ensures Stripped(m) <==> StripDrives(m) == m
  {
  }

  /** The range-and-delete loop of the source: keys are visited in
      an unspecified order and a drive key is deleted when it is visited;
      afterwards both `present` flags are set. The result does not depend
      on the visiting order. */
  method StripDrivesInPlace(m: Descriptor) returns (r: Descriptor)
    ensures r == StripDrives(m)
  {
    r := m;
    var unvisited := m.Keys;
    while unvisited != {}
      invariant unvisited <= m.Keys
      invariant r.Keys <= m.Keys
      invariant forall k :: k in m && k !in unvisited && !IsDriveKey(k) ==> k in r
      invariant forall k :: k in r ==> r[k] == m[k]
      invariant forall k :: k in r && k !in unvisited ==> !IsDriveKey(k)
      invariant forall k :: k in unvisited ==> k in r
      decreases unvisited
    {
      var k :| k in unvisited;
      if HasPrefix(k, FloppyPrefix) {
        r := r - {k};
      }
      if HasPrefix(k, CdFilePrefix) {
        r := r - {k};
      }
      unvisited := unvisited - {k};
    }
    r := r[FloppyPresent := Disabled][CdPresent := Disabled];
  }

  lemma FloppyFileNameIsDriveKey()
    ensures IsDriveKey("floppy0.fileName")
  {
    assert "floppy0.fileName"[..|FloppyPrefix|] == FloppyPrefix;
  }

  lemma CdFileNameIsDriveKey()
    ensures IsDriveKey("ide1:0.fileName")
  {
    assert "ide1:0.fileName"[..|CdFilePrefix|] == CdFilePrefix;
  }

  lemma EthernetIsNotDriveKey()
    ensures !IsDriveKey("ethernet0.present")
  {
    assert "ethernet0.present"[..|FloppyPrefix|][0] != FloppyPrefix[0];
    assert "ethernet0.present"[..|CdFilePrefix|][0] != CdFilePrefix[0];
  }

  /** A descriptor whose only key besides drive keys and the two flags is
      `keep` strips to `keep` plus the two cleared flags. */
  lemma StripDrivesSingleSurvivor(m: Descriptor, keep: string)
    requires keep in m && !IsDriveKey(keep) && !IsPresentKey(keep)
    requires forall k :: k in m ==> k == keep || IsDriveKey(k) || IsPresentKey(k)
    ensures StripDrives(m) == map[FloppyPresent := Disabled, CdPresent := Disabled, keep := m[keep]]
  {
    var r := StripDrives(m);
    var expected := map[FloppyPresent := Disabled, CdPresent := Disabled, keep := m[keep]];
    assert r.Keys == expected.Keys;
  }

  /** Example: a descriptor with a floppy image, a CD-ROM image and a network
      adapter. Both drives go, both flags are cleared, the network adapter
      is untouched. */
  lemma StripDrivesExample()
    ensures StripDrives(map[
      "floppy0.fileName" := "a.flp", "floppy0.present" := "TRUE",
      "ide1:0.fileName" := "cd.iso", "ide1:0.present" := "TRUE",
      "ethernet0.present" := "TRUE"])
      == map["floppy0.present" := "FALSE", "ide1:0.present" := "FALSE",
             "ethernet0.present" := "TRUE"]
  {
    var m := map[
      "floppy0.fileName" := "a.flp", "floppy0.present" := "TRUE",
      "ide1:0.fileName" := "cd.iso", "ide1:0.present" := "TRUE",
      "ethernet0.present" := "TRUE"];
    FloppyFileNameIsDriveKey();
    CdFileNameIsDriveKey();
    EthernetIsNotDriveKey();
    StripDrivesSingleSurvivor(m, "ethernet0.present");
  }
}
