/** Believing what an engine says it wrote: only what is on this side's disk, with the bytes it
    reported. */
module EngineArtifacts {
  import opened Prelude

  datatype Reported = Reported(kind: string, file: string, sha256: string)

  datatype Artifact = Artifact(kind: string, file: string, bytes: string)

  /** The output directory, and what is done to names and bytes elsewhere. */
  datatype Disk = Disk(
    files: map<string, string>,
    baseName: string -> string,
    digest: string -> string,
    sameDigest: (string, string) -> bool)

  /** What is wrong with one reported artifact. */
  function Complaint(d: Disk, r: Reported): Option<Failure> {
    if d.baseName(r.file) == "" || d.baseName(r.file) != r.file then Some(Refused("ENGINE_PROTOCOL_INVALID"))
    else if r.file !in d.files then Some(Refused("ENGINE_ARTIFACT_MISSING"))
    else if !d.sameDigest(d.digest(d.files[r.file]), r.sha256) then Some(Refused("ENGINE_ARTIFACT_MISMATCH"))
    else None
  }

  predicate Covered(reported: seq<Reported>, kind: string) {
    exists i :: 0 <= i < |reported| && reported[i].kind == kind
  }

  /** A bare file name that is on disk, with the bytes reported. */
  predicate Genuine(d: Disk, r: Reported) {
    && BareName(d, r) && r.file in d.files && d.sameDigest(d.digest(d.files[r.file]), r.sha256)
  }

  predicate BareName(d: Disk, r: Reported) { r.file != "" && d.baseName(r.file) == r.file }

  predicate AllGenuine(d: Disk, reported: seq<Reported>) {
    forall i :: 0 <= i < |reported| ==> Genuine(d, reported[i])
  }

  predicate FirstBad(d: Disk, reported: seq<Reported>, i: nat) {
    i < |reported| && !Genuine(d, reported[i]) && AllGenuine(d, reported[..i])
  }

  /** The artifacts, exactly when every one reported is there as reported and every kind required is
      among them. Otherwise the first that is not says why: its name is no bare name, it is not on
      disk, or its bytes are others; and when all are, a kind is missing. */
  method ReadArtifacts(d: Disk, reported: seq<Reported>, required: seq<string>)
      returns (r: Result<seq<Artifact>, Failure>)
    ensures r.Ok? <==> AllGenuine(d, reported) && forall k :: 0 <= k < |required| ==> Covered(reported, required[k])
    ensures r.Ok? ==> |r.value| == |reported|
    ensures r.Ok? ==> forall i :: 0 <= i < |reported| ==>
              reported[i].file in d.files
              && r.value[i] == Artifact(reported[i].kind, reported[i].file, d.files[reported[i].file])
    ensures r.Err? && AllGenuine(d, reported) ==> r.error == Refused("ENGINE_ARTIFACT_MISSING")
    ensures forall i: nat :: FirstBad(d, reported, i) ==>
              r == Err(Refused(if !BareName(d, reported[i]) then "ENGINE_PROTOCOL_INVALID"
                               else if reported[i].file !in d.files then "ENGINE_ARTIFACT_MISSING"
                               else "ENGINE_ARTIFACT_MISMATCH"))
  {
    var artifacts := [];
    for i := 0 to |reported|
      invariant |artifacts| == i
      invariant forall j :: 0 <= j < i ==> Genuine(d, reported[j])
      invariant forall j :: 0 <= j < i ==>
                  reported[j].file in d.files
                  && artifacts[j] == Artifact(reported[j].kind, reported[j].file, d.files[reported[j].file])
    {
      var complaint := Complaint(d, reported[i]);
      if complaint.Some? {
        assert forall j: nat :: FirstBad(d, reported, j) ==> j == i;
        return Err(complaint.value);
      }
      artifacts := artifacts + [Artifact(reported[i].kind, reported[i].file, d.files[reported[i].file])];
    }
    for k := 0 to |required|
      invariant forall j :: 0 <= j < k ==> Covered(reported, required[j])
    {
      if forall i :: 0 <= i < |artifacts| ==> artifacts[i].kind != required[k] {
        assert forall i :: 0 <= i < |reported| ==> artifacts[i].kind == reported[i].kind;
        assert !Covered(reported, required[k]);
        return Err(Refused("ENGINE_ARTIFACT_MISSING"));
      }
      var i :| 0 <= i < |artifacts| && artifacts[i].kind == required[k];
      assert reported[i].kind == required[k];
    }
    r := Ok(artifacts);
  }
}
