/**
 * Validation of a CompleteMultipartUpload request against the parts a multipart upload has stored.
 * The checks run in a fixed order and the first one that fails decides the rejection:
 * no stored parts at all, a requested part that was never uploaded, a part other than the last
 * that is smaller than the minimum part size, requested part numbers that are not strictly ascending.
 */
module Multipart {
  import opened Outcomes
  import opened Strings

  /** Every part but the last must be at least 5 MiB. */
  const MINIMUM_PART_SIZE: int := 5 * 1024 * 1024

  /** One part of a multipart upload (`dto.Part`; its modification date is not modelled). */
  datatype Part = Part(partNumber: int, size: int, etag: string)

  /** The reasons a completion is rejected, in the order they are checked. */
  datatype Rejection = NoSuchUpload | InvalidPart | EntityTooSmall | InvalidPartOrder

  /** The verdict on a completion request. */
  datatype Verdict = Accepted | Rejected(reason: Rejection)

  /** The body of an S3 error response (`dto.ErrorResponse`). */
  datatype ErrorResponse = ErrorResponse(code: string, message: string)

  /** Some stored part carries part number `n`. */
  predicate Uploaded(stored: seq<Part>, n: int) {
    exists j :: 0 <= j < |stored| && stored[j].partNumber == n
  }

  /** The first stored part with part number `n`, if any. */
  function FindPart(stored: seq<Part>, n: int): Option<Part> {
    if stored == [] then None
    else if stored[0].partNumber == n then Some(stored[0])
    else FindPart(stored[1..], n)
  }

  /** The recorded size of the stored part numbered `n` (0 when there is none). */
  function StoredSize(stored: seq<Part>, n: int): int {
    match FindPart(stored, n)
    case None => 0
    case Some(p) => p.size
  }

  /** The lookup finds a part exactly when one was uploaded, and what it finds is a stored part with that number. */
  lemma {:induction false} FindPartMeaning(stored: seq<Part>, n: int)
    ensures FindPart(stored, n).Some? <==> Uploaded(stored, n)
    ensures FindPart(stored, n).Some? ==>
      FindPart(stored, n).value in stored && FindPart(stored, n).value.partNumber == n
  {
    if stored != [] {
      FindPartMeaning(stored[1..], n);
      if stored[0].partNumber != n && Uploaded(stored, n) {
        var j :| 0 <= j < |stored| && stored[j].partNumber == n;
        assert stored[1..][j - 1] == stored[j];
      }
      if Uploaded(stored[1..], n) {
        var j :| 0 <= j < |stored[1..]| && stored[1..][j].partNumber == n;
        assert stored[j + 1] == stored[1..][j];
      }
    }
  }

  /** Every requested part number was uploaded. */
  predicate AllUploaded(stored: seq<Part>, requested: seq<Part>) {
    requested == [] || (FindPart(stored, requested[0].partNumber).Some? && AllUploaded(stored, requested[1..]))
  }

  /** Every requested part but the last has a stored size of at least the minimum. */
  predicate NonLastPartsLargeEnough(stored: seq<Part>, requested: seq<Part>) {
    |requested| <= 1 ||
    (StoredSize(stored, requested[0].partNumber) >= MINIMUM_PART_SIZE && NonLastPartsLargeEnough(stored, requested[1..]))
  }

  /** Each requested part number is smaller than the next one. */
  predicate Ascending(requested: seq<Part>) {
    |requested| <= 1 || (requested[0].partNumber < requested[1].partNumber && Ascending(requested[1..]))
  }

  lemma {:induction false} AllUploadedMeaning(stored: seq<Part>, requested: seq<Part>)
    ensures AllUploaded(stored, requested) <==> forall i :: 0 <= i < |requested| ==> Uploaded(stored, requested[i].partNumber)
  {
    if requested != [] {
      FindPartMeaning(stored, requested[0].partNumber);
      AllUploadedMeaning(stored, requested[1..]);
      assert forall i :: 1 <= i < |requested| ==> requested[i] == requested[1..][i - 1];
    }
  }

  lemma {:induction false} NonLastPartsLargeEnoughMeaning(stored: seq<Part>, requested: seq<Part>)
    ensures NonLastPartsLargeEnough(stored, requested) <==>
      forall i :: 0 <= i < |requested| - 1 ==> StoredSize(stored, requested[i].partNumber) >= MINIMUM_PART_SIZE
  {
    if |requested| > 1 {
      NonLastPartsLargeEnoughMeaning(stored, requested[1..]);
      assert forall i :: 1 <= i < |requested| ==> requested[i] == requested[1..][i - 1];
    }
  }

  /** Comparing neighbours is enough: ascending neighbours make the whole list strictly ascending. */
  lemma {:induction false} AscendingMeaning(requested: seq<Part>)
    ensures Ascending(requested) <==>
      forall i, j :: 0 <= i < j < |requested| ==> requested[i].partNumber < requested[j].partNumber
  {
    if |requested| > 1 {
      AscendingMeaning(requested[1..]);
      assert forall i :: 1 <= i < |requested| ==> requested[i] == requested[1..][i - 1];
    }
  }

  /**
   * `completeMultipartUpload`'s validation: NoSuchUpload when the upload has no stored parts,
   * InvalidPart when a requested part number was never uploaded, EntityTooSmall when a requested
   * part other than the last is stored with fewer than 5 MiB, InvalidPartOrder when the requested
   * part numbers are not strictly ascending, and acceptance otherwise.
   */
  function ValidateCompletion(stored: seq<Part>, requested: seq<Part>): Verdict {
    if stored == [] then Rejected(NoSuchUpload)
    else if !AllUploaded(stored, requested) then Rejected(InvalidPart)
    else if !NonLastPartsLargeEnough(stored, requested) then Rejected(EntityTooSmall)
    else if !Ascending(requested) then Rejected(InvalidPartOrder)
    else Accepted
  }

  /** Each verdict, stated on the requested and stored parts themselves, with the earlier checks passing. */
  lemma ValidateCompletionMeaning(stored: seq<Part>, requested: seq<Part>)
    ensures ValidateCompletion(stored, requested) == Rejected(NoSuchUpload) <==> stored == []
    ensures ValidateCompletion(stored, requested) == Rejected(InvalidPart) <==>
      stored != [] && exists i :: 0 <= i < |requested| && !Uploaded(stored, requested[i].partNumber)
    ensures ValidateCompletion(stored, requested) == Rejected(EntityTooSmall) <==>
      && stored != []
      && (forall i :: 0 <= i < |requested| ==> Uploaded(stored, requested[i].partNumber))
      && exists i :: 0 <= i < |requested| - 1 && StoredSize(stored, requested[i].partNumber) < MINIMUM_PART_SIZE
    ensures ValidateCompletion(stored, requested) == Rejected(InvalidPartOrder) <==>
      && stored != []
      && (forall i :: 0 <= i < |requested| ==> Uploaded(stored, requested[i].partNumber))
      && (forall i :: 0 <= i < |requested| - 1 ==> StoredSize(stored, requested[i].partNumber) >= MINIMUM_PART_SIZE)
      && exists i, j :: 0 <= i < j < |requested| && requested[i].partNumber >= requested[j].partNumber
    ensures ValidateCompletion(stored, requested) == Accepted <==>
      && stored != []
      && (forall i :: 0 <= i < |requested| ==> Uploaded(stored, requested[i].partNumber))
      && (forall i :: 0 <= i < |requested| - 1 ==> StoredSize(stored, requested[i].partNumber) >= MINIMUM_PART_SIZE)
      && (forall i, j :: 0 <= i < j < |requested| ==> requested[i].partNumber < requested[j].partNumber)
  {
    AllUploadedMeaning(stored, requested);
    NonLastPartsLargeEnoughMeaning(stored, requested);
    AscendingMeaning(requested);
  }

  /** The last requested part is exempt from the size minimum: one uploaded part of any size completes. */
  lemma {:induction false} LastPartExempt(stored: seq<Part>, part: Part)
    requires Uploaded(stored, part.partNumber)
    ensures ValidateCompletion(stored, [part]) == Accepted
  {
    FindPartMeaning(stored, part.partNumber);
    assert [part][1..] == [];
    assert AllUploaded(stored, [part][1..]);
  }

  /**
   * Only the requested part numbers matter: the sizes carried by the request are never consulted,
   * the stored sizes are. Entity tags do not matter either, since this model does not compare them.
   */
  lemma {:induction false} VerdictIgnoresRequestedSizes(stored: seq<Part>, requested: seq<Part>, other: seq<Part>)
    requires |requested| == |other|
    requires forall i :: 0 <= i < |requested| ==> requested[i].partNumber == other[i].partNumber
    ensures ValidateCompletion(stored, requested) == ValidateCompletion(stored, other)
  {
    ValidateCompletionMeaning(stored, requested);
    ValidateCompletionMeaning(stored, other);
  }

  /** An accepted request names every stored part it uses at most once. */
  lemma AcceptedPartsAreDistinct(stored: seq<Part>, requested: seq<Part>)
    requires ValidateCompletion(stored, requested) == Accepted
    ensures forall i, j :: 0 <= i < j < |requested| ==> requested[i].partNumber != requested[j].partNumber
  {
    ValidateCompletionMeaning(stored, requested);
  }

  /** The S3 error code of a rejection. */
  function Code(r: Rejection): string {
    match r
    case NoSuchUpload => "NoSuchUpload"
    case InvalidPart => "InvalidPart"
    case EntityTooSmall => "EntityTooSmall"
    case InvalidPartOrder => "InvalidPartOrder"
  }

  /** The S3 error message of a rejection. */
  function Message(r: Rejection): string {
    match r
    case NoSuchUpload =>
      "The specified multipart upload does not exist. The upload ID might be invalid, "
      + "or the multipart upload might have been aborted or completed."
    case InvalidPart =>
      "One or more of the specified parts could not be found. The part might not have been "
      + "uploaded, or the specified entity tag might not have matched the part's entity tag."
    case EntityTooSmall =>
      "Your proposed upload is smaller than the minimum allowed object size. "
      + "Each part must be at least 5 MB in size, except the last part."
    case InvalidPartOrder =>
      "The list of parts was not in ascending order. The parts list must be specified in order by part number."
  }

  /** The error body sent for a rejection. */
  function ErrorBody(r: Rejection): ErrorResponse {
    ErrorResponse(Code(r), Message(r))
  }

  /** `createPart(partNumber, size)`: a part whose entity tag is `someEtag` followed by its number in decimal. */
  function CreatePart(partNumber: int, size: int): Part {
    Part(partNumber, size, "someEtag" + DecimalString(partNumber))
  }
}
