/**
 * The request-level decisions of `FileStoreController` that sit on top of the store: the outcome
 * of deleting a bucket, the validation of list-objects parameters and the listing it answers
 * with, and the response to a rejected multipart completion. The store is a collaborator whose
 * answers are inputs here; an answer that is an `IOException` is `IoFailure`.
 */
module FileStoreController {
  import opened Outcomes
  import opened Strings
  import opened KeyListing
  import opened Multipart

  /** The HTTP statuses the controller answers with. */
  datatype HttpStatus = Ok | NoContent | BadRequest | NotFound | Conflict | InternalServerError

  /** An object as the store reports it (`dto.S3Object`, reduced to what a listing shows). */
  datatype S3Object = S3Object(name: string, modificationDate: string, etag: string, size: string)

  /** The owner every listed content is reported with. */
  const OWNER: Owner := Owner(123, "s3-mock-file-store")

  /** The storage class every listed content is reported with. */
  const STORAGE_CLASS: string := "STANDARD"

  /** The number of keys a listing may return when the request names none. */
  const DEFAULT_MAX_KEYS: int := 1000

  /** The only encoding type a listing accepts. */
  const URL_ENCODING: string := "url"

  // Deleting a bucket

  /**
   * `deleteBucket`: the store lists the bucket's objects first; a failing listing is an internal
   * error and a non-empty bucket a conflict. Only an empty bucket is handed to the store's delete,
   * whose answer `deleted` decides between NoContent and NotFound.
   */
  function DeleteBucket(objects: Io<seq<S3Object>>, deleted: bool): HttpStatus {
    match objects
    case IoFailure => InternalServerError
    case Done(listed) =>
      if listed != [] then Conflict
      else if deleted then NoContent
      else NotFound
  }

  /** Each outcome of a bucket deletion, both ways. */
  lemma DeleteBucketMeaning(objects: Io<seq<S3Object>>, deleted: bool)
    ensures DeleteBucket(objects, deleted) == NoContent <==> objects == Done([]) && deleted
    ensures DeleteBucket(objects, deleted) == NotFound <==> objects == Done([]) && !deleted
    ensures DeleteBucket(objects, deleted) == Conflict <==> objects.Done? && |objects.value| > 0
    ensures DeleteBucket(objects, deleted) == InternalServerError <==> objects.IoFailure?
    ensures DeleteBucket(objects, deleted) in {NoContent, NotFound, Conflict, InternalServerError}
  {
  }

  /** A bucket that cannot be listed or is not empty is never deleted: the store's delete plays no part. */
  lemma DeleteBucketNeedsEmptyBucket(objects: Io<seq<S3Object>>)
    requires objects != Done([])
    ensures DeleteBucket(objects, true) == DeleteBucket(objects, false)
    ensures DeleteBucket(objects, true) != NoContent
  {
  }

  /** The four deletion cases: empty and deleted, empty and not found, one object, a failing listing. */
  lemma DeleteBucketCases()
    ensures DeleteBucket(Done([]), true) == NoContent
    ensures DeleteBucket(Done([]), false) == NotFound
    ensures DeleteBucket(Done([S3Object("", "", "", "")]), true) == Conflict
    ensures DeleteBucket(Done([S3Object("", "", "", "")]), false) == Conflict
    ensures DeleteBucket(IoFailure, true) == InternalServerError
  {
  }

  // Listing the objects of a bucket

  /** The query parameters of a list-objects request; an absent parameter is `None`. */
  datatype ListParameters = ListParameters(
    prefix: Option<string>,
    delimiter: Option<string>,
    maxKeys: Option<int>,
    encodingType: Option<string>)

  /** A successful listing (`dto.ListBucketResult`; marker fields are not modelled). */
  datatype ListBucketResult = ListBucketResult(
    name: string,
    prefix: Option<string>,
    maxKeys: int,
    isTruncated: bool,
    contents: seq<BucketContents>,
    commonPrefixes: set<string>)

  /** The answer to a list-objects request. */
  datatype ListResponse = Listed(result: ListBucketResult) | Failed(status: HttpStatus)

  /** The request's `max-keys`, or the default when it names none. */
  function EffectiveMaxKeys(params: ListParameters): int {
    match params.maxKeys
    case None => DEFAULT_MAX_KEYS
    case Some(n) => n
  }

  /** `max-keys` is not negative and `encoding-type`, when present, is `url`. */
  predicate ValidListParameters(params: ListParameters) {
    && EffectiveMaxKeys(params) >= 0
    && (params.encodingType.None? || params.encodingType.value == URL_ENCODING)
  }

  /** How a stored object is listed: under its name, with the fixed storage class and owner. */
  function ToBucketContents(o: S3Object): BucketContents {
    BucketContents(o.name, o.modificationDate, o.etag, o.size, STORAGE_CLASS, OWNER)
  }

  /** The listing of the store's objects, in the store's order. */
  function ContentsOfObjects(objects: seq<S3Object>): (r: seq<BucketContents>)
    ensures |r| == |objects|
    ensures forall i :: 0 <= i < |objects| ==> r[i] == ToBucketContents(objects[i])
  {
    if objects == [] then [] else [ToBucketContents(objects[0])] + ContentsOfObjects(objects[1..])
  }

  /**
   * The answer to a list-objects request: BadRequest for invalid parameters (checked before the
   * store is asked), InternalServerError when the store cannot list, and otherwise the objects
   * split into common prefixes and the contents under none of them. The listing is never truncated.
   */
  function ListObjectsResponse(bucket: string, params: ListParameters, objects: Io<seq<S3Object>>): ListResponse {
    if !ValidListParameters(params) then Failed(BadRequest)
    else if objects.IoFailure? then Failed(InternalServerError)
    else
      var contents := ContentsOfObjects(objects.value);
      var commonPrefixes := CommonPrefixes(OrEmpty(params.prefix), OrEmpty(params.delimiter), contents);
      Listed(ListBucketResult(bucket, params.prefix, EffectiveMaxKeys(params), false,
        FilterBucketContentsBy(contents, commonPrefixes), commonPrefixes))
  }

  /** `listObjectsInsideBucket`: validates, asks the store, collapses the common prefixes and filters. */
  method ListObjects(bucket: string, params: ListParameters, objects: Io<seq<S3Object>>) returns (response: ListResponse)
    ensures response == ListObjectsResponse(bucket, params, objects)
  {
    if params.maxKeys.Some? && params.maxKeys.value < 0 {
      return Failed(BadRequest);
    }
    if params.encodingType.Some? && params.encodingType.value != URL_ENCODING {
      return Failed(BadRequest);
    }
    if objects.IoFailure? {
      return Failed(InternalServerError);
    }
    var contents := ContentsOfObjects(objects.value);
    var commonPrefixes := CollapseCommonPrefixes(params.prefix, params.delimiter, contents);
    var kept := FilterBucketContentsBy(contents, commonPrefixes);
    response := Listed(ListBucketResult(bucket, params.prefix, EffectiveMaxKeys(params), false, kept, commonPrefixes));
  }

  /**
   * What a listing answer means: the rejections and failures, both ways, and for a success the
   * bucket, prefix and key limit echoed back, no truncation, and every stored object either listed
   * as a content or hidden under a common prefix, according to whether a delimiter follows the
   * prefix in its name.
   */
  lemma ListObjectsResponseMeaning(bucket: string, params: ListParameters, objects: Io<seq<S3Object>>)
    ensures ListObjectsResponse(bucket, params, objects) == Failed(BadRequest) <==>
      (params.maxKeys.Some? && params.maxKeys.value < 0) ||
      (params.encodingType.Some? && params.encodingType.value != URL_ENCODING)
    ensures ListObjectsResponse(bucket, params, objects) == Failed(InternalServerError) <==>
      ValidListParameters(params) && objects.IoFailure?
    ensures ListObjectsResponse(bucket, params, objects).Listed? <==>
      ValidListParameters(params) && objects.Done?
    ensures ListObjectsResponse(bucket, params, objects).Listed? ==>
      var r := ListObjectsResponse(bucket, params, objects).result;
      && r.name == bucket && r.prefix == params.prefix && !r.isTruncated
      && (params.maxKeys.None? ==> r.maxKeys == DEFAULT_MAX_KEYS)
      && (params.maxKeys.Some? ==> r.maxKeys == params.maxKeys.value >= 0)
      && (forall c :: c in r.contents ==>
            c.storageClass == STORAGE_CLASS && c.owner == OWNER &&
            exists o :: (o in objects.value && c.key == o.name && c.lastModified == o.modificationDate
              && c.etag == o.etag && c.size == o.size))
      && (forall p :: p in r.commonPrefixes <==>
            IsCommonPrefixFor(OrEmpty(params.prefix), OrEmpty(params.delimiter), p) &&
            exists o :: o in objects.value && StartsWith(o.name, p))
      && forall o :: o in objects.value ==>
           (ToBucketContents(o) in r.contents <==>
             !(OrEmpty(params.delimiter) != [] && StartsWith(o.name, OrEmpty(params.prefix)) &&
               exists i :: |OrEmpty(params.prefix)| <= i && OccursAt(o.name, OrEmpty(params.delimiter), i)))
  {
    if ValidListParameters(params) && objects.Done? {
      var contents := ContentsOfObjects(objects.value);
      var r := ListObjectsResponse(bucket, params, objects).result;
      forall c | c in r.contents
        ensures c.storageClass == STORAGE_CLASS && c.owner == OWNER
        ensures exists o :: (o in objects.value && c.key == o.name && c.lastModified == o.modificationDate
          && c.etag == o.etag && c.size == o.size)
      {
        var k :| 0 <= k < |contents| && contents[k] == c;
        assert objects.value[k] in objects.value;
      }
      forall p
        ensures p in r.commonPrefixes <==>
          IsCommonPrefixFor(OrEmpty(params.prefix), OrEmpty(params.delimiter), p) &&
          exists o :: o in objects.value && StartsWith(o.name, p)
      {
        StoreCommonPrefixes(OrEmpty(params.prefix), OrEmpty(params.delimiter), objects.value, p);
      }
      forall o | o in objects.value
        ensures ToBucketContents(o) in ListObjectsResponse(bucket, params, objects).result.contents <==>
          !(OrEmpty(params.delimiter) != [] && StartsWith(o.name, OrEmpty(params.prefix)) &&
            exists i :: |OrEmpty(params.prefix)| <= i && OccursAt(o.name, OrEmpty(params.delimiter), i))
      {
        var k :| 0 <= k < |objects.value| && objects.value[k] == o;
        assert contents[k] == ToBucketContents(o);
        ListingPartition(OrEmpty(params.prefix), OrEmpty(params.delimiter), contents, ToBucketContents(o));
      }
    }
  }

  /**
   * A listing's contents are exactly the stored objects that contribute no common prefix, in the
   * store's order and with the store's multiplicity.
   */
  lemma ListedContentsInOrder(bucket: string, params: ListParameters, objects: Io<seq<S3Object>>)
    ensures ListObjectsResponse(bucket, params, objects).Listed? ==>
      ListObjectsResponse(bucket, params, objects).result.contents ==
        Ungrouped(OrEmpty(params.prefix), OrEmpty(params.delimiter), ContentsOfObjects(objects.value))
  {
    if ValidListParameters(params) && objects.Done? {
      var contents := ContentsOfObjects(objects.value);
      FilterByOwnPrefixes(OrEmpty(params.prefix), OrEmpty(params.delimiter), contents, contents);
    }
  }

  /** The common prefixes of the listed objects, described on the store's objects themselves. */
  lemma StoreCommonPrefixes(prefix: string, delimiter: string, objects: seq<S3Object>, p: string)
    ensures p in CommonPrefixes(prefix, delimiter, ContentsOfObjects(objects)) <==>
      IsCommonPrefixFor(prefix, delimiter, p) && exists o :: o in objects && StartsWith(o.name, p)
  {
    var contents := ContentsOfObjects(objects);
    CommonPrefixesCharacterized(prefix, delimiter, contents, p);
    if exists o :: o in objects && StartsWith(o.name, p) {
      var o :| o in objects && StartsWith(o.name, p);
      var k :| 0 <= k < |objects| && objects[k] == o;
      assert contents[k] in contents;
    }
    if exists c :: c in contents && StartsWith(c.key, p) {
      var c :| c in contents && StartsWith(c.key, p);
      var k :| 0 <= k < |contents| && contents[k] == c;
      assert objects[k] in objects;
    }
  }

  /** A negative `max-keys` and an unknown `encoding-type` are both rejected, whatever the store holds. */
  lemma ListObjectsBadRequest(objects: Io<seq<S3Object>>)
    ensures ListObjectsResponse("testBucket", ListParameters(None, None, Some(-1), None), objects) == Failed(BadRequest)
    ensures ListObjectsResponse("testBucket", ListParameters(None, None, None, Some("not_valid")), objects) == Failed(BadRequest)
  {
  }

  /**
   * An empty `encoding-type` is not absent: it is rejected, with or without an empty prefix, whereas
   * an empty delimiter gives the same answer as an absent one.
   */
  lemma EmptyEncodingTypeRejected(objects: Io<seq<S3Object>>)
    ensures ListObjectsResponse("testBucket", ListParameters(None, None, None, Some("")), objects) == Failed(BadRequest)
    ensures ListObjectsResponse("testBucket", ListParameters(Some(""), None, None, Some("")), objects) == Failed(BadRequest)
    ensures ListObjectsResponse("testBucket", ListParameters(Some(""), Some(""), None, None), objects)
      == ListObjectsResponse("testBucket", ListParameters(Some(""), None, None, None), objects)
  {
  }

  /** A store that cannot list makes a valid request an internal error. */
  lemma ListObjectsInternalServerError()
    ensures ListObjectsResponse("testBucket", ListParameters(None, None, None, None), IoFailure) == Failed(InternalServerError)
  {
  }

  /**
   * One stored object `key` without prefix or delimiter: listed with the fixed storage class and
   * owner, the default key limit, no truncation and no common prefixes.
   */
  lemma ListObjectsOk()
    ensures ListObjectsResponse("testBucket", ListParameters(None, None, None, None),
        Done([S3Object("key", "1234", "etag", "size")]))
      == Listed(ListBucketResult("testBucket", None, 1000, false,
           [BucketContents("key", "1234", "etag", "size", "STANDARD", Owner(123, "s3-mock-file-store"))], {}))
  {
    var contents := ContentsOfObjects([S3Object("key", "1234", "etag", "size")]);
    NoDelimiterKeepsEverything(None, None, contents);
  }

  // Completing a multipart upload

  /** The answer to a completion request: success, or an error status with its S3 error body. */
  datatype CompletionResponse = Completed | Error(status: HttpStatus, body: ErrorResponse)

  /** An unknown upload is NotFound; every other rejection is a BadRequest. */
  function RejectionStatus(r: Rejection): HttpStatus {
    if r == NoSuchUpload then NotFound else BadRequest
  }

  /** `completeMultipartUpload`: the validation verdict, answered with its status and error body. */
  function CompleteMultipartUpload(stored: seq<Part>, requested: seq<Part>): CompletionResponse {
    match ValidateCompletion(stored, requested)
    case Accepted => Completed
    case Rejected(reason) => Error(RejectionStatus(reason), ErrorBody(reason))
  }

  /** NotFound with the NoSuchUpload body exactly when the upload has no stored parts. */
  lemma CompleteUnknownUploadMeaning(stored: seq<Part>, requested: seq<Part>)
    ensures CompleteMultipartUpload(stored, requested) == Error(NotFound, ErrorBody(NoSuchUpload)) <==> stored == []
  {
    ValidateCompletionMeaning(stored, requested);
    RejectionFromBody(stored, requested, NoSuchUpload);
  }

  /** BadRequest with the InvalidPart body exactly when parts are stored but a requested number is not among them. */
  lemma CompleteInvalidPartMeaning(stored: seq<Part>, requested: seq<Part>)
    ensures CompleteMultipartUpload(stored, requested) == Error(BadRequest, ErrorBody(InvalidPart)) <==>
      stored != [] && exists i :: 0 <= i < |requested| && !Uploaded(stored, requested[i].partNumber)
  {
    ValidateCompletionMeaning(stored, requested);
    RejectionFromBody(stored, requested, InvalidPart);
  }

  /** BadRequest with the EntityTooSmall body exactly when the part check passes and a non-last part is stored too small. */
  lemma CompleteTooSmallMeaning(stored: seq<Part>, requested: seq<Part>)
    ensures CompleteMultipartUpload(stored, requested) == Error(BadRequest, ErrorBody(EntityTooSmall)) <==>
      && stored != []
      && (forall i :: 0 <= i < |requested| ==> Uploaded(stored, requested[i].partNumber))
      && exists i :: 0 <= i < |requested| - 1 && StoredSize(stored, requested[i].partNumber) < MINIMUM_PART_SIZE
  {
    ValidateCompletionMeaning(stored, requested);
    RejectionFromBody(stored, requested, EntityTooSmall);
  }

  /** BadRequest with the InvalidPartOrder body exactly when the part and size checks pass and the numbers are not strictly ascending. */
  lemma CompleteInvalidOrderMeaning(stored: seq<Part>, requested: seq<Part>)
    ensures CompleteMultipartUpload(stored, requested) == Error(BadRequest, ErrorBody(InvalidPartOrder)) <==>
      && stored != []
      && (forall i :: 0 <= i < |requested| ==> Uploaded(stored, requested[i].partNumber))
      && (forall i :: 0 <= i < |requested| - 1 ==> StoredSize(stored, requested[i].partNumber) >= MINIMUM_PART_SIZE)
      && exists i, j :: 0 <= i < j < |requested| && requested[i].partNumber >= requested[j].partNumber
  {
    ValidateCompletionMeaning(stored, requested);
    RejectionFromBody(stored, requested, InvalidPartOrder);
  }

  /** The completion succeeds exactly when every check passes. */
  lemma CompleteSucceedsMeaning(stored: seq<Part>, requested: seq<Part>)
    ensures CompleteMultipartUpload(stored, requested) == Completed <==>
      && stored != []
      && (forall i :: 0 <= i < |requested| ==> Uploaded(stored, requested[i].partNumber))
      && (forall i :: 0 <= i < |requested| - 1 ==> StoredSize(stored, requested[i].partNumber) >= MINIMUM_PART_SIZE)
      && (forall i, j :: 0 <= i < j < |requested| ==> requested[i].partNumber < requested[j].partNumber)
  {
    ValidateCompletionMeaning(stored, requested);
  }

  /** An error answer carrying the body of a rejection was caused by that rejection. */
  lemma RejectionFromBody(stored: seq<Part>, requested: seq<Part>, reason: Rejection)
    ensures CompleteMultipartUpload(stored, requested) == Error(RejectionStatus(reason), ErrorBody(reason)) <==>
      ValidateCompletion(stored, requested) == Rejected(reason)
  {
    var v := ValidateCompletion(stored, requested);
    var r := CompleteMultipartUpload(stored, requested);
    if r == Error(RejectionStatus(reason), ErrorBody(reason)) {
      assert v.Rejected? && r.body == ErrorBody(v.reason);
      CodeDeterminesRejection(v.reason, reason);
    }
  }

  /** Different rejections have error codes of different lengths, so a code names its rejection. */
  lemma CodeDeterminesRejection(a: Rejection, b: Rejection)
    requires |Code(a)| == |Code(b)|
    ensures a == b
  {
  }

  /** A request naming no parts completes any upload that has stored parts. */
  lemma EmptyRequestCompletes(stored: seq<Part>)
    requires stored != []
    ensures CompleteMultipartUpload(stored, []) == Completed
  {
    CompleteSucceedsMeaning(stored, []);
  }

  /** Two 5-byte parts: the first is below the minimum, so the request is too small. */
  lemma CompleteUploadTooSmall()
    ensures CompleteMultipartUpload([CreatePart(0, 5), CreatePart(1, 5)], [CreatePart(0, 5), CreatePart(1, 5)])
      == Error(BadRequest, ErrorBody(EntityTooSmall))
  {
    TooSmallVerdict(CreatePart(0, 5), CreatePart(1, 5));
    RejectionFromBody([CreatePart(0, 5), CreatePart(1, 5)], [CreatePart(0, 5), CreatePart(1, 5)], EntityTooSmall);
  }

  /** The verdict of the too-small case, for any parts with those numbers and sizes. */
  lemma TooSmallVerdict(a: Part, b: Part)
    requires a.partNumber == 0 && a.size == 5 && b.partNumber == 1 && b.size == 5
    ensures ValidateCompletion([a, b], [a, b]) == Rejected(EntityTooSmall)
  {
    assert [a, b][1..] == [b] && [b][1..] == [];
    assert FindPart([a, b], 0) == Some(a) && FindPart([a, b], 1) == Some(b);
    assert AllUploaded([a, b], [b]);
    assert StoredSize([a, b], 0) == 5;
  }

  /** No stored parts: the upload is unknown although the requested parts would also be too small. */
  lemma CompleteUploadIdNotFound()
    ensures CompleteMultipartUpload([], [CreatePart(0, 5), CreatePart(1, 5)])
      == Error(NotFound, ErrorBody(NoSuchUpload))
  {
    UnknownUploadVerdict(CreatePart(0, 5), CreatePart(1, 5));
    RejectionFromBody([], [CreatePart(0, 5), CreatePart(1, 5)], NoSuchUpload);
  }

  /** The verdict of the unknown-upload case, for any two requested parts. */
  lemma UnknownUploadVerdict(a: Part, b: Part)
    ensures ValidateCompletion([], [a, b]) == Rejected(NoSuchUpload)
  {
  }

  /** Part 0 is stored and part 1 is requested: the requested part was never uploaded. */
  lemma CompletePartNotFound()
    ensures CompleteMultipartUpload([CreatePart(0, 5)], [CreatePart(1, 5)])
      == Error(BadRequest, ErrorBody(InvalidPart))
  {
    PartNotFoundVerdict(CreatePart(0, 5), CreatePart(1, 5));
    RejectionFromBody([CreatePart(0, 5)], [CreatePart(1, 5)], InvalidPart);
  }

  /** The verdict of the missing-part case, for any parts with those numbers. */
  lemma PartNotFoundVerdict(a: Part, b: Part)
    requires a.partNumber == 0 && b.partNumber == 1
    ensures ValidateCompletion([a], [b]) == Rejected(InvalidPart)
  {
    assert FindPart([a], 1) == None;
  }

  /**
   * Parts 0 and 1 are stored with 10000000 bytes each and requested as 1, 0 with 5 bytes each: the
   * stored sizes pass the minimum, and the descending order is rejected.
   */
  lemma CompleteInvalidPartOrder()
    ensures CompleteMultipartUpload([CreatePart(0, 10000000), CreatePart(1, 10000000)], [CreatePart(1, 5), CreatePart(0, 5)])
      == Error(BadRequest, ErrorBody(InvalidPartOrder))
  {
    InvalidOrderVerdict(CreatePart(0, 10000000), CreatePart(1, 10000000), CreatePart(1, 5), CreatePart(0, 5));
    RejectionFromBody([CreatePart(0, 10000000), CreatePart(1, 10000000)], [CreatePart(1, 5), CreatePart(0, 5)],
      InvalidPartOrder);
  }

  /** The verdict of the out-of-order case, for any parts with those numbers and stored sizes. */
  lemma InvalidOrderVerdict(a: Part, b: Part, c: Part, d: Part)
    requires a.partNumber == 0 && a.size == 10000000 && b.partNumber == 1 && b.size == 10000000
    requires c.partNumber == 1 && d.partNumber == 0
    ensures ValidateCompletion([a, b], [c, d]) == Rejected(InvalidPartOrder)
  {
    assert [a, b][1..] == [b] && [c, d][1..] == [d] && [d][1..] == [];
    assert FindPart([a, b], 0) == Some(a) && FindPart([a, b], 1) == Some(b);
    assert AllUploaded([a, b], [d]);
    assert StoredSize([a, b], 1) == 10000000;
    assert NonLastPartsLargeEnough([a, b], [d]);
  }
}
