# S3Mock `FileStoreController`: listing, multipart completion and request outcomes

This project models the deterministic core of S3Mock's `FileStoreController`, the Spring controller
that serves the S3 REST API over a file-backed store. The controller's behaviour is taken from the
contract its unit test `FileStoreControllerTest` pins down, case by case. The controller's own
source is not part of this model.

The model has five modules:

- `Outcomes` (`outcomes.dfy`): `Option`, the `Io` result of a store call that can throw an
  `IOException`, and `OrEmpty`, which reads a null string parameter as the empty string.
- `Strings` (`strings.dfy`): Java's `startsWith`, and `indexOf(delimiter, from)` for a non-empty
  delimiter, on `seq<char>`, each with a lemma saying what it means index by index. The listing
  only searches for a delimiter it has already found non-empty, so Java's answer for an empty
  needle is not modelled.
- `KeyListing` (`key_listing.dfy`): the key-listing engine.
  - `collapseCommonPrefixes` is a method. Its loop accumulates a set; it is
    proved equal to the recursive specification `CommonPrefixes`.
  - `filterBucketContentsBy` is a function.
  - Lemmas characterise the common prefixes independently of how they are computed. Others show
    that filtering a listing by its own common prefixes keeps exactly the keys in which no
    delimiter follows the prefix.
- `ListingFixture` (`fixture.dfy`):
  - the fourteen `ALL_OBJECTS` keys;
  - the builder `createBucketContentsList` as a method with a loop;
  - every row of the parameterised `data()` table, and the four direct common-prefix tests, each
    proved as an exact result.
- `Multipart` (`multipart.dfy`): validation of a CompleteMultipartUpload request against the
  stored parts. The rejection reasons, in the order they are checked:
  1. `NoSuchUpload`: there are no stored parts.
  2. `InvalidPart`: a requested part number was never uploaded.
  3. `EntityTooSmall`: a part other than the last is stored with less than 5 MiB.
  4. `InvalidPartOrder`: the requested part numbers are not strictly ascending.
- `FileStoreController` (`controller.dfy`): the request-level outcomes.
  - Bucket deletion.
  - List-objects parameter validation, and the listing built from the store's objects.
  - The HTTP status and S3 error body of a rejected multipart completion.

The store is a collaborator whose answers are inputs:
- an object list, or `IoFailure` when the store throws;
- whether its delete succeeded;
- the stored parts of an upload.

Design choices the test leaves open:

- **Keys that equal a common prefix.** The filter drops a content whose key starts with a common
  prefix. A key that is itself a common prefix (a key ending in the delimiter) is therefore
  dropped too (`KeyListing.KeyEqualToCommonPrefixIsDropped`). Some descriptions of the filter
  say such a key is retained instead. The fixture has no key ending in a delimiter, so the table
  cannot tell the two readings apart; this model follows `startsWith`.
- **Which sizes the minimum-size check reads.** The test builds the requested parts with sizes,
  but the check ignores them and reads the size of the stored part with the same number. This is what makes
  the `invalidPartOrder` case reach the order check: it requests 5-byte parts that are stored
  with 10000000 bytes.
- **A key that begins with the delimiter.** With no prefix and delimiter `/`, a key `/x`
  contributes the common prefix `/` (`KeyListing.LeadingDelimiterGroups`): the segment before
  the delimiter may be empty.
- **An empty part list.** A completion request that names no parts is accepted whenever the
  upload has stored parts (`FileStoreController.EmptyRequestCompletes`): each check then holds
  vacuously.
- **An empty `encoding-type`.** An empty prefix is grouped and filtered like an absent one (the
  answer still echoes the empty prefix), and an empty delimiter gives the same answer as an absent
  one. The test does not decide an empty `encoding-type`: it only shows `not_valid` rejected.
  This model rejects an empty `encoding-type` as a BadRequest, accepting only an absent value or
  `url` (`FileStoreController.EmptyEncodingTypeRejected`).
- **Order beyond the test.** The test compares keys and prefixes without regard to order. The
  fixture lemmas state the exact sequence of kept keys, in the fixture's order.

## Model

| member | source | states |
|---|---|---|
| KeyListing.GroupOfMeaning | server/src/test/java/com/adobe/testing/s3mock/FileStoreControllerTest.java:538-544 | a key contributes a common prefix exactly when the delimiter is non-empty, the key starts with the prefix and the delimiter occurs at or after the prefix's end; the contribution is a prefix of the key made of the query prefix, a segment without delimiter, and the delimiter |
| KeyListing.GroupOfCharacterized | server/src/test/java/com/adobe/testing/s3mock/FileStoreControllerTest.java:538-544 | a key's contribution is the one prefix of the key of that shape, so it ends at the first delimiter after the query prefix |
| KeyListing.LeadingDelimiterGroups | server/src/test/java/com/adobe/testing/s3mock/FileStoreControllerTest.java:531-532 | with no prefix and `/`, the key `/x` contributes the common prefix `/` |
| KeyListing.CommonPrefixesMembers | server/src/test/java/com/adobe/testing/s3mock/FileStoreControllerTest.java:531-532 | the common prefixes are exactly the contributions of the listed keys; keys with the same contribution collapse to one set element |
| KeyListing.CommonPrefixesCharacterized | server/src/test/java/com/adobe/testing/s3mock/FileStoreControllerTest.java:594-611 | independent description: the common prefixes are exactly the strings prefix + segment + delimiter that some listed key starts with |
| KeyListing.EmptyDelimiterNeverGroups | server/src/test/java/com/adobe/testing/s3mock/FileStoreControllerTest.java:573-591 | an empty delimiter yields no common prefixes, whatever the prefix and the keys |
| KeyListing.CommonPrefixesDependOnlyOnMatchingKeys | server/src/test/java/com/adobe/testing/s3mock/FileStoreControllerTest.java:603-611 | keys outside the prefix never contribute: removing or adding them leaves the common prefixes unchanged |
| KeyListing.CollapseCommonPrefixes | server/src/test/java/com/adobe/testing/s3mock/FileStoreControllerTest.java:554 | the loop's accumulated set equals the common prefixes of the contents, with a null prefix or delimiter read as empty |
| KeyListing.FilterBucketContentsBy | server/src/test/java/com/adobe/testing/s3mock/FileStoreControllerTest.java:556-557 | a content is in the result exactly when it is in the input and its key starts with none of the common prefixes; each kept content occurs as often as in the input, each dropped one not at all; no common prefixes keeps the input unchanged |
| KeyListing.KeyEqualToCommonPrefixIsDropped | server/src/test/java/com/adobe/testing/s3mock/FileStoreControllerTest.java:556-557 | a content whose key is itself one of the common prefixes is not kept |
| KeyListing.UnderNoneIffUngrouped | server/src/test/java/com/adobe/testing/s3mock/FileStoreControllerTest.java:538-540 | a listed key falls under none of the listing's common prefixes exactly when it contributes none itself (`b` with `b/`, `b/1` with `b/1/` are kept) |
| KeyListing.FilterByOwnPrefixes | server/src/test/java/com/adobe/testing/s3mock/FileStoreControllerTest.java:550-570 | filtering a listing (or any part of it) by the listing's own common prefixes gives, in order, exactly the contents that contribute no common prefix |
| KeyListing.ListingPartition | server/src/test/java/com/adobe/testing/s3mock/FileStoreControllerTest.java:531-544 | a content is listed exactly when it is not the case that the delimiter is non-empty, the key starts with the prefix and a delimiter follows the prefix in the key |
| KeyListing.NoDelimiterKeepsEverything | server/src/test/java/com/adobe/testing/s3mock/FileStoreControllerTest.java:528-537 | with a null or empty delimiter there are no common prefixes and every content is kept, in order |
| ListingFixture.CreateBucketContentsList | server/src/test/java/com/adobe/testing/s3mock/FileStoreControllerTest.java:618-629 | the loop builds one content per key that starts with the prefix, in order; a null or empty prefix keeps every key |
| ListingFixture.KeysOfContentsOf | server/src/test/java/com/adobe/testing/s3mock/FileStoreControllerTest.java:631-638 | reading the keys back from built contents gives the keys they were built from |
| ListingFixture.KeysUnderMembers | server/src/test/java/com/adobe/testing/s3mock/FileStoreControllerTest.java:621-625 | the builder's prefix filter keeps exactly the keys that start with the prefix |
| ListingFixture.KeysUnderShrinks | server/src/test/java/com/adobe/testing/s3mock/FileStoreControllerTest.java:618-629 | the builder never adds or repeats a key |
| ListingFixture.KeysUnderEmptyPrefix | server/src/test/java/com/adobe/testing/s3mock/FileStoreControllerTest.java:613-625 | an empty prefix keeps every key, in order |
| ListingFixture.FixtureKeysUnder | server/src/test/java/com/adobe/testing/s3mock/FileStoreControllerTest.java:85-90 | the fixture keys under each prefix the table uses (`""`, `/`, `b`, `b/`, `b/1`, `b/1/`, `c`, `c/`, `eor`) |
| ListingFixture.FixtureWithoutDelimiter | server/src/test/java/com/adobe/testing/s3mock/FileStoreControllerTest.java:528-537 | a table case without delimiter reports no common prefixes and keeps every fixture key under its prefix |
| ListingFixture.DataWithoutDelimiter | server/src/test/java/com/adobe/testing/s3mock/FileStoreControllerTest.java:528-537 | the rows with a null or empty delimiter: no prefixes; all fourteen keys, none for `/`, the five `b` keys for `b`, four for `b/` |
| ListingFixture.DataNoPrefixSlash | server/src/test/java/com/adobe/testing/s3mock/FileStoreControllerTest.java:531-532 | row (null, `/`): prefixes exactly `3330/`, `foo/`, `c/`, `b/`, `33309/`; keys exactly `a`, `b`, `d:1`, `d:1:1`, `eor.txt` |
| ListingFixture.DataBSlash | server/src/test/java/com/adobe/testing/s3mock/FileStoreControllerTest.java:538 | row (`b`, `/`): prefixes exactly `b/`, keys exactly `b` |
| ListingFixture.DataBSlashSlash | server/src/test/java/com/adobe/testing/s3mock/FileStoreControllerTest.java:539 | row (`b/`, `/`): prefixes exactly `b/1/`, keys exactly `b/1`, `b/2` |
| ListingFixture.DataB1Slash | server/src/test/java/com/adobe/testing/s3mock/FileStoreControllerTest.java:540 | row (`b/1`, `/`): prefixes exactly `b/1/`, keys exactly `b/1` |
| ListingFixture.DataB1SlashSlash | server/src/test/java/com/adobe/testing/s3mock/FileStoreControllerTest.java:541 | row (`b/1/`, `/`): no prefixes, keys exactly `b/1/1`, `b/1/2` |
| ListingFixture.DataCSlash | server/src/test/java/com/adobe/testing/s3mock/FileStoreControllerTest.java:542 | row (`c`, `/`): prefixes exactly `c/`, no keys |
| ListingFixture.DataCSlashSlash | server/src/test/java/com/adobe/testing/s3mock/FileStoreControllerTest.java:543 | row (`c/`, `/`): prefixes exactly `c/1/`, keys exactly `c/1` |
| ListingFixture.DataEorSlash | server/src/test/java/com/adobe/testing/s3mock/FileStoreControllerTest.java:544 | row (`eor`, `/`): no prefixes, keys exactly `eor.txt` |
| ListingFixture.CommonPrefixesOfFixture | server/src/test/java/com/adobe/testing/s3mock/FileStoreControllerTest.java:573-611 | over all fourteen keys: no delimiter gives no prefixes for `""` and `prefixa`; `/` gives exactly five; prefix `3330` with `/` gives exactly `3330/` and `33309/` |
| Multipart.FindPartMeaning | server/src/test/java/com/adobe/testing/s3mock/FileStoreControllerTest.java:429-459 | looking up a part number finds a stored part exactly when one was uploaded, and what it finds is a stored part with that number |
| Multipart.AllUploadedMeaning | server/src/test/java/com/adobe/testing/s3mock/FileStoreControllerTest.java:429-459 | the part check passes exactly when every requested part number was uploaded |
| Multipart.NonLastPartsLargeEnoughMeaning | server/src/test/java/com/adobe/testing/s3mock/FileStoreControllerTest.java:370-395 | the size check passes exactly when every requested part but the last is stored with at least 5 MiB |
| Multipart.AscendingMeaning | server/src/test/java/com/adobe/testing/s3mock/FileStoreControllerTest.java:463-493 | comparing neighbours decides strict ascending order of all requested part numbers |
| Multipart.ValidateCompletionMeaning | server/src/test/java/com/adobe/testing/s3mock/FileStoreControllerTest.java:370-493 | each verdict both ways: NoSuchUpload iff nothing is stored; InvalidPart iff a requested number is missing; EntityTooSmall iff all are present and a non-last part is too small; InvalidPartOrder iff those pass and the numbers are not strictly ascending; acceptance iff all checks pass |
| Multipart.LastPartExempt | server/src/test/java/com/adobe/testing/s3mock/FileStoreControllerTest.java:386-387 | a single uploaded part completes whatever its size: the last part is exempt from the minimum |
| Multipart.VerdictIgnoresRequestedSizes | server/src/test/java/com/adobe/testing/s3mock/FileStoreControllerTest.java:463-493 | two requests with the same part numbers get the same verdict, whatever sizes they carry (entity tags are not compared in this model) |
| Multipart.AcceptedPartsAreDistinct | server/src/test/java/com/adobe/testing/s3mock/FileStoreControllerTest.java:463-493 | an accepted request names no part number twice |
| FileStoreController.DeleteBucketMeaning | server/src/test/java/com/adobe/testing/s3mock/FileStoreControllerTest.java:188-243 | each deletion outcome both ways: NoContent iff the bucket lists empty and the store deletes it; NotFound iff it lists empty and the delete fails; Conflict iff it lists objects; InternalServerError iff listing throws |
| FileStoreController.DeleteBucketNeedsEmptyBucket | server/src/test/java/com/adobe/testing/s3mock/FileStoreControllerTest.java:216-243 | for a bucket that lists objects or cannot be listed, the store's delete answer does not matter and the deletion never succeeds |
| FileStoreController.DeleteBucketCases | server/src/test/java/com/adobe/testing/s3mock/FileStoreControllerTest.java:188-243 | the four deletions the unit test pins down: NoContent, NotFound, Conflict for one object, InternalServerError for a throwing listing |
| FileStoreController.ContentsOfObjects | server/src/test/java/com/adobe/testing/s3mock/FileStoreControllerTest.java:278-298 | one listed content per stored object, in the store's order |
| FileStoreController.ListObjects | server/src/test/java/com/adobe/testing/s3mock/FileStoreControllerTest.java:246-298 | validation, the store's answer, the collapse loop and the filter together give the listing answer `ListObjectsResponse` |
| FileStoreController.ListObjectsResponseMeaning | server/src/test/java/com/adobe/testing/s3mock/FileStoreControllerTest.java:246-298 | BadRequest iff `max-keys` is negative or `encoding-type` is present and not `url`; InternalServerError iff the parameters are valid and the store throws; otherwise a listing that echoes bucket and prefix, reports the requested key limit or the default 1000, is not truncated, lists each content with a stored object's name, date, entity tag and size, storage class `STANDARD` and owner 123 `s3-mock-file-store`, lists a stored object exactly when no delimiter follows the prefix in its name, and reports as common prefixes exactly the strings prefix + segment + delimiter that some stored name starts with |
| FileStoreController.ListedContentsInOrder | server/src/test/java/com/adobe/testing/s3mock/FileStoreControllerTest.java:278-298 | a listing's contents are exactly the stored objects that contribute no common prefix, in the store's order and with the store's repetitions |
| FileStoreController.StoreCommonPrefixes | server/src/test/java/com/adobe/testing/s3mock/FileStoreControllerTest.java:278-298 | the listing's common prefixes are exactly the strings prefix + segment + delimiter that some stored object's name starts with |
| FileStoreController.EmptyEncodingTypeRejected | server/src/test/java/com/adobe/testing/s3mock/FileStoreControllerTest.java:246-261 | an empty `encoding-type` is a BadRequest, whether or not an empty prefix accompanies it; an empty delimiter gives the same answer as an absent one |
| FileStoreController.ListObjectsBadRequest | server/src/test/java/com/adobe/testing/s3mock/FileStoreControllerTest.java:246-261 | `max-keys` -1 and `encoding-type` `not_valid` are each a BadRequest, whatever the store holds |
| FileStoreController.ListObjectsInternalServerError | server/src/test/java/com/adobe/testing/s3mock/FileStoreControllerTest.java:263-276 | a throwing store makes a plain listing an InternalServerError |
| FileStoreController.ListObjectsOk | server/src/test/java/com/adobe/testing/s3mock/FileStoreControllerTest.java:278-298 | one stored object `key` is listed as `BucketContents(key, 1234, etag, size, STANDARD, owner)` with key limit 1000, no truncation and no common prefixes |
| FileStoreController.CompleteUnknownUploadMeaning | server/src/test/java/com/adobe/testing/s3mock/FileStoreControllerTest.java:399-426 | completion answers NotFound with the NoSuchUpload body exactly when the upload has no stored parts |
| FileStoreController.CompleteInvalidPartMeaning | server/src/test/java/com/adobe/testing/s3mock/FileStoreControllerTest.java:429-460 | completion answers BadRequest with the InvalidPart body exactly when parts are stored and some requested part number was never uploaded |
| FileStoreController.CompleteTooSmallMeaning | server/src/test/java/com/adobe/testing/s3mock/FileStoreControllerTest.java:370-396 | completion answers BadRequest with the EntityTooSmall body exactly when parts are stored, every requested number was uploaded, and some requested part other than the last is stored with less than 5 MiB |
| FileStoreController.CompleteInvalidOrderMeaning | server/src/test/java/com/adobe/testing/s3mock/FileStoreControllerTest.java:463-494 | completion answers BadRequest with the InvalidPartOrder body exactly when the earlier checks pass and the requested part numbers are not strictly ascending |
| FileStoreController.CompleteSucceedsMeaning | server/src/test/java/com/adobe/testing/s3mock/FileStoreControllerTest.java:370-494 | completion succeeds exactly when parts are stored, every requested number was uploaded, every non-last requested part is stored with at least 5 MiB, and the numbers strictly ascend |
| FileStoreController.RejectionFromBody | server/src/test/java/com/adobe/testing/s3mock/FileStoreControllerTest.java:394-494 | the completion answer carries a rejection's status and error body exactly when validation rejects for that reason: distinct reasons give distinct bodies |
| FileStoreController.EmptyRequestCompletes | server/src/test/java/com/adobe/testing/s3mock/FileStoreControllerTest.java:370-494 | with stored parts, a request that names no parts completes |
| FileStoreController.CompleteUploadTooSmall | server/src/test/java/com/adobe/testing/s3mock/FileStoreControllerTest.java:370-396 | two stored and requested 5-byte parts: BadRequest with the EntityTooSmall body |
| FileStoreController.CompleteUploadIdNotFound | server/src/test/java/com/adobe/testing/s3mock/FileStoreControllerTest.java:399-426 | no stored parts: NotFound with the NoSuchUpload body, although the requested parts are also too small |
| FileStoreController.CompletePartNotFound | server/src/test/java/com/adobe/testing/s3mock/FileStoreControllerTest.java:429-460 | part 0 stored, part 1 requested: BadRequest with the InvalidPart body |
| FileStoreController.CompleteInvalidPartOrder | server/src/test/java/com/adobe/testing/s3mock/FileStoreControllerTest.java:463-494 | parts 0 and 1 stored with 10000000 bytes, requested as 1, 0: BadRequest with the InvalidPartOrder body |

## Left out

- The controller's source (`FileStoreController.java`) is not part of this model. Its behaviour is the contract the test asserts, together with the design choices listed above.
- HTTP dispatch, MockMvc, media types and XML (de)serialisation are framework glue. Responses are modelled as datatypes.
- Listing buckets is left out: it only echoes the store's bucket list with the fixed owner.
- Head bucket and create bucket are left out: each only maps one store call to success or failure.
- The Content-MD5 check of a put-object request is left out. It needs an MD5 digest and its Base64 form, which this model does not compute.
- The mocked `FileStore` and `KmsKeyStore` are left out. The store's answers are parameters instead, and file I/O and timestamps are left out. The bucket lookup (`givenBucket`) is left out as well: every case assumes the bucket exists, and the model has no unknown-bucket outcome.
- FileStoreController.ListObjects: never truncates at `max-keys`, and reports no markers. `url` encoding of the returned keys and the parsing of `max-keys` from its query string (a non-numeric value) are not modelled.
- Multipart.ValidateCompletion: matches requested parts to stored parts by part number only. The entity-tag comparison that the InvalidPart message mentions is not modelled.
- Multipart.VerdictIgnoresRequestedSizes: its claim that the entity tags a request carries never change the verdict holds only because the entity-tag comparison is not modelled; the InvalidPart message names a mismatching entity tag as one cause of that rejection.
- Multipart.FindPart: with duplicate stored part numbers, it uses the first stored part with that number.
- Multipart: assembling the completed object and its entity tag are left out, as is the life cycle of an upload (initiate, upload part, abort).
- Strings: characters are Dafny `char`s. Java's UTF-16 code units and surrogate pairs are not modelled separately.
