/** VHD image inspection (`getVhdOsTypeAsync`, `checkImage`) and the disk
    clean-up half of `deleteVmAsync`, over the blob lookup chain. */
module Vhd {
  import opened Wrappers
  import opened CloudTypes
  import opened Text
  import opened BlobUrl
  import opened Storage

  const ImageTypeKey := "MicrosoftAzureCompute_ImageType"
  const OsStateKey := "MicrosoftAzureCompute_OSState"
  const OsTypeKey := "MicrosoftAzureCompute_OSType"
  const NotGeneralized := "VHD image should be generalized."

  /** How the promise returned by `getVhdOsTypeAsync` settles: rejected, or
      resolved with an OS type that may be null. */
  datatype VhdVerdict = Rejected(failure: Failure) | Resolved(osType: Option<string>)

  /** `metadata.get(key)`. */
  function Lookup(metadata: map<string, string>, key: string): (r: Option<string>)
    ensures r.Some? <==> key in metadata
    ensures r.Some? ==> r.value == metadata[key]
  {
    if key in metadata then Some(metadata[key]) else None
  }

  function BlobNotFound(imageUrl: string): string
  {
    "VHD file " + imageUrl + " not found in storage account"
  }

  /** The blob is the image itself and its attributes could be read. */
  predicate SingleMatchingBlob(imageUrl: string, blobs: seq<Blob>)
  {
    |blobs| == 1 && EndsWithIgnoreCase(imageUrl, blobs[0].name) && blobs[0].attributes.Ok?
  }

  /** The metadata marks a generalized OS disk. */
  predicate GeneralizedOsDisk(metadata: map<string, string>)
  {
    Lookup(metadata, ImageTypeKey) == Some("OSDisk") && Lookup(metadata, OsStateKey) == Some("Generalized")
  }

  /** Lines 751-792: the blobs listed for an image URL decide its OS type. */
  function ClassifyBlobs(imageUrl: string, blobs: seq<Blob>): (v: VhdVerdict)
    // no blob: rejected; several: unknown
    ensures |blobs| == 0 ==> v == Rejected(CloudError(BlobNotFound(imageUrl)))
    ensures |blobs| > 1 ==> v == Resolved(None)
    // one blob whose name does not end the URL: unknown
    ensures |blobs| == 1 && !EndsWithIgnoreCase(imageUrl, blobs[0].name) ==> v == Resolved(None)
    // attributes unreadable: rejected, with the storage failure as cause
    ensures |blobs| == 1 && EndsWithIgnoreCase(imageUrl, blobs[0].name) && blobs[0].attributes.Err? ==>
      v == Rejected(Failure("Failed to access storage blob: " + blobs[0].attributes.error.message,
                            Some(blobs[0].attributes.error.message)))
    // a resolved OS type comes only from a single generalized OS-disk blob
    ensures v.Resolved? && v.osType.Some? <==>
      SingleMatchingBlob(imageUrl, blobs) && GeneralizedOsDisk(blobs[0].attributes.value)
      && OsTypeKey in blobs[0].attributes.value
    ensures v.Resolved? && v.osType.Some? ==> v.osType.value == blobs[0].attributes.value[OsTypeKey]
    // an OS disk that is not generalized is rejected
    ensures SingleMatchingBlob(imageUrl, blobs) ==>
      var metadata := blobs[0].attributes.value;
      && (Lookup(metadata, ImageTypeKey) != Some("OSDisk") ==> v == Resolved(None))
      && (Lookup(metadata, ImageTypeKey) == Some("OSDisk") && Lookup(metadata, OsStateKey) != Some("Generalized")
          ==> v == Rejected(CloudError(NotGeneralized)))
  {
    if |blobs| == 0 then Rejected(CloudError(BlobNotFound(imageUrl)))
    else if |blobs| > 1 then Resolved(None)
    else
      var blob := blobs[0];
      if !EndsWithIgnoreCase(imageUrl, blob.name) then Resolved(None)
      else
        match blob.attributes
        case Err(f) => Rejected(Failure("Failed to access storage blob: " + f.message, Some(f.message)))
        case Ok(metadata) =>
          if Lookup(metadata, ImageTypeKey) != Some("OSDisk") then Resolved(None)
          else if Lookup(metadata, OsStateKey) != Some("Generalized") then Rejected(CloudError(NotGeneralized))
          else Resolved(Lookup(metadata, OsTypeKey))
  }

  /** Rejection happens exactly for: no blob, unreadable attributes, or an OS
      disk that is not generalized. Everything else resolves. */
  lemma ClassifyRejectsExactly(imageUrl: string, blobs: seq<Blob>)
    ensures ClassifyBlobs(imageUrl, blobs).Rejected? <==>
      || |blobs| == 0
      || (|blobs| == 1 && EndsWithIgnoreCase(imageUrl, blobs[0].name) && blobs[0].attributes.Err?)
      || (SingleMatchingBlob(imageUrl, blobs)
          && Lookup(blobs[0].attributes.value, ImageTypeKey) == Some("OSDisk")
          && Lookup(blobs[0].attributes.value, OsStateKey) != Some("Generalized"))
  {
  }

  /** `getVhdOsTypeAsync` after the URL has been parsed into host and path: a
      failure of the blob lookup chain is passed on unchanged. */
  function GetVhdOsType(imageUrl: string, host: Option<string>, path: Option<string>,
                        location: Option<string>, service: StorageService): (v: VhdVerdict)
    ensures GetBlobs(host, path, location, service).Err? ==> v == Rejected(GetBlobs(host, path, location, service).error)
    ensures GetBlobs(host, path, location, service).Ok? ==> v == ClassifyBlobs(imageUrl, GetBlobs(host, path, location, service).value)
    ensures v.Resolved? && v.osType.Some? ==> SplitBlobUrl(host, path).Ok? && service.accounts.Ok?
  {
    match GetBlobs(host, path, location, service)
    case Err(f) => Rejected(f)
    case Ok(blobs) => ClassifyBlobs(imageUrl, blobs)
  }

  /** Lines 469-478 of `checkImage`: one error per failure, none when the
      OS type was determined or left unknown. */
  function CheckImage(verdict: VhdVerdict): (errors: seq<Failure>)
    ensures errors == [] <==> verdict.Resolved?
    ensures verdict.Rejected? ==> errors == [verdict.failure]
  {
    if verdict.Rejected? then [verdict.failure] else []
  }

  // ---------------------------------------------------------------------------
  // Deleting a VM's disks.

  /** The URIs of the blobs, in order. */
  function Uris(blobs: seq<Blob>): (r: seq<string>)
    ensures |r| == |blobs| && forall k :: 0 <= k < |blobs| ==> r[k] == blobs[k].uri
  {
    if blobs == [] then [] else Uris(blobs[..|blobs| - 1]) + [blobs[|blobs| - 1].uri]
  }

  /** The URIs of the blobs whose deletion fails, in order. */
  function FailedUris(blobs: seq<Blob>): (r: seq<string>)
    ensures |r| <= |blobs|
    ensures forall u :: u in r ==> exists k :: 0 <= k < |blobs| && blobs[k].uri == u && blobs[k].deletion.Err?
  {
    if blobs == [] then []
    else
      var last := blobs[|blobs| - 1];
      FailedUris(blobs[..|blobs| - 1]) + if last.deletion.Err? then [last.uri] else []
  }

  /** Lines 663-670: delete every blob; a failed deletion is reported and the
      loop goes on with the next blob. */
  method DeleteBlobs(blobs: seq<Blob>) returns (attempted: seq<string>, failed: seq<string>)
    ensures attempted == Uris(blobs)
    ensures failed == FailedUris(blobs)
  {
    attempted, failed := [], [];
    var i := 0;
    while i < |blobs|
      invariant 0 <= i <= |blobs|
      invariant attempted == Uris(blobs[..i])
      invariant failed == FailedUris(blobs[..i])
    {
      var blob := blobs[i];
      attempted := attempted + [blob.uri];
      match blob.deletion {
        case Err(_) => failed := failed + [blob.uri];
        case Ok(_) =>
      }
      assert blobs[..i + 1][..i] == blobs[..i];
      i := i + 1;
    }
    assert blobs[..i] == blobs;
  }

  /** `deleteVmAsync`: delete the resource group, then every blob of container
      `vhds` in the image's account whose name starts with the VM name. Blob
      failures do not fail the operation. */
  method DeleteVm(name: string, imageHost: Option<string>, location: Option<string>,
                  groupDeletion: Outcome<()>, service: StorageService)
    returns (r: Outcome<()>, attempted: seq<string>)
    ensures groupDeletion.Err? ==> r == groupDeletion && attempted == []
    ensures groupDeletion.Ok? ==>
      var listing := GetBlobs(imageHost, Some(VmBlobsPath(name)), location, service);
      && (listing.Err? ==> r == Err(listing.error) && attempted == [])
      && (listing.Ok? ==> r == Ok(()) && attempted == Uris(listing.value))
    ensures attempted != [] ==>
      exists storage, key :: GetBlobs(imageHost, Some(VmBlobsPath(name)), location, service)
                             == service.listBlobs(BlobQuery(storage, key, "vhds", name))
  {
    if groupDeletion.Err? {
      return groupDeletion, [];
    }
    var listing := GetBlobs(imageHost, Some(VmBlobsPath(name)), location, service);
    VmBlobsLocation(imageHost, name);
    match listing {
      case Err(f) =>
        r, attempted := Err(f), [];
      case Ok(blobs) =>
        var failed;
        attempted, failed := DeleteBlobs(blobs);
        r := Ok(());
    }
  }
}
