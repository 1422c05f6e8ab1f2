/** Decomposition of a blob URL into storage account, container and blob-name
    prefix, as `getBlobsAsync` does before any remote call. The URL has already
    been split into host and path; either may be absent. */
module BlobUrl {
  import opened Wrappers
  import opened Text

  const BlobHostSuffix := ".blob.core.windows.net"
  const InvalidUrl := "Invalid URL"
  const InvalidHostName := "Invalid host name"
  const MissingContainerName := "File path must include container name"

  /** Where the blobs live: account name as spelled in the URL, container name,
      and the prefix the blob listing is filtered by. */
  datatype BlobLocation = BlobLocation(storage: string, container: string, blobPrefix: string)

  /** The host names a blob endpoint: the suffix occurs, and its first
      occurrence is not at position 0. */
  ghost predicate ValidBlobHost(host: string)
  {
    exists i :: 0 < i && OccursAt(host, BlobHostSuffix, i) &&
      forall j :: 0 <= j < i ==> !OccursAt(host, BlobHostSuffix, j)
  }

  /** The path has a '/' at some position after the first character. */
  ghost predicate HasContainerSlash(path: string)
  {
    exists i :: 1 <= i < |path| && path[i] == '/'
  }

  function SplitBlobUrl(host: Option<string>, path: Option<string>): (r: Result<BlobLocation, string>)
    ensures r == Err(InvalidUrl) <==> host.None? || path.None?
    ensures r == Err(InvalidHostName) <==> host.Some? && path.Some? && !ValidBlobHost(host.value)
    ensures r == Err(MissingContainerName) <==>
      host.Some? && path.Some? && ValidBlobHost(host.value) && !HasContainerSlash(path.value)
    ensures r.Ok? ==> host.Some? && path.Some? && ValidBlobHost(host.value) && HasContainerSlash(path.value)
    ensures r.Ok? ==>
      var loc := r.value;
      // the account is everything before the first occurrence of the suffix
      && loc.storage != []
      && OccursAt(host.value, BlobHostSuffix, |loc.storage|)
      && host.value[..|loc.storage|] == loc.storage
      && (forall j :: 0 <= j < |loc.storage| ==> !OccursAt(host.value, BlobHostSuffix, j))
      // the container runs from the second character to the first interior slash
      && '/' !in loc.container
      && |path.value| == |loc.container| + |loc.blobPrefix| + 2
      && path.value == path.value[..1] + loc.container + "/" + loc.blobPrefix
  {
    if host.None? || path.None? then Err(InvalidUrl)
    else
      var idx := IndexOf(host.value, BlobHostSuffix, 0);
      if idx <= 0 then Err(InvalidHostName)
      else
        var p := path.value;
        var slash := IndexOf(p, "/", 1);
        if slash <= 0 then
          assert !HasContainerSlash(p) by {
            forall k | 1 <= k < |p| ensures p[k] != '/' {
              assert !OccursAt(p, "/", k);
              assert p[k..k + 1] == [p[k]];
            }
          }
          Err(MissingContainerName)
        else
          assert p[slash] == '/' by { assert p[slash..slash + 1] == "/"; }
          assert forall k :: 1 <= k < slash ==> p[k] != '/' by {
            forall k | 1 <= k < slash ensures p[k] != '/' {
              assert !OccursAt(p, "/", k);
              assert p[k..k + 1] == [p[k]];
            }
          }
          assert p == p[..1] + p[1..slash] + "/" + p[slash + 1..];
          Ok(BlobLocation(host.value[..idx], p[1..slash], p[slash + 1..]))
  }

  /** Composing a host and a path from a location and splitting them again gives
      the location back, whenever the account name has no '.' (account names are
      letters and digits) and the container has no '/'. */
  lemma {:induction false} SplitComposed(storage: string, rest: string, first: char, container: string, prefix: string)
    requires storage != [] && '.' !in storage && '/' !in container
    ensures SplitBlobUrl(Some(storage + BlobHostSuffix + rest), Some([first] + container + "/" + prefix))
            == Ok(BlobLocation(storage, container, prefix))
  {
    var host := storage + BlobHostSuffix + rest;
    var path := [first] + container + "/" + prefix;
    assert OccursAt(host, BlobHostSuffix, |storage|) by {
      assert host[|storage|..|storage| + |BlobHostSuffix|] == BlobHostSuffix;
    }
    forall j | 0 <= j < |storage| ensures !OccursAt(host, BlobHostSuffix, j) {
      assert host[j] == storage[j] && storage[j] in storage;
      assert j + |BlobHostSuffix| <= |host| ==> host[j..j + |BlobHostSuffix|][0] == host[j];
    }
    var idx := IndexOf(host, BlobHostSuffix, 0);
    assert idx == |storage|;
    assert host[..idx] == storage;
    assert OccursAt(path, "/", |container| + 1) by {
      assert path[|container| + 1] == '/';
      assert path[|container| + 1..|container| + 2] == "/";
    }
    forall k | 1 <= k < |container| + 1 ensures !OccursAt(path, "/", k) {
      assert path[k] == container[k - 1] && container[k - 1] in container;
      assert path[k..k + 1] == [path[k]];
    }
    var slash := IndexOf(path, "/", 1);
    assert slash == |container| + 1;
    assert path[1..slash] == container;
    assert path[slash + 1..] == prefix;
  }

  /** The path under which a deleted VM's disks are looked up (line 650). */
  function VmBlobsPath(name: string): (p: string)
    ensures |p| == |name| + 6 && p[..6] == "/vhds/" && p[6..] == name
    ensures HasContainerSlash(p)
  {
    assert ("/vhds/" + name)[5] == '/';
    "/vhds/" + name
  }

  /** Deleting a VM lists the blobs of container `vhds` whose names start with
      the VM name; the only failures left are those of the image host. */
  lemma VmBlobsLocation(host: Option<string>, name: string)
    ensures var r := SplitBlobUrl(host, Some(VmBlobsPath(name)));
      && (r.Ok? ==> r.value.container == "vhds" && r.value.blobPrefix == name)
      && (r.Err? ==> r.error in {InvalidUrl, InvalidHostName})
      && (host.Some? && ValidBlobHost(host.value) ==> r.Ok?)
  {
    var p := VmBlobsPath(name);
    VhdsSlash(name);
    assert p[1..5] == "vhds" && p[6..] == name;
  }

  /** The first slash after the leading one in a disk path is at index 5. */
  lemma VhdsSlash(name: string)
    ensures IndexOf(VmBlobsPath(name), "/", 1) == 5
  {
    var p := VmBlobsPath(name);
    assert p[5..6] == "/";
    assert OccursAt(p, "/", 5);
    forall k | 1 <= k < 5 ensures !OccursAt(p, "/", k) {
      assert p[k..k + 1] == [p[k]];
    }
  }
}
