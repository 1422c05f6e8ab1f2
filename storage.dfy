/** Storage-account resolution and the blob lookup chain of `getBlobsAsync` /
    `getStorageAccountAsync`: URL split, account selection, region check,
    resource-group extraction, keys, blob listing. Remote calls are inputs. */
module Storage {
  import opened Wrappers
  import opened CloudTypes
  import opened Text
  import opened BlobUrl

  /** A storage account as the management plane lists it. */
  datatype StorageAccount = StorageAccount(name: string, location: string, id: string)

  /** The keys request made once an account is resolved. */
  datatype KeysRequest = KeysRequest(resourceGroup: string, storage: string)

  /** A blob handle: its name and URI, and what downloading its attributes and
      deleting it would produce. */
  datatype Blob = Blob(name: string, uri: string,
                       attributes: Outcome<map<string, string>>,
                       deletion: Outcome<bool>)

  /** The blob listing request: account, its first key, container and name prefix. */
  datatype BlobQuery = BlobQuery(storage: string, key: string, container: string, prefix: string)

  /** What the storage service answers: the account list, the first key for a
      keys request, and the blobs for a listing request. */
  datatype StorageService = StorageService(
    accounts: Outcome<seq<StorageAccount>>,
    keys: KeysRequest -> Outcome<string>,
    listBlobs: BlobQuery -> Outcome<seq<Blob>>)

  // ---------------------------------------------------------------------------
  // The pattern `resourceGroups/(.+)/providers/`, searched with `find()`.

  const GroupPrefix := "resourceGroups/"
  const GroupSuffix := "/providers/"

  /** Characters the regex `.` does not match by default. */
  predicate LineTerminator(c: char)
  {
    c == '\n' || c == '\r' || c == '\U{0085}' || c == '\U{2028}' || c == '\U{2029}'
  }

  /** The pattern matches `s[i..j + |GroupSuffix|]`, with group `s[i + 15..j]`. */
  ghost predicate GroupMatch(s: string, i: int, j: int)
  {
    && OccursAt(s, GroupPrefix, i)
    && i + |GroupPrefix| < j
    && OccursAt(s, GroupSuffix, j)
    && forall k :: i + |GroupPrefix| <= k < j ==> !LineTerminator(s[k])
  }

  /** The end of the run of non-terminator characters starting at `k`. */
  function RunEnd(s: string, k: nat): (e: nat)
    requires k <= |s|
    ensures k <= e <= |s|
    ensures forall m :: k <= m < e ==> !LineTerminator(s[m])
    ensures e < |s| ==> LineTerminator(s[e])
    decreases |s| - k
  {
    if k == |s| || LineTerminator(s[k]) then k else RunEnd(s, k + 1)
  }

  /** The last occurrence of the suffix at a position in `[lo, hi]`, or -1. */
  function LastSuffixIn(s: string, lo: int, hi: int): (r: int)
    ensures r == -1 || (lo <= r <= hi && OccursAt(s, GroupSuffix, r))
    ensures forall j :: (if r == -1 then lo else r + 1) <= j <= hi ==> !OccursAt(s, GroupSuffix, j)
    decreases hi - lo
  {
    if hi < lo then -1
    else if 0 <= hi && hi + |GroupSuffix| <= |s| && s[hi..hi + |GroupSuffix|] == GroupSuffix then hi
    else LastSuffixIn(s, lo, hi - 1)
  }

  /** The greedy match starting at `i`: the suffix position `j` of the longest
      group, or -1 when the pattern does not match at `i`. */
  function MatchAt(s: string, i: nat): (j: int)
    requires i <= |s|
    ensures j >= 0 ==> GroupMatch(s, i, j)
    ensures forall j' :: GroupMatch(s, i, j') ==> j >= 0 && j' <= j
  {
    if i + |GroupPrefix| <= |s| && s[i..i + |GroupPrefix|] == GroupPrefix then
      var e := RunEnd(s, i + |GroupPrefix|);
      var j := LastSuffixIn(s, i + |GroupPrefix| + 1, e);
      j
    else -1
  }

  /** `find()` from start position `i` onwards. */
  function FindGroupFrom(s: string, i: nat): (r: Option<string>)
    requires i <= |s|
    ensures r.None? ==> forall i', j :: i <= i' && GroupMatch(s, i', j) ==> false
    ensures r.Some? ==>
      exists i', j ::
        && i <= i' && GroupMatch(s, i', j) && r.value == s[i' + |GroupPrefix|..j]
        && (forall j' :: GroupMatch(s, i', j') ==> j' <= j)
        && (forall i'', j' :: i <= i'' < i' ==> !GroupMatch(s, i'', j'))
    decreases |s| - i
  {
    var j := MatchAt(s, i);
    if j >= 0 then Some(s[i + |GroupPrefix|..j])
    else if i == |s| then
      assert forall i', j' :: i <= i' && GroupMatch(s, i', j') ==> i' == i;
      None
    else FindGroupFrom(s, i + 1)
  }

  /** The resource group named in an account identifier: the group of the
      leftmost match of `resourceGroups/(.+)/providers/`, `.+` taken as long
      as possible; None when the pattern is not found. */
  function ResourceGroupOf(id: string): (r: Option<string>)
    ensures r.None? <==> forall i, j :: !GroupMatch(id, i, j)
    ensures r.Some? ==> r.value != [] && exists i, j :: GroupMatch(id, i, j) && r.value == id[i + |GroupPrefix|..j]
  {
    FindGroupFrom(id, 0)
  }

  /** The group is the leftmost and, at that start, the longest one. */
  lemma ResourceGroupLeftmostLongest(id: string, i: int, j: int)
    requires GroupMatch(id, i, j)
    requires forall i', j' :: i' < i ==> !GroupMatch(id, i', j')
    requires forall j' :: j < j' ==> !GroupMatch(id, i, j')
    ensures ResourceGroupOf(id) == Some(id[i + |GroupPrefix|..j])
  {
    var r := FindGroupFrom(id, 0);
    var i', j' :| 0 <= i' && GroupMatch(id, i', j') && r.value == id[i' + |GroupPrefix|..j']
      && (forall j'' :: GroupMatch(id, i', j'') ==> j'' <= j')
      && (forall i'', j'' :: 0 <= i'' < i' ==> !GroupMatch(id, i'', j''));
    assert i' == i;
    assert j' == j;
  }

  /** An identifier `<head>resourceGroups/<group>/providers/<tail>` yields
      `group`, provided no `resourceGroups/` starts inside the head (the match
      is leftmost), no further `/providers/` follows (the group is taken as
      long as possible), and the group is a single non-empty line. */
  lemma {:induction false} ResourceGroupOfTypicalId(head: string, group: string, tail: string)
    requires group != [] && forall c :: c in group ==> !LineTerminator(c)
    requires forall k :: 0 <= k < |head| ==> !OccursAt(head + GroupPrefix, GroupPrefix, k)
    requires forall k :: 0 < k ==> !OccursAt(GroupSuffix + tail, GroupSuffix, k)
    ensures ResourceGroupOf(head + GroupPrefix + group + GroupSuffix + tail) == Some(group)
  {
    var front := head + GroupPrefix;
    var back := GroupSuffix + tail;
    var id := front + group + back;
    assert id == head + GroupPrefix + group + GroupSuffix + tail;
    var i := |head|;
    var j := |front| + |group|;
    assert id[i..i + |GroupPrefix|] == GroupPrefix;
    assert id[j..j + |GroupSuffix|] == GroupSuffix;
    assert id[i + |GroupPrefix|..j] == group;
    forall k | i + |GroupPrefix| <= k < j ensures !LineTerminator(id[k]) {
      assert id[k] == group[k - i - |GroupPrefix|];
    }
    assert GroupMatch(id, i, j);
    // an earlier start lies wholly inside the head and the prefix
    forall i' | 0 <= i' < i ensures !OccursAt(id, GroupPrefix, i') {
      if i' + |GroupPrefix| <= |id| {
        assert id[i'..i' + |GroupPrefix|] == front[i'..i' + |GroupPrefix|];
        assert !OccursAt(front, GroupPrefix, i');
      }
    }
    // a later suffix lies wholly inside the suffix and the tail
    forall j' | j < j' ensures !OccursAt(id, GroupSuffix, j') {
      if j' + |GroupSuffix| <= |id| {
        assert id[j'..j' + |GroupSuffix|] == back[j' - j..j' - j + |GroupSuffix|];
        assert !OccursAt(back, GroupSuffix, j' - j);
      }
    }
    ResourceGroupLeftmostLongest(id, i, j);
  }

  // ---------------------------------------------------------------------------
  // Account selection.

  /** `CollectionsUtil.findFirst`: the first account named `storage`, ignoring case. */
  function FindAccount(accounts: seq<StorageAccount>, storage: string): (r: Option<StorageAccount>)
    ensures r.None? <==> forall k :: 0 <= k < |accounts| ==> !EqualsIgnoreCase(accounts[k].name, storage)
    ensures r.Some? ==>
      exists k ::
        && 0 <= k < |accounts| && accounts[k] == r.value
        && EqualsIgnoreCase(accounts[k].name, storage)
        && forall k' :: 0 <= k' < k ==> !EqualsIgnoreCase(accounts[k'].name, storage)
  {
    if accounts == [] then None
    else if EqualsIgnoreCase(accounts[0].name, storage) then Some(accounts[0])
    else
      var r := FindAccount(accounts[1..], storage);
      assert forall k :: 1 <= k < |accounts| ==> accounts[k] == accounts[1..][k - 1];
      r
  }

  /** `String.format("%s", location)`: an unset location prints as "null". */
  function LocationText(location: Option<string>): string
  {
    if location.Some? then location.value else "null"
  }

  function AccountNotFound(storage: string): string
  {
    "Storage account " + storage + " not found"
  }

  function WrongRegion(location: Option<string>): string
  {
    "VHD image should be located in storage account in the " + LocationText(location) + " region"
  }

  function InvalidAccountId(id: string): string
  {
    "Invalid storage account identifier " + id
  }

  /** Lines 861-887: choose the account, check its region against the
      configured location (an unset location matches nothing), extract its
      resource group, and request keys with the URL's spelling of the name. */
  function ResolveStorageAccount(accounts: seq<StorageAccount>, storage: string, location: Option<string>)
    : (r: Outcome<KeysRequest>)
    ensures FindAccount(accounts, storage).None? ==> r == Err(CloudError(AccountNotFound(storage)))
    ensures FindAccount(accounts, storage).Some? && (location.None? ||
              !EqualsIgnoreCase(FindAccount(accounts, storage).value.location, location.value))
            ==> r == Err(CloudError(WrongRegion(location)))
    ensures FindAccount(accounts, storage).Some? && location.Some? &&
              EqualsIgnoreCase(FindAccount(accounts, storage).value.location, location.value) &&
              ResourceGroupOf(FindAccount(accounts, storage).value.id).None?
            ==> r == Err(CloudError(InvalidAccountId(FindAccount(accounts, storage).value.id)))
    ensures r.Ok? <==>
      && FindAccount(accounts, storage).Some?
      && location.Some? && EqualsIgnoreCase(FindAccount(accounts, storage).value.location, location.value)
      && ResourceGroupOf(FindAccount(accounts, storage).value.id).Some?
    ensures r.Ok? ==>
      && r.value.storage == storage
      && Some(r.value.resourceGroup) == ResourceGroupOf(FindAccount(accounts, storage).value.id)
  {
    match FindAccount(accounts, storage)
    case None => Err(CloudError(AccountNotFound(storage)))
    case Some(account) =>
      if location.None? || !EqualsIgnoreCase(account.location, location.value) then
        Err(CloudError(WrongRegion(location)))
      else
        match ResourceGroupOf(account.id)
        case None =>
          Err(CloudError(InvalidAccountId(account.id)))
        case Some(group) => Ok(KeysRequest(group, storage))
  }

  /** Whether resolution succeeds depends on the name only up to case; the
      keys request keeps the spelling it was given. */
  lemma {:induction false} ResolveIgnoresNameCase(accounts: seq<StorageAccount>, a: string, b: string, location: Option<string>)
    requires EqualsIgnoreCase(a, b)
    ensures ResolveStorageAccount(accounts, a, location).Ok? == ResolveStorageAccount(accounts, b, location).Ok?
    ensures ResolveStorageAccount(accounts, a, location).Ok? ==>
      ResolveStorageAccount(accounts, a, location).value.resourceGroup
        == ResolveStorageAccount(accounts, b, location).value.resourceGroup
  {
    FindAccountIgnoresCase(accounts, a, b);
  }

  lemma {:induction false} FindAccountIgnoresCase(accounts: seq<StorageAccount>, a: string, b: string)
    requires EqualsIgnoreCase(a, b)
    ensures FindAccount(accounts, a) == FindAccount(accounts, b)
  {
    if accounts != [] {
      assert EqualsIgnoreCase(accounts[0].name, a) == EqualsIgnoreCase(accounts[0].name, b);
      FindAccountIgnoresCase(accounts[1..], a, b);
    }
  }

  // ---------------------------------------------------------------------------
  // The whole chain.

  /** `getBlobsAsync`: each step runs only when the previous one succeeded,
      and the first failure is the result. */
  function GetBlobs(host: Option<string>, path: Option<string>, location: Option<string>, service: StorageService)
    : (r: Outcome<seq<Blob>>)
    ensures SplitBlobUrl(host, path).Err? ==> r == Err(CloudError(SplitBlobUrl(host, path).error))
    ensures SplitBlobUrl(host, path).Ok? && service.accounts.Err? ==> r == Err(service.accounts.error)
    // once the accounts are listed: a failed resolution or keys request is the
    // result, and otherwise the result is the blob listing, failed or not
    ensures SplitBlobUrl(host, path).Ok? && service.accounts.Ok? ==>
      var loc := SplitBlobUrl(host, path).value;
      var request := ResolveStorageAccount(service.accounts.value, loc.storage, location);
      && (request.Err? ==> r == Err(request.error))
      && (request.Ok? && service.keys(request.value).Err? ==> r == Err(service.keys(request.value).error))
      && (request.Ok? && service.keys(request.value).Ok? ==>
            r == service.listBlobs(BlobQuery(loc.storage, service.keys(request.value).value, loc.container, loc.blobPrefix)))
    ensures r.Ok? ==>
      && SplitBlobUrl(host, path).Ok? && service.accounts.Ok?
      && var loc := SplitBlobUrl(host, path).value;
      && var request := ResolveStorageAccount(service.accounts.value, loc.storage, location);
      && request.Ok? && request.value.storage == loc.storage
      && service.keys(request.value).Ok?
      && r == service.listBlobs(BlobQuery(loc.storage, service.keys(request.value).value, loc.container, loc.blobPrefix))
  {
    match SplitBlobUrl(host, path)
    case Err(message) => Err(CloudError(message))
    case Ok(loc) =>
      match service.accounts
      case Err(f) => Err(f)
      case Ok(accounts) =>
        match ResolveStorageAccount(accounts, loc.storage, location)
        case Err(f) => Err(f)
        case Ok(request) =>
          match service.keys(request)
          case Err(f) => Err(f)
          case Ok(key) => service.listBlobs(BlobQuery(loc.storage, key, loc.container, loc.blobPrefix))
  }
}
