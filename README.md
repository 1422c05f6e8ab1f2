# Azure cloud connector decision logic

A model of the decisions the TeamCity Azure cloud plugin takes when it talks
to Azure. It covers the callbacks of the Resource Manager (ARM) connector
`AzureApiConnectorImpl` and the role-instance adapter `AzureInstance` of the
classic (ASM) connector. Every remote call is an input value of type
`Outcome<T>` (`Ok(value)` or `Err(Failure(message, causeMessage))`).
The callbacks are the functions and methods that consume those values:

- `blob_url.dfy`: splitting a blob URL's host and path into storage account,
  container and blob-name prefix.
- `storage.dfy`: choosing the storage account and checking its region.
  The resource group is extracted with `resourceGroups/(.+)/providers/`,
  modelled as a leftmost, greedy `find()`. The blob lookup chain is here too.
- `vhd.dfy`: classifying the VHD image, `checkImage`'s error list, and the
  best-effort deletion of a VM's disks.
- `instance_data.dfy`: the per-VM pipeline. The instance view's status codes
  and the optional public IP are merged into the mutable ARM instance record,
  which is a class here.
- `connector.dfy`: the connector class with its setters and the fleet scan
  (`fetchInstancesAsync`, `fetchInstances`). Status polling and the listing
  methods are here too. Images and instances of the orchestrator are
  collaborator objects, and every `updateErrors` call they receive is logged.
- `listings.dfy`: the sort by display name with `String.compareTo`, and the
  insertion-ordered (linked hash) maps of subscriptions, locations and
  networks.
- `asm_instance.dfy`: the classic connector's mapping from power state to
  status, and its constant accessors.
- `wrappers.dfy`, `text.dfy`: `Option`/`Result`, the orchestrator's
  status and error types, and the Java string operations used
  (`equalsIgnoreCase`, `startsWith`, `endsWithIgnoreCase`, `indexOf`).

Asynchrony is sequenced. A joined promise settles after all of its members,
and the callbacks then run in program order. When two members of a join both
fail, an explicit boolean input says which rejection settles first. The
callbacks of the instance pipeline touch disjoint fields, so their order does
not change the record (`CallbacksCommute`).

## Model

| member | source | states |
|---|---|---|
| BlobUrl.SplitBlobUrl | plugin-azure-server-arm/src/main/java/jetbrains/buildServer/clouds/azure/arm/connector/AzureApiConnectorImpl.java:805-823 | A missing host or path gives "Invalid URL". A host whose first `.blob.core.windows.net` is absent or at position 0 gives "Invalid host name". A path with no `/` after its first character gives "File path must include container name". Each error holds exactly under its condition. On success the account is the non-empty text before the first suffix, the container runs from the second character to the first later `/` and contains no `/`, and the prefix is the rest of the path |
| BlobUrl.SplitComposed | plugin-azure-server-arm/src/main/java/jetbrains/buildServer/clouds/azure/arm/connector/AzureApiConnectorImpl.java:811-823 | Round trip: composing a host and a path from an account without `.`, a container without `/` and any prefix, then splitting them, gives the same three parts back |
| BlobUrl.VmBlobsPath | plugin-azure-server-arm/src/main/java/jetbrains/buildServer/clouds/azure/arm/connector/AzureApiConnectorImpl.java:650 | The disk path of a VM is `/vhds/` followed by the VM name, and it always has a container slash |
| BlobUrl.VmBlobsLocation | plugin-azure-server-arm/src/main/java/jetbrains/buildServer/clouds/azure/arm/connector/AzureApiConnectorImpl.java:650-659 | Splitting the disk path names container `vhds` and prefix = VM name. It can fail only with "Invalid URL" or "Invalid host name", and it succeeds for every valid blob host |
| Storage.ResourceGroupOf | plugin-azure-server-arm/src/main/java/jetbrains/buildServer/clouds/azure/arm/connector/AzureApiConnectorImpl.java:880-886 | None exactly when no `resourceGroups/<group>/providers/` match exists, where the group is non-empty and free of line terminators. Otherwise the result is the group of some match |
| Storage.ResourceGroupLeftmostLongest | plugin-azure-server-arm/src/main/java/jetbrains/buildServer/clouds/azure/arm/connector/AzureApiConnectorImpl.java:880-886 | The group returned is that of the leftmost match and, at that start, the longest one (`.+` is greedy) |
| Storage.ResourceGroupOfTypicalId | plugin-azure-server-arm/src/main/java/jetbrains/buildServer/clouds/azure/arm/connector/AzureApiConnectorImpl.java:880-886 | For an identifier `<head>resourceGroups/<g>/providers/<tail>`, the extracted group is `g`. This holds when `g` is a non-empty single line, no `resourceGroups/` starts inside the head, and no further `/providers/` follows. A real account id `/subscriptions/<s>/resourceGroups/<g>/providers/Microsoft.Storage/storageAccounts/<name>` meets these conditions |
| Storage.FindAccount | plugin-azure-server-arm/src/main/java/jetbrains/buildServer/clouds/azure/arm/connector/AzureApiConnectorImpl.java:861-866 | The first account whose name equals the storage name ignoring case; None exactly when there is none |
| Storage.ResolveStorageAccount | plugin-azure-server-arm/src/main/java/jetbrains/buildServer/clouds/azure/arm/connector/AzureApiConnectorImpl.java:861-887 | No matching account gives "Storage account %s not found". A region differing ignoring case, or no configured location, gives the region error. An identifier without a group gives "Invalid storage account identifier". Success holds exactly when all three checks pass, and then the keys request carries the extracted group and the URL's own spelling of the name |
| Storage.ResolveIgnoresNameCase | plugin-azure-server-arm/src/main/java/jetbrains/buildServer/clouds/azure/arm/connector/AzureApiConnectorImpl.java:861-887 | Whether resolution succeeds, and the group it finds, do not depend on the case of the storage name |
| Storage.FindAccountIgnoresCase | plugin-azure-server-arm/src/main/java/jetbrains/buildServer/clouds/azure/arm/connector/AzureApiConnectorImpl.java:861-866 | Names that are equal ignoring case select the same account |
| Storage.GetBlobs | plugin-azure-server-arm/src/main/java/jetbrains/buildServer/clouds/azure/arm/connector/AzureApiConnectorImpl.java:805-855 | Each step runs only after the previous one succeeded, and the first failure is the result. A split error becomes a failure with that message. A failed account listing, resolution or keys request is passed on unchanged. When all of these succeed, the result is the blob listing (including its failure) for the URL's account, first key, container and prefix |
| Vhd.ClassifyBlobs | plugin-azure-server-arm/src/main/java/jetbrains/buildServer/clouds/azure/arm/connector/AzureApiConnectorImpl.java:751-792 | No blob is rejected with "VHD file %s not found". More than one, or a single blob whose name does not end the URL ignoring case, resolves null. An unreadable blob is rejected with "Failed to access storage blob: <message>" and the storage failure as cause. A blob that is not an OSDisk resolves null. A non-generalized OS disk is rejected with "VHD image should be generalized.". An OS type is resolved exactly for a single matching, generalized OS-disk blob that has one, and it is that metadata value |
| Vhd.ClassifyRejectsExactly | plugin-azure-server-arm/src/main/java/jetbrains/buildServer/clouds/azure/arm/connector/AzureApiConnectorImpl.java:751-792 | Rejection happens exactly for: no blob, unreadable attributes, or an OS disk that is not generalized |
| Vhd.GetVhdOsType | plugin-azure-server-arm/src/main/java/jetbrains/buildServer/clouds/azure/arm/connector/AzureApiConnectorImpl.java:748-799 | A failure of the blob lookup is passed on unchanged. Otherwise the verdict is the classification of the listed blobs. A resolved OS type implies that the URL split and the account listing succeeded |
| Vhd.CheckImage | plugin-azure-server-arm/src/main/java/jetbrains/buildServer/clouds/azure/arm/connector/AzureApiConnectorImpl.java:469-478 | No errors exactly when the OS-type lookup resolved (whether with a value or null); a rejection gives exactly its failure |
| Vhd.DeleteBlobs | plugin-azure-server-arm/src/main/java/jetbrains/buildServer/clouds/azure/arm/connector/AzureApiConnectorImpl.java:662-670 | Every blob's deletion is attempted, in order. The failed URIs are exactly those whose deletion failed, and a failure does not stop the loop |
| Vhd.DeleteVm | plugin-azure-server-arm/src/main/java/jetbrains/buildServer/clouds/azure/arm/connector/AzureApiConnectorImpl.java:641-675 | A failed group deletion is returned and nothing else is tried. Otherwise a failed blob lookup is returned. A successful listing deletes every listed blob, and the result is a success whatever the blob deletions did. Any deletion attempt lists container `vhds` with the VM name as prefix |
| InstanceData.ApplyStatus | plugin-azure-server-arm/src/main/java/jetbrains/buildServer/clouds/azure/arm/connector/AzureApiConnectorImpl.java:363-373 | One status entry: a `ProvisioningState/` code sets the provisioning state (and the start date when it carries a time), a `PowerState/` code sets the power state. The name and address are never touched, and a state or date once set is never cleared |
| InstanceData.ParseStatuses | plugin-azure-server-arm/src/main/java/jetbrains/buildServer/clouds/azure/arm/connector/AzureApiConnectorImpl.java:362-374 | The status loop applies the entries in order; a state or date once set is never cleared. What it ends with is stated by the three `…LastWins` lemmas |
| InstanceData.ProvisioningStateLastWins | plugin-azure-server-arm/src/main/java/jetbrains/buildServer/clouds/azure/arm/connector/AzureApiConnectorImpl.java:362-374 | The provisioning state becomes the suffix of the last `ProvisioningState/` code; with no such code it is unchanged |
| InstanceData.PowerStateLastWins | plugin-azure-server-arm/src/main/java/jetbrains/buildServer/clouds/azure/arm/connector/AzureApiConnectorImpl.java:362-374 | The power state becomes the suffix of the last `PowerState/` code; with no such code it is unchanged |
| InstanceData.StartDateLastWins | plugin-azure-server-arm/src/main/java/jetbrains/buildServer/clouds/azure/arm/connector/AzureApiConnectorImpl.java:364-370 | The start date becomes the time of the last provisioning status that has one; a provisioning status without time leaves it alone |
| InstanceData.ParseKeepsNameAndAddress | plugin-azure-server-arm/src/main/java/jetbrains/buildServer/clouds/azure/arm/connector/AzureApiConnectorImpl.java:362-374 | The status loop never changes the name or the IP address |
| InstanceData.UnrecognisedStatusIgnored | plugin-azure-server-arm/src/main/java/jetbrains/buildServer/clouds/azure/arm/connector/AzureApiConnectorImpl.java:362-374 | A code with neither prefix changes nothing |
| InstanceData.ParseExample | plugin-azure-server-arm/src/main/java/jetbrains/buildServer/clouds/azure/arm/connector/AzureApiConnectorImpl.java:362-374 | The statuses `ProvisioningState/Succeeded`, `PowerState/running` give provisioning "Succeeded" and power "running", with no start date set |
| InstanceData.ApplyPublicIp | plugin-azure-server-arm/src/main/java/jetbrains/buildServer/clouds/azure/arm/connector/AzureApiConnectorImpl.java:388-390 | The address is stored only when it is not null or empty; nothing else changes |
| InstanceData.NeedsPublicIp | plugin-azure-server-arm/src/main/java/jetbrains/buildServer/clouds/azure/arm/connector/AzureApiConnectorImpl.java:381 | The address is looked up exactly when the image asks for a public IP and the record has no address yet |
| InstanceData.CallbacksCommute | plugin-azure-server-arm/src/main/java/jetbrains/buildServer/clouds/azure/arm/connector/AzureApiConnectorImpl.java:357-397 | Applying the status loop and the address step in either order gives the same record |
| InstanceData.Join | plugin-azure-server-arm/src/main/java/jetbrains/buildServer/clouds/azure/arm/connector/AzureApiConnectorImpl.java:399-404 | The joined promise resolves exactly when both members resolve. A single failure is the result; with two failures, the one that settles first is the result |
| InstanceData.InstanceDataView | plugin-azure-server-arm/src/main/java/jetbrains/buildServer/clouds/azure/arm/connector/AzureApiConnectorImpl.java:357-397 | The record after the pipeline: the name is kept; the states and start date are the status loop's over the instance view, or unchanged when the view failed; the address changes only to a looked-up, non-empty address |
| InstanceData.InstanceDataOutcome | plugin-azure-server-arm/src/main/java/jetbrains/buildServer/clouds/azure/arm/connector/AzureApiConnectorImpl.java:355-405 | The pipeline succeeds exactly when the instance view arrives, and either the address arrives or no address lookup was needed. A failure is the view's failure or the address lookup's |
| InstanceData.AzureInstance.constructor | plugin-azure-server-arm/src/main/java/jetbrains/buildServer/clouds/azure/arm/connector/AzureApiConnectorImpl.java:298 | A new record for a VM name has no provisioning state, power state, start date or address. The ARM `AzureInstance` class is not part of this model, so this all-unset start is assumed from Java's default field values; the address test of line 381 depends on it |
| InstanceData.AzureInstance.ApplyStatuses | plugin-azure-server-arm/src/main/java/jetbrains/buildServer/clouds/azure/arm/connector/AzureApiConnectorImpl.java:362-374 | The loop leaves the record equal to the statuses applied in order to its old value |
| InstanceData.AzureInstance.SetPublicIp | plugin-azure-server-arm/src/main/java/jetbrains/buildServer/clouds/azure/arm/connector/AzureApiConnectorImpl.java:388-390 | The record becomes its old value with the address applied |
| InstanceData.AzureInstance.GetInstanceData | plugin-azure-server-arm/src/main/java/jetbrains/buildServer/clouds/azure/arm/connector/AzureApiConnectorImpl.java:355-405 | An address named `<name>-pip` is looked up exactly when the image asks for a public IP and the record has none. The new record is the pipeline's result. The returned outcome is the joined outcome |
| Connector.Keeps | plugin-azure-server-arm/src/main/java/jetbrains/buildServer/clouds/azure/arm/connector/AzureApiConnectorImpl.java:267-296 | The VM filter: a VM is kept exactly when its name starts with the image's prefix, it has tags, and its server, profile and source tags equal the configured server, profile and image source (two nulls being equal) |
| Connector.ScanFleet | plugin-azure-server-arm/src/main/java/jetbrains/buildServer/clouds/azure/arm/connector/AzureApiConnectorImpl.java:267-326 | The filter loop as a function, with every pipeline settled: each kept VM's record is put by name and its failure appended. There are no more kept VMs than listed, and at most one record and one failure per kept VM; the `ScanFleet…` lemmas state the rest |
| Connector.KeptFailures | plugin-azure-server-arm/src/main/java/jetbrains/buildServer/clouds/azure/arm/connector/AzureApiConnectorImpl.java:298-305 | Every collected failure is the failed pipeline outcome of some kept VM |
| Connector.KeepsExactlyMatchingTags | plugin-azure-server-arm/src/main/java/jetbrains/buildServer/clouds/azure/arm/connector/AzureApiConnectorImpl.java:267-296 | A VM with the image's name prefix whose server, profile and source tags equal the configured ones is kept. One without tags, or with a different server tag, is not |
| Connector.ScanFleetKeys | plugin-azure-server-arm/src/main/java/jetbrains/buildServer/clouds/azure/arm/connector/AzureApiConnectorImpl.java:267-309 | A name is in the result map exactly when some VM with that name passes the filter, whether its data arrived or not |
| Connector.ScanFleetRecords | plugin-azure-server-arm/src/main/java/jetbrains/buildServer/clouds/azure/arm/connector/AzureApiConnectorImpl.java:298-309 | Each record in the map is the one its own pipeline left |
| Connector.ScanFleetErrors | plugin-azure-server-arm/src/main/java/jetbrains/buildServer/clouds/azure/arm/connector/AzureApiConnectorImpl.java:298-305 | The collected errors are exactly the failed pipelines of kept VMs, in VM order, and there are no more of them than kept VMs |
| Connector.ScanFleetEmpty | plugin-azure-server-arm/src/main/java/jetbrains/buildServer/clouds/azure/arm/connector/AzureApiConnectorImpl.java:312-313 | No VM is kept exactly when none passes the filter, and then the map and the errors are empty |
| Connector.ImageErrorLog | plugin-azure-server-arm/src/main/java/jetbrains/buildServer/clouds/azure/arm/connector/AzureApiConnectorImpl.java:214-229 | A failed VM listing gives one `updateErrors` call with the listing failure. A successful listing gives at most two calls and always ends with an argument-less one. There are two calls exactly when some VM passes the filter, and then the first carries the kept VMs' failures |
| Connector.CloudImage.UpdateErrors | plugin-azure-server-arm/src/main/java/jetbrains/buildServer/clouds/azure/arm/connector/AzureApiConnectorImpl.java:323 | Each call is appended to the image's log |
| Connector.CloudInstance.SetStatus | plugin-azure-server-arm/src/main/java/jetbrains/buildServer/clouds/azure/arm/connector/AzureApiConnectorImpl.java:184 | The status is replaced and the error log kept |
| Connector.CloudInstance.UpdateErrors | plugin-azure-server-arm/src/main/java/jetbrains/buildServer/clouds/azure/arm/connector/AzureApiConnectorImpl.java:185 | Each call is appended to the instance's log and the status kept |
| Connector.ToleratedFailure | plugin-azure-server-arm/src/main/java/jetbrains/buildServer/clouds/azure/arm/connector/AzureApiConnectorImpl.java:180-181 | A failed poll is tolerated exactly when its cause is the not-found error or the instance is scheduled to start or to stop |
| Connector.AzureApiConnector.constructor | plugin-azure-server-arm/src/main/java/jetbrains/buildServer/clouds/azure/arm/connector/AzureApiConnectorImpl.java:108-110 | Server, profile and location start unset |
| Connector.AzureApiConnector.SetServerId | plugin-azure-server-arm/src/main/java/jetbrains/buildServer/clouds/azure/arm/connector/AzureApiConnectorImpl.java:1079-1081 | Sets the server identifier only |
| Connector.AzureApiConnector.SetProfileId | plugin-azure-server-arm/src/main/java/jetbrains/buildServer/clouds/azure/arm/connector/AzureApiConnectorImpl.java:1088-1090 | Sets the profile identifier only |
| Connector.AzureApiConnector.SetLocation | plugin-azure-server-arm/src/main/java/jetbrains/buildServer/clouds/azure/arm/connector/AzureApiConnectorImpl.java:1109-1111 | Sets the location only |
| Connector.AzureApiConnector.FetchInstancesAsync | plugin-azure-server-arm/src/main/java/jetbrains/buildServer/clouds/azure/arm/connector/AzureApiConnectorImpl.java:248-332 | A failed listing rejects with "Failed to get list of instances for cloud image …" wrapping "Failed to get list of virtual machines: …", and the image's errors are untouched. Otherwise the result is the fleet scan's map, and the scan's errors are sent to the image exactly when some VM was kept |
| Connector.AzureApiConnector.FetchInstances | plugin-azure-server-arm/src/main/java/jetbrains/buildServer/clouds/azure/arm/connector/AzureApiConnectorImpl.java:210-245 | The result maps exactly the images whose listing succeeded, each to its fleet scan. Every image receives exactly the `updateErrors` calls of `ImageErrorLog`, in that order |
| Connector.AzureApiConnector.GetSubscriptions | plugin-azure-server-arm/src/main/java/jetbrains/buildServer/clouds/azure/arm/connector/AzureApiConnectorImpl.java:957-989 | A failure gives "Failed to get list of subscriptions …". Otherwise the result is the subscriptions sorted by display name and put by identifier |
| Connector.AzureApiConnector.GetLocations | plugin-azure-server-arm/src/main/java/jetbrains/buildServer/clouds/azure/arm/connector/AzureApiConnectorImpl.java:998-1030 | A failure gives "Failed to get list of locations in subscription %s: %s". Otherwise the result is the locations sorted by display name and put by name |
| Connector.AzureApiConnector.GetNetworks | plugin-azure-server-arm/src/main/java/jetbrains/buildServer/clouds/azure/arm/connector/AzureApiConnectorImpl.java:1039-1072 | A failure gives "Failed to get list of networks: …". Otherwise the result is the networks of the configured region, by identifier, with their subnet names |
| Connector.AzureApiConnector.GetInstanceStatusIfExists | plugin-azure-server-arm/src/main/java/jetbrains/buildServer/clouds/azure/arm/connector/AzureApiConnectorImpl.java:168-205 | On success the status of the fetched record is stored and returned, and an argument-less `updateErrors` is logged. A failure with cause "Invalid status code 404", or while the old status is SCHEDULED_TO_START or SCHEDULED_TO_STOP, changes nothing and returns null. Any other failure sets ERROR, logs the failure and returns null |
| Connector.StatusPollOutcomes | plugin-azure-server-arm/src/main/java/jetbrains/buildServer/clouds/azure/arm/connector/AzureApiConnectorImpl.java:174-194 | A poll yields a status exactly when the instance view arrives, and either the address arrives or the image does not ask for a public IP |
| Listings.Put | plugin-azure-server-arm/src/main/java/jetbrains/buildServer/clouds/azure/arm/connector/AzureApiConnectorImpl.java:981 | Putting into a linked map keeps its keys distinct and in step with its values, and sets the value |
| Listings.StrLeTotal | plugin-azure-server-arm/src/main/java/jetbrains/buildServer/clouds/azure/arm/connector/AzureApiConnectorImpl.java:972-978 | The `compareTo` order used by the sort is total |
| Listings.StrLeTransitive | plugin-azure-server-arm/src/main/java/jetbrains/buildServer/clouds/azure/arm/connector/AzureApiConnectorImpl.java:972-978 | … and transitive |
| Listings.StrLeAntisymmetric | plugin-azure-server-arm/src/main/java/jetbrains/buildServer/clouds/azure/arm/connector/AzureApiConnectorImpl.java:972-978 | … and antisymmetric |
| Listings.SortByDisplayName | plugin-azure-server-arm/src/main/java/jetbrains/buildServer/clouds/azure/arm/connector/AzureApiConnectorImpl.java:972-978 | The result is sorted by display name and is a permutation of the input |
| Listings.SortedIsOrdered | plugin-azure-server-arm/src/main/java/jetbrains/buildServer/clouds/azure/arm/connector/AzureApiConnectorImpl.java:972-978 | In a sorted list every earlier display name is not greater than every later one |
| Listings.PutAll | plugin-azure-server-arm/src/main/java/jetbrains/buildServer/clouds/azure/arm/connector/AzureApiConnectorImpl.java:980-982 | The put loop yields a linked map with distinct keys that match its values |
| Listings.PutAllMembers | plugin-azure-server-arm/src/main/java/jetbrains/buildServer/clouds/azure/arm/connector/AzureApiConnectorImpl.java:980-982 | Exactly the listed keys are in the map |
| Listings.PutAllLastValue | plugin-azure-server-arm/src/main/java/jetbrains/buildServer/clouds/azure/arm/connector/AzureApiConnectorImpl.java:980-982 | A key maps to the display name of its last entry |
| Listings.PutAllKeepsOrder | plugin-azure-server-arm/src/main/java/jetbrains/buildServer/clouds/azure/arm/connector/AzureApiConnectorImpl.java:980-982 | With distinct keys the map lists them in entry order |
| Listings.ShapedInDisplayNameOrder | plugin-azure-server-arm/src/main/java/jetbrains/buildServer/clouds/azure/arm/connector/AzureApiConnectorImpl.java:972-984 | With distinct identifiers, the shaped map has exactly the listed identifiers, each mapped to its own display name, iterated in display-name order |
| Listings.PutInOrder | plugin-azure-server-arm/src/main/java/jetbrains/buildServer/clouds/azure/arm/connector/AzureApiConnectorImpl.java:980-982 | The loop builds the same map as the put sequence |
| Listings.SubnetNames | plugin-azure-server-arm/src/main/java/jetbrains/buildServer/clouds/azure/arm/connector/AzureApiConnectorImpl.java:1059-1062 | The subnet names, one per subnet, in order |
| Listings.NetworkMap | plugin-azure-server-arm/src/main/java/jetbrains/buildServer/clouds/azure/arm/connector/AzureApiConnectorImpl.java:1055-1065 | The network filter yields a linked map with distinct keys |
| Listings.NetworkMapMembers | plugin-azure-server-arm/src/main/java/jetbrains/buildServer/clouds/azure/arm/connector/AzureApiConnectorImpl.java:1055-1065 | A network identifier is listed exactly when some network with it lies in the configured region, ignoring case |
| Listings.NetworkMapLastValue | plugin-azure-server-arm/src/main/java/jetbrains/buildServer/clouds/azure/arm/connector/AzureApiConnectorImpl.java:1055-1065 | A listed network carries the subnet names of the last network in the region with that identifier |
| Listings.NoLocationNoNetworks | plugin-azure-server-arm/src/main/java/jetbrains/buildServer/clouds/azure/arm/connector/AzureApiConnectorImpl.java:1057 | With no configured location, no network is listed |
| Listings.CollectNetworks | plugin-azure-server-arm/src/main/java/jetbrains/buildServer/clouds/azure/arm/connector/AzureApiConnectorImpl.java:1055-1065 | The filter loop builds the same map as the network filter |
| AsmInstance.Instance.Name | plugin-azure-server-asm/src/main/java/jetbrains/buildServer/clouds/azure/asm/connector/AzureInstance.java:45-47 | The name is the role instance's name |
| AsmInstance.Instance.IsInitialized | plugin-azure-server-asm/src/main/java/jetbrains/buildServer/clouds/azure/asm/connector/AzureInstance.java:50-52 | Always true |
| AsmInstance.Instance.StartDate | plugin-azure-server-asm/src/main/java/jetbrains/buildServer/clouds/azure/asm/connector/AzureInstance.java:55-57 | Always null |
| AsmInstance.Instance.IpAddress | plugin-azure-server-asm/src/main/java/jetbrains/buildServer/clouds/azure/asm/connector/AzureInstance.java:60-63 | Null exactly when the role instance has no address, otherwise its address text |
| AsmInstance.Instance.InstanceStatus | plugin-azure-server-asm/src/main/java/jetbrains/buildServer/clouds/azure/asm/connector/AzureInstance.java:67-81 | Started, Starting, Stopped and Stopping map to RUNNING, STARTING, STOPPED and STOPPING, each in both directions. Unknown and any unlisted state map to UNKNOWN |
| AsmInstance.Instance.Property | plugin-azure-server-asm/src/main/java/jetbrains/buildServer/clouds/azure/asm/connector/AzureInstance.java:85-87 | Always null |
| AsmInstance.StatusIsObserved | plugin-azure-server-asm/src/main/java/jetbrains/buildServer/clouds/azure/asm/connector/AzureInstance.java:67-81 | The status is never a scheduled, restarting or error state |

## Left out

- The promise engine (`DeferredObject`, `when`, `waitSafely`) and the interrupt paths (lines 196-202, 235-241, 462-467 of the connector). Callbacks run in sequence.
- The master promise of `when` can settle at the first rejection, before the other members do. The model lets every member settle first, so the `always` callback of `fetchInstancesAsync` sees every failure.
- The rejection value of the two-promise join in `getInstanceDataAsync` is taken to be the failing member's exception.
- Connector.AzureApiConnector.GetInstanceStatusIfExists: the status of the ARM instance record is an uninterpreted function parameter, because that class is not part of this model.
- Every Azure SDK call, `test()`, the connector constructor and `configureProxy`. Their outcomes are inputs. Four listings fail with the raw SDK failure, and the model adds the wrapping message itself: the VM listing (`VmListFailed`, the message of `getVirtualMachinesAsync`), and the subscription, location and network listings (`GetSubscriptions`, `GetLocations` and `GetNetworks`, the messages of lines 962, 1003 and 1045). Every other input except the blob listing (next lines) is taken as already wrapped in the message of its `…Async` wrapper.
- `java.net.URI` parsing and the "Invalid image URL" / "Failed to parse VHD image URL" paths. The model starts from host and path.
- Building a `CloudStorageAccount` ("Invalid storage account %s credentials") and a container reference ("Failed to connect to storage account"), which are foreign library calls. The keys and the blob listing are inputs.
- Storage.GetBlobs: does not model the "Failed to list container's %s blobs" wrapping, because the blob listing is an input outcome.
- `createVmAsync`, `restartVmAsync`, `getVmSizesAsync` (its order needs a comparator that is not part of this model), `checkInstance` and `setSubscriptionId`, which only configures SDK clients.
- Case-insensitive comparison folds ASCII letters only. Java's full Unicode case folding is not modelled.
- Listings.StrLe compares characters as Unicode scalar values. Java compares UTF-16 code units, so the two orders differ only outside the Basic Multilingual Plane.
- Listings.SortByDisplayName: states sortedness and permutation, but not the stability of Java's merge sort.
- `updateErrors` is a log of its argument lists. What the orchestrator's error list finally holds is not modelled, since its semantics are not part of this model.
- `TypedCloudErrorInfo.fromException` is the identity on failures.
- Connector.ScanFleet: line 304 appends a VM's failure to an unsynchronised `ArrayList` from the SDK callback thread where that VM's pipeline failed, so the source's error order is the order in which the pipelines fail. The model's VM order (`ScanFleetErrors`, `KeptFailures`) comes from running the callbacks in sequence.
- Logging, and the times of status entries, which are kept as integers.
- The null dereferences the connector would throw are not modelled. These are an account or network with a null location, and an instance-view status with a null code. Locations and codes are always strings here.
- AsmInstance.Instance.IpAddress: the role's address is already the text `InetAddress.toString` gives. A null power state, which would throw in the switch, is not modelled.
