/** The ARM connector's fleet reconciliation (`fetchInstancesAsync`,
    `fetchInstances`) and status polling (`getInstanceStatusIfExists`), with the
    images and instances of the orchestrator as collaborator objects whose
    `updateErrors` calls are logged. Remote outcomes are inputs, and every
    joined promise is taken to settle after all of its members. */
module Connector {
  import opened Wrappers
  import opened CloudTypes
  import opened Text
  import opened InstanceData
  import opened Listings

  const NotFoundError := "Invalid status code 404"

  /** The tags the filter reads: server, profile and source. */
  datatype VmTags = VmTags(server: Option<string>, profile: Option<string>, source: Option<string>)

  /** A VM as the listing returns it; `tags` is None when it has no tag map. */
  datatype VirtualMachine = VirtualMachine(name: string, tags: Option<VmTags>)

  /** The image configuration the connector reads. */
  datatype ImageDetails = ImageDetails(vmNamePrefix: string, sourceName: Option<string>, vmPublicIp: bool)

  /** What the management plane answers about one VM: its instance view, its
      public address, and whether the view settles first when both fail. */
  datatype VmRemote = VmRemote(view: Outcome<seq<StatusEntry>>, address: Outcome<Option<string>>, viewFirst: bool)

  /** `StringUtil.areEqual`: two nulls are equal. */
  predicate AreEqual(a: Option<string>, b: Option<string>)
  {
    (a.None? && b.None?) || (a.Some? && b.Some? && a.value == b.value)
  }

  /** Lines 267-296: the VM belongs to this server, profile and image. */
  predicate Keeps(vm: VirtualMachine, details: ImageDetails, serverId: Option<string>, profileId: Option<string>): (r: bool)
    // `areEqual` is equality with null equal to null: a tagged VM with the
    // image's name prefix whose three tags equal the configuration
    ensures r <==> && StartsWith(vm.name, details.vmNamePrefix)
                   && vm.tags.Some?
                   && vm.tags.value.server == serverId
                   && vm.tags.value.profile == profileId
                   && vm.tags.value.source == details.sourceName
  {
    && StartsWith(vm.name, details.vmNamePrefix)
    && vm.tags.Some?
    && AreEqual(vm.tags.value.server, serverId)
    && AreEqual(vm.tags.value.profile, profileId)
    && AreEqual(vm.tags.value.source, details.sourceName)
  }

  /** The record a kept VM ends with once its pipeline has settled. */
  function PipelineView(name: string, details: ImageDetails, remote: VmRemote): InstanceView
  {
    InstanceDataView(NewView(name), details.vmPublicIp, remote.view, remote.address)
  }

  function PipelineOutcome(name: string, details: ImageDetails, remote: VmRemote): Outcome<()>
  {
    InstanceDataOutcome(NewView(name), details.vmPublicIp, remote.view, remote.address, remote.viewFirst)
  }

  /** What the filter loop has built: records by name, failures in order, and
      how many VMs were kept. */
  datatype FleetScan = FleetScan(instances: map<string, InstanceView>, exceptions: seq<Failure>, kept: nat)

  /** The filter loop over a VM list, with every pipeline settled. */
  function ScanFleet(machines: seq<VirtualMachine>, details: ImageDetails, serverId: Option<string>,
                     profileId: Option<string>, remote: string -> VmRemote): (r: FleetScan)
    // at most one record and one failure per kept VM, and no more kept VMs than listed
    ensures r.kept <= |machines|
    ensures |r.instances| <= r.kept && |r.exceptions| <= r.kept
  {
    if machines == [] then FleetScan(map[], [], 0)
    else
      var scan := ScanFleet(machines[..|machines| - 1], details, serverId, profileId, remote);
      var vm := machines[|machines| - 1];
      if !Keeps(vm, details, serverId, profileId) then scan
      else
        var outcome := PipelineOutcome(vm.name, details, remote(vm.name));
        FleetScan(scan.instances[vm.name := PipelineView(vm.name, details, remote(vm.name))],
                  scan.exceptions + (if outcome.Err? then [outcome.error] else []),
                  scan.kept + 1)
  }

  /** The failures of the kept VMs' pipelines, in VM order. */
  function KeptFailures(machines: seq<VirtualMachine>, details: ImageDetails, serverId: Option<string>,
                        profileId: Option<string>, remote: string -> VmRemote): (r: seq<Failure>)
    ensures forall f :: f in r ==>
      exists k :: (0 <= k < |machines| && Keeps(machines[k], details, serverId, profileId)
        && PipelineOutcome(machines[k].name, details, remote(machines[k].name)) == Err(f))
  {
    if machines == [] then []
    else
      var vm := machines[0];
      var outcome := PipelineOutcome(vm.name, details, remote(vm.name));
      var rest := KeptFailures(machines[1..], details, serverId, profileId, remote);
      assert forall k :: 0 <= k < |machines| - 1 ==> machines[1..][k] == machines[k + 1];
      (if Keeps(vm, details, serverId, profileId) && outcome.Err? then [outcome.error] else []) + rest
  }

  lemma KeptFailuresAppend(a: seq<VirtualMachine>, b: seq<VirtualMachine>, details: ImageDetails,
                           serverId: Option<string>, profileId: Option<string>, remote: string -> VmRemote)
    ensures KeptFailures(a + b, details, serverId, profileId, remote)
         == KeptFailures(a, details, serverId, profileId, remote) + KeptFailures(b, details, serverId, profileId, remote)
    decreases |a|
  {
    if a == [] {
      assert a + b == b;
    } else {
      assert (a + b)[0] == a[0];
      assert (a + b)[1..] == a[1..] + b;
      KeptFailuresAppend(a[1..], b, details, serverId, profileId, remote);
    }
  }

  /** Every kept VM is in the map under its name, whether its data arrived or
      not, and nothing else is. */
  lemma {:induction false} ScanFleetKeys(machines: seq<VirtualMachine>, details: ImageDetails,
                                         serverId: Option<string>, profileId: Option<string>, remote: string -> VmRemote)
    ensures forall name :: name in ScanFleet(machines, details, serverId, profileId, remote).instances <==>
      exists k :: 0 <= k < |machines| && machines[k].name == name && Keeps(machines[k], details, serverId, profileId)
    decreases |machines|
  {
    if machines != [] {
      var n := |machines| - 1;
      var init := machines[..n];
      ScanFleetKeys(init, details, serverId, profileId, remote);
      assert forall k :: 0 <= k < n ==> init[k] == machines[k];
    }
  }

  /** Each record is the one its own pipeline left, whichever VM of that name
      came last. */
  lemma {:induction false} ScanFleetRecords(machines: seq<VirtualMachine>, details: ImageDetails,
                                            serverId: Option<string>, profileId: Option<string>, remote: string -> VmRemote)
    ensures var scan := ScanFleet(machines, details, serverId, profileId, remote);
      forall name :: name in scan.instances ==> scan.instances[name] == PipelineView(name, details, remote(name))
    decreases |machines|
  {
    if machines != [] {
      ScanFleetRecords(machines[..|machines| - 1], details, serverId, profileId, remote);
    }
  }

  /** The errors are exactly the failed pipelines of kept VMs, in VM order,
      and there are no more of them than kept VMs. */
  lemma {:induction false} ScanFleetErrors(machines: seq<VirtualMachine>, details: ImageDetails,
                                           serverId: Option<string>, profileId: Option<string>, remote: string -> VmRemote)
    ensures var scan := ScanFleet(machines, details, serverId, profileId, remote);
      && scan.exceptions == KeptFailures(machines, details, serverId, profileId, remote)
      && |scan.exceptions| <= scan.kept
    decreases |machines|
  {
    if machines != [] {
      var n := |machines| - 1;
      var init := machines[..n];
      ScanFleetErrors(init, details, serverId, profileId, remote);
      assert machines == init + [machines[n]];
      KeptFailuresAppend(init, [machines[n]], details, serverId, profileId, remote);
    }
  }

  /** No VM is kept exactly when none passes the filter, and then the scan is
      empty. */
  lemma {:induction false} ScanFleetEmpty(machines: seq<VirtualMachine>, details: ImageDetails,
                                          serverId: Option<string>, profileId: Option<string>, remote: string -> VmRemote)
    ensures var scan := ScanFleet(machines, details, serverId, profileId, remote);
      && (scan.kept == 0 <==> forall k :: 0 <= k < |machines| ==> !Keeps(machines[k], details, serverId, profileId))
      && (scan.kept == 0 ==> scan.instances == map[] && scan.exceptions == [])
    decreases |machines|
  {
    if machines != [] {
      var n := |machines| - 1;
      var init := machines[..n];
      ScanFleetEmpty(init, details, serverId, profileId, remote);
      assert forall k :: 0 <= k < n ==> init[k] == machines[k];
    }
  }

  /** The VM-filter example: a VM whose tags all match is kept, and one tag
      that differs, or no tag map at all, excludes it. */
  lemma KeepsExactlyMatchingTags(name: string, details: ImageDetails, server: string, profile: string, source: string)
    requires StartsWith(name, details.vmNamePrefix) && details.sourceName == Some(source)
    ensures Keeps(VirtualMachine(name, Some(VmTags(Some(server), Some(profile), Some(source)))), details, Some(server), Some(profile))
    ensures !Keeps(VirtualMachine(name, None), details, Some(server), Some(profile))
    ensures forall other :: other != server ==>
      !Keeps(VirtualMachine(name, Some(VmTags(Some(other), Some(profile), Some(source)))), details, Some(server), Some(profile))
  {
  }

  /** `getVirtualMachinesAsync`'s rejection. */
  function VmListFailed(cause: Failure): Failure
  {
    Failure("Failed to get list of virtual machines: " + cause.message, Some(cause.message))
  }

  /** `fetchInstancesAsync`'s rejection. */
  function ListingFailed(imageName: string, cause: Failure): Failure
  {
    Failure("Failed to get list of instances for cloud image " + imageName + ": " + cause.message, Some(cause.message))
  }

  /** The `updateErrors` calls one image receives during `fetchInstances`: the
      listing failure; or the kept VMs' failures (only when some VM was kept),
      followed by the argument-less call of the done pipe. */
  function ImageErrorLog(imageName: string, details: ImageDetails, listing: Outcome<seq<VirtualMachine>>,
                         serverId: Option<string>, profileId: Option<string>, remote: string -> VmRemote)
    : (log: seq<seq<Failure>>)
    ensures listing.Err? ==> log == [[ListingFailed(imageName, VmListFailed(listing.error))]]
    ensures listing.Ok? ==> |log| >= 1 && log[|log| - 1] == []
    ensures listing.Ok? ==>
      && |log| <= 2
      && (|log| == 2 <==> exists k :: 0 <= k < |listing.value| && Keeps(listing.value[k], details, serverId, profileId))
    ensures listing.Ok? && |log| == 2 ==> log[0] == KeptFailures(listing.value, details, serverId, profileId, remote)
  {
    if listing.Err? then [[ListingFailed(imageName, VmListFailed(listing.error))]]
    else
      ScanFleetErrors(listing.value, details, serverId, profileId, remote);
      ScanFleetEmpty(listing.value, details, serverId, profileId, remote);
      var scan := ScanFleet(listing.value, details, serverId, profileId, remote);
      (if scan.kept == 0 then [] else [scan.exceptions]) + [[]]
  }

  /** An image of the orchestrator: its name, its configuration, and the log of
      `updateErrors` calls it has received. */
  class CloudImage {
    const name: string
    const details: ImageDetails
    var errorUpdates: seq<seq<Failure>>

    constructor (name: string, details: ImageDetails)
      ensures this.name == name && this.details == details && errorUpdates == []
    {
      this.name, this.details := name, details;
      errorUpdates := [];
    }

    method UpdateErrors(errors: seq<Failure>)
      modifies this
      ensures errorUpdates == old(errorUpdates) + [errors]
    {
      errorUpdates := errorUpdates + [errors];
    }
  }

  /** An agent instance of the orchestrator: its status and the log of
      `updateErrors` calls it has received. */
  class CloudInstance {
    const name: string
    const details: ImageDetails
    var status: InstanceStatus
    var errorUpdates: seq<seq<Failure>>

    constructor (name: string, details: ImageDetails, status: InstanceStatus)
      ensures this.name == name && this.details == details && this.status == status && errorUpdates == []
    {
      this.name, this.details, this.status := name, details, status;
      errorUpdates := [];
    }

    method SetStatus(status: InstanceStatus)
      modifies this
      ensures this.status == status && errorUpdates == old(errorUpdates)
    {
      this.status := status;
    }

    method UpdateErrors(errors: seq<Failure>)
      modifies this
      ensures errorUpdates == old(errorUpdates) + [errors] && status == old(status)
    {
      errorUpdates := errorUpdates + [errors];
    }
  }

  /** A failed status poll leaves the instance alone when the VM is not found
      or the instance is between states. */
  predicate ToleratedFailure(f: Failure, status: InstanceStatus): (r: bool)
    ensures r <==> f.causeMessage == Some(NotFoundError) || status == SCHEDULED_TO_START || status == SCHEDULED_TO_STOP
  {
    f.causeMessage == Some(NotFoundError) || status in {SCHEDULED_TO_START, SCHEDULED_TO_STOP}
  }

  /** The connector, with the configuration its setters write. */
  class AzureApiConnector {
    var serverId: Option<string>
    var profileId: Option<string>
    var location: Option<string>

    constructor ()
      ensures serverId.None? && profileId.None? && location.None?
    {
      serverId, profileId, location := None, None, None;
    }

    method SetServerId(serverId: Option<string>)
      modifies this
      ensures this.serverId == serverId && profileId == old(profileId) && location == old(location)
    {
      this.serverId := serverId;
    }

    method SetProfileId(profileId: Option<string>)
      modifies this
      ensures this.profileId == profileId && serverId == old(serverId) && location == old(location)
    {
      this.profileId := profileId;
    }

    method SetLocation(location: string)
      modifies this
      ensures this.location == Some(location) && serverId == old(serverId) && profileId == old(profileId)
    {
      this.location := Some(location);
    }

    /** `fetchInstancesAsync`: list the VMs, keep this image's, start each
        one's pipeline, and once all have settled replace the image's errors
        with the failures and resolve with the records by name. */
    method FetchInstancesAsync(image: CloudImage, listing: Outcome<seq<VirtualMachine>>, remote: string -> VmRemote)
      returns (r: Outcome<map<string, InstanceView>>)
      modifies image
      ensures listing.Err? ==>
        r == Err(ListingFailed(image.name, VmListFailed(listing.error))) && image.errorUpdates == old(image.errorUpdates)
      ensures listing.Ok? ==>
        var scan := ScanFleet(listing.value, image.details, serverId, profileId, remote);
        && r == Ok(scan.instances)
        && image.errorUpdates == old(image.errorUpdates) + (if scan.kept == 0 then [] else [scan.exceptions])
    {
      if listing.Err? {
        return Err(ListingFailed(image.name, VmListFailed(listing.error)));
      }
      var machines := listing.value;
      var details := image.details;
      var instances: map<string, InstanceView> := map[];
      var exceptions: seq<Failure> := [];
      var kept := 0;
      for i := 0 to |machines|
        invariant ScanFleet(machines[..i], details, serverId, profileId, remote) == FleetScan(instances, exceptions, kept)
        invariant image.errorUpdates == old(image.errorUpdates)
      {
        var vm := machines[i];
        assert machines[..i + 1][..i] == machines[..i];
        if Keeps(vm, details, serverId, profileId) {
          var instance := new AzureInstance(vm.name);
          var data := remote(vm.name);
          var outcome, _ := instance.GetInstanceData(details.vmPublicIp, data.view, data.address, data.viewFirst);
          if outcome.Err? {
            exceptions := exceptions + [outcome.error];
          }
          instances := instances[vm.name := instance.View()];
          kept := kept + 1;
        }
      }
      assert machines[..|machines|] == machines;
      if kept != 0 {
        // lines 318-323
        var errors := new Failure[|exceptions|];
        for i := 0 to |exceptions|
          invariant errors[..i] == exceptions[..i]
          invariant image.errorUpdates == old(image.errorUpdates)
        {
          errors[i] := exceptions[i];
        }
        assert errors[..] == exceptions;
        image.UpdateErrors(errors[..]);
      }
      r := Ok(instances);
    }

    /** `fetchInstances`: run every image's fetch; an image whose VM listing
        failed gets that failure as its errors and no entry in the result. */
    method FetchInstances(images: set<CloudImage>, listingOf: CloudImage -> Outcome<seq<VirtualMachine>>,
                          remoteOf: CloudImage -> string -> VmRemote)
      returns (imageMap: map<CloudImage, map<string, InstanceView>>)
      modifies images
      ensures imageMap.Keys == set image | image in images && listingOf(image).Ok?
      ensures forall image :: image in imageMap ==>
        imageMap[image] == ScanFleet(listingOf(image).value, image.details, serverId, profileId, remoteOf(image)).instances
      ensures forall image :: image in images ==>
        image.errorUpdates == old(image.errorUpdates) +
          ImageErrorLog(image.name, image.details, listingOf(image), serverId, profileId, remoteOf(image))
    {
      imageMap := map[];
      var remaining := images;
      while remaining != {}
        invariant remaining <= images
        invariant imageMap.Keys == set image | image in images - remaining && listingOf(image).Ok?
        invariant forall image :: image in imageMap ==>
          imageMap[image] == ScanFleet(listingOf(image).value, image.details, serverId, profileId, remoteOf(image)).instances
        invariant forall image :: image in images - remaining ==>
          image.errorUpdates == old(image.errorUpdates) +
            ImageErrorLog(image.name, image.details, listingOf(image), serverId, profileId, remoteOf(image))
        invariant forall image :: image in remaining ==> image.errorUpdates == old(image.errorUpdates)
        decreases remaining
      {
        var image :| image in remaining;
        var result := FetchInstancesAsync(image, listingOf(image), remoteOf(image));
        match result {
          case Err(f) =>
            image.UpdateErrors([f]);
          case Ok(instances) =>
            image.UpdateErrors([]);
            imageMap := imageMap[image := instances];
        }
        remaining := remaining - {image};
      }
    }

    /** `getSubscriptionsAsync`: subscriptions sorted by display name, put
        by identifier. */
    method GetSubscriptions(listing: Outcome<seq<Named>>) returns (r: Outcome<LinkedMap<string>>)
      ensures listing.Err? ==>
        r == Err(Failure("Failed to get list of subscriptions " + listing.error.message, Some(listing.error.message)))
      ensures listing.Ok? ==> r == Ok(PutAll(SortByDisplayName(listing.value)))
    {
      match listing {
        case Err(t) =>
          r := Err(Failure("Failed to get list of subscriptions " + t.message, Some(t.message)));
        case Ok(subscriptions) =>
          var shaped := PutInOrder(SortByDisplayName(subscriptions));
          r := Ok(shaped);
      }
    }

    /** `getLocationsAsync`: locations sorted by display name, put by name. */
    method GetLocations(subscription: string, listing: Outcome<seq<Named>>) returns (r: Outcome<LinkedMap<string>>)
      ensures listing.Err? ==>
        r == Err(Failure("Failed to get list of locations in subscription " + subscription + ": " + listing.error.message,
                         Some(listing.error.message)))
      ensures listing.Ok? ==> r == Ok(PutAll(SortByDisplayName(listing.value)))
    {
      match listing {
        case Err(t) =>
          r := Err(Failure("Failed to get list of locations in subscription " + subscription + ": " + t.message, Some(t.message)));
        case Ok(locations) =>
          var shaped := PutInOrder(SortByDisplayName(locations));
          r := Ok(shaped);
      }
    }

    /** `getNetworksAsync`: the networks in the configured region, by
        identifier, to their subnet names. */
    method GetNetworks(listing: Outcome<seq<VirtualNetwork>>) returns (r: Outcome<LinkedMap<seq<string>>>)
      ensures listing.Err? ==>
        r == Err(Failure("Failed to get list of networks: " + listing.error.message, Some(listing.error.message)))
      ensures listing.Ok? ==> r == Ok(NetworkMap(listing.value, location))
    {
      match listing {
        case Err(t) =>
          r := Err(Failure("Failed to get list of networks: " + t.message, Some(t.message)));
        case Ok(networks) =>
          var shaped := CollectNetworks(networks, location);
          r := Ok(shaped);
      }
    }

    /** `getInstanceStatusIfExists`: poll one instance's data; on success
        store and return the status the record maps to and clear the errors;
        on a failure that is not tolerated mark the instance ERROR and record
        the failure. `statusOf` is the record's own status mapping. */
    method GetInstanceStatusIfExists(instance: CloudInstance, remote: VmRemote, statusOf: InstanceView -> InstanceStatus)
      returns (r: Option<InstanceStatus>)
      modifies instance
      ensures var outcome := PipelineOutcome(instance.name, instance.details, remote);
        && (outcome.Ok? ==>
              var status := statusOf(PipelineView(instance.name, instance.details, remote));
              r == Some(status) && instance.status == status && instance.errorUpdates == old(instance.errorUpdates) + [[]])
        && (outcome.Err? && ToleratedFailure(outcome.error, old(instance.status)) ==>
              r == None && instance.status == old(instance.status) && instance.errorUpdates == old(instance.errorUpdates))
        && (outcome.Err? && !ToleratedFailure(outcome.error, old(instance.status)) ==>
              r == None && instance.status == ERROR && instance.errorUpdates == old(instance.errorUpdates) + [[outcome.error]])
    {
      var record := new AzureInstance(instance.name);
      var outcome, _ := record.GetInstanceData(instance.details.vmPublicIp, remote.view, remote.address, remote.viewFirst);
      match outcome {
        case Err(f) =>
          if f.causeMessage == Some(NotFoundError) || instance.status in {SCHEDULED_TO_START, SCHEDULED_TO_STOP} {
            return None;
          }
          instance.SetStatus(ERROR);
          instance.UpdateErrors([f]);
          r := None;
        case Ok(_) =>
          var status := statusOf(record.View());
          instance.SetStatus(status);
          instance.UpdateErrors([]);
          r := Some(status);
      }
    }
  }

  /** Polling outcomes at a glance: a status is returned exactly when the
      pipeline succeeds, and only an untolerated failure marks ERROR. */
  lemma StatusPollOutcomes(name: string, details: ImageDetails, remote: VmRemote)
    ensures PipelineOutcome(name, details, remote).Ok? <==> remote.view.Ok? && (remote.address.Ok? || !details.vmPublicIp)
  {
  }
}
