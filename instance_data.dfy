/** The per-VM instance-data pipeline (`getInstanceDataAsync`): the instance
    view's status codes and, when asked for, the public IP address are merged
    into a mutable instance record. */
module InstanceData {
  import opened Wrappers
  import opened CloudTypes
  import opened Text

  const ProvisioningPrefix := "ProvisioningState/"
  const PowerPrefix := "PowerState/"
  const PublicIpSuffix := "-pip"

  /** One status of a VM's instance view: its code and its time, if any. */
  datatype StatusEntry = StatusEntry(code: string, time: Option<int>)

  /** The value of an instance record at one moment. */
  datatype InstanceView = InstanceView(
    name: string,
    provisioningState: Option<string>,
    powerState: Option<string>,
    startDate: Option<int>,
    ipAddress: Option<string>)

  /** A record as created for a VM name, before any data arrives. */
  function NewView(name: string): InstanceView
  {
    InstanceView(name, None, None, None, None)
  }

  /** One iteration of the status loop (lines 363-373). */
  function ApplyStatus(v: InstanceView, e: StatusEntry): (r: InstanceView)
    ensures r.name == v.name && r.ipAddress == v.ipAddress
    // a state or date once set is never cleared
    ensures v.provisioningState.Some? ==> r.provisioningState.Some?
    ensures v.powerState.Some? ==> r.powerState.Some?
    ensures v.startDate.Some? ==> r.startDate.Some?
  {
    var v' := if StartsWith(e.code, ProvisioningPrefix) then
                v.(provisioningState := Some(e.code[|ProvisioningPrefix|..]),
                   startDate := if e.time.Some? then e.time else v.startDate)
              else v;
    if StartsWith(e.code, PowerPrefix) then v'.(powerState := Some(e.code[|PowerPrefix|..])) else v'
  }

  /** The whole status loop: the statuses applied in order. */
  function ParseStatuses(v: InstanceView, entries: seq<StatusEntry>): (r: InstanceView)
    // a state or date once set is never cleared by the loop
    ensures v.provisioningState.Some? ==> r.provisioningState.Some?
    ensures v.powerState.Some? ==> r.powerState.Some?
    ensures v.startDate.Some? ==> r.startDate.Some?
  {
    if entries == [] then v
    else ApplyStatus(ParseStatuses(v, entries[..|entries| - 1]), entries[|entries| - 1])
  }

  /** Entry `k` is the last one whose code starts with `prefix` (and, when
      `timed`, that also carries a time). */
  ghost predicate LastWith(entries: seq<StatusEntry>, prefix: string, timed: bool, k: int)
  {
    && 0 <= k < |entries|
    && StartsWith(entries[k].code, prefix) && (timed ==> entries[k].time.Some?)
    && forall k' :: k < k' < |entries| ==> !(StartsWith(entries[k'].code, prefix) && (timed ==> entries[k'].time.Some?))
  }

  ghost predicate NoneWith(entries: seq<StatusEntry>, prefix: string, timed: bool)
  {
    forall k :: 0 <= k < |entries| ==> !(StartsWith(entries[k].code, prefix) && (timed ==> entries[k].time.Some?))
  }

  /** The entries before the last one keep their "last" and "none" facts. */
  lemma LastWithInit(entries: seq<StatusEntry>, prefix: string, timed: bool)
    requires entries != []
    ensures var n := |entries| - 1;
      var hit := StartsWith(entries[n].code, prefix) && (timed ==> entries[n].time.Some?);
      && (hit ==> forall k :: LastWith(entries, prefix, timed, k) <==> k == n)
      && (!hit ==> forall k :: LastWith(entries, prefix, timed, k) <==> LastWith(entries[..n], prefix, timed, k))
      && (NoneWith(entries, prefix, timed) <==> !hit && NoneWith(entries[..n], prefix, timed))
  {
    var n := |entries| - 1;
    assert forall k :: 0 <= k < n ==> entries[..n][k] == entries[k];
  }

  /** Later statuses overwrite earlier ones: the provisioning state is the
      suffix of the last provisioning status, and untouched when there is none. */
  lemma {:induction false} ProvisioningStateLastWins(v: InstanceView, entries: seq<StatusEntry>)
    ensures NoneWith(entries, ProvisioningPrefix, false) ==>
      ParseStatuses(v, entries).provisioningState == v.provisioningState
    ensures forall k :: LastWith(entries, ProvisioningPrefix, false, k) ==>
      ParseStatuses(v, entries).provisioningState == Some(entries[k].code[|ProvisioningPrefix|..])
    decreases |entries|
  {
    if entries != [] {
      ProvisioningStateLastWins(v, entries[..|entries| - 1]);
      LastWithInit(entries, ProvisioningPrefix, false);
    }
  }

  /** The power state is the suffix of the last power status. */
  lemma {:induction false} PowerStateLastWins(v: InstanceView, entries: seq<StatusEntry>)
    ensures NoneWith(entries, PowerPrefix, false) ==>
      ParseStatuses(v, entries).powerState == v.powerState
    ensures forall k :: LastWith(entries, PowerPrefix, false, k) ==>
      ParseStatuses(v, entries).powerState == Some(entries[k].code[|PowerPrefix|..])
    decreases |entries|
  {
    if entries != [] {
      PowerStateLastWins(v, entries[..|entries| - 1]);
      LastWithInit(entries, PowerPrefix, false);
    }
  }

  /** The start date is the time of the last provisioning status that has one;
      a provisioning status without a time leaves it as it was. */
  lemma {:induction false} StartDateLastWins(v: InstanceView, entries: seq<StatusEntry>)
    ensures NoneWith(entries, ProvisioningPrefix, true) ==>
      ParseStatuses(v, entries).startDate == v.startDate
    ensures forall k :: LastWith(entries, ProvisioningPrefix, true, k) ==>
      ParseStatuses(v, entries).startDate == entries[k].time
    decreases |entries|
  {
    if entries != [] {
      var n := |entries| - 1;
      StartDateLastWins(v, entries[..n]);
      LastWithInit(entries, ProvisioningPrefix, true);
      var before := ParseStatuses(v, entries[..n]);
      var e := entries[n];
      assert ParseStatuses(v, entries) == ApplyStatus(before, e);
      if StartsWith(e.code, ProvisioningPrefix) && e.time.Some? {
        assert ApplyStatus(before, e).startDate == e.time;
        forall k | LastWith(entries, ProvisioningPrefix, true, k)
          ensures ParseStatuses(v, entries).startDate == entries[k].time
        {
          assert k == n;
        }
      } else {
        assert ApplyStatus(before, e).startDate == before.startDate;
        forall k | LastWith(entries, ProvisioningPrefix, true, k)
          ensures ParseStatuses(v, entries).startDate == entries[k].time
        {
          assert LastWith(entries[..n], ProvisioningPrefix, true, k);
          assert entries[..n][k] == entries[k];
        }
      }
    }
  }

  /** The status loop never touches the name or the address. */
  lemma {:induction false} ParseKeepsNameAndAddress(v: InstanceView, entries: seq<StatusEntry>)
    ensures ParseStatuses(v, entries).name == v.name
    ensures ParseStatuses(v, entries).ipAddress == v.ipAddress
    decreases |entries|
  {
    if entries != [] {
      ParseKeepsNameAndAddress(v, entries[..|entries| - 1]);
    }
  }

  /** A code that starts with neither prefix changes nothing. */
  lemma UnrecognisedStatusIgnored(v: InstanceView, e: StatusEntry)
    requires !StartsWith(e.code, ProvisioningPrefix) && !StartsWith(e.code, PowerPrefix)
    ensures ApplyStatus(v, e) == v
  {
  }

  /** The two-status example: provisioning "Succeeded", power "running". */
  lemma ParseExample(v: InstanceView)
    ensures var r := ParseStatuses(v, [StatusEntry(ProvisioningPrefix + "Succeeded", None),
                                       StatusEntry(PowerPrefix + "running", None)]);
      r.provisioningState == Some("Succeeded") && r.powerState == Some("running") && r.startDate == v.startDate
  {
    var es := [StatusEntry(ProvisioningPrefix + "Succeeded", None), StatusEntry(PowerPrefix + "running", None)];
    assert StartsWith(es[0].code, ProvisioningPrefix) && es[0].code[|ProvisioningPrefix|..] == "Succeeded";
    assert StartsWith(es[1].code, PowerPrefix) && es[1].code[|PowerPrefix|..] == "running";
    assert es[0].code[1] == 'r' && PowerPrefix[1] == 'o';
    assert es[1].code[1] == 'o' && ProvisioningPrefix[1] == 'r';
    assert LastWith(es, ProvisioningPrefix, false, 0);
    assert LastWith(es, PowerPrefix, false, 1);
    assert NoneWith(es, ProvisioningPrefix, true);
    ProvisioningStateLastWins(v, es);
    PowerStateLastWins(v, es);
    StartDateLastWins(v, es);
  }

  /** `StringUtil.isEmpty`: null or the empty string. */
  predicate IsEmpty(s: Option<string>)
  {
    s.None? || s.value == []
  }

  /** Lines 388-390: a looked-up address is kept only when it is not empty. */
  function ApplyPublicIp(v: InstanceView, address: Option<string>): (r: InstanceView)
    ensures r.ipAddress == if IsEmpty(address) then v.ipAddress else address
    ensures r.(ipAddress := v.ipAddress) == v
  {
    if IsEmpty(address) then v else v.(ipAddress := address)
  }

  /** Line 381: the address is looked up only when the image asks for a public
      IP and the record has none yet. */
  predicate NeedsPublicIp(v: InstanceView, publicIpRequested: bool): (r: bool)
    ensures r ==> publicIpRequested
    ensures v.ipAddress.Some? ==> !r
    ensures publicIpRequested && v.ipAddress.None? ==> r
  {
    publicIpRequested && v.ipAddress.None?
  }

  /** The two callbacks touch disjoint fields, so the order in which the
      instance view and the address arrive does not matter. */
  lemma {:induction false} CallbacksCommute(v: InstanceView, entries: seq<StatusEntry>, address: Option<string>)
    ensures ParseStatuses(ApplyPublicIp(v, address), entries) == ApplyPublicIp(ParseStatuses(v, entries), address)
    decreases |entries|
  {
    if entries != [] {
      CallbacksCommute(v, entries[..|entries| - 1], address);
    }
  }

  /** The joined outcome of two promises: resolved when both are, otherwise the
      rejection that settles first (`aFirst` says which one when both reject). */
  function Join(a: Outcome<()>, b: Outcome<()>, aFirst: bool): (r: Outcome<()>)
    ensures r.Ok? <==> a.Ok? && b.Ok?
    ensures a.Err? && b.Ok? ==> r == a
    ensures a.Ok? && b.Err? ==> r == b
    ensures a.Err? && b.Err? ==> r == if aFirst then a else b
  {
    if a.Err? && (b.Ok? || aFirst) then a else b
  }

  /** The record after the pipeline, whatever order its callbacks ran in. */
  function InstanceDataView(v: InstanceView, publicIpRequested: bool,
                            view: Outcome<seq<StatusEntry>>, address: Outcome<Option<string>>): (r: InstanceView)
    ensures r.name == v.name
    // the states and the start date come from the instance view alone
    ensures view.Ok? ==> r.(ipAddress := v.ipAddress) == ParseStatuses(v, view.value)
    ensures view.Err? ==> r.(ipAddress := v.ipAddress) == v
    // the address changes only when it was looked up and arrived non-empty
    ensures r.ipAddress != v.ipAddress ==>
      NeedsPublicIp(v, publicIpRequested) && address.Ok? && !IsEmpty(address.value) && r.ipAddress == address.value
  {
    ParseKeepsNameAndAddress(v, if view.Ok? then view.value else []);
    var v' := if view.Ok? then ParseStatuses(v, view.value) else v;
    if NeedsPublicIp(v, publicIpRequested) && address.Ok? then ApplyPublicIp(v', address.value) else v'
  }

  /** How the pipeline's promise settles. */
  function InstanceDataOutcome(v: InstanceView, publicIpRequested: bool,
                               view: Outcome<seq<StatusEntry>>, address: Outcome<Option<string>>,
                               viewFirst: bool): (r: Outcome<()>)
    ensures r.Ok? <==> view.Ok? && (address.Ok? || !NeedsPublicIp(v, publicIpRequested))
    ensures r.Err? ==> (view.Err? && r == Err(view.error)) ||
                       (NeedsPublicIp(v, publicIpRequested) && address.Err? && r == Err(address.error))
  {
    var viewDone: Outcome<()> := if view.Ok? then Ok(()) else Err(view.error);
    var ipDone: Outcome<()> :=
      if NeedsPublicIp(v, publicIpRequested) && address.Err? then Err(address.error) else Ok(());
    Join(viewDone, ipDone, viewFirst)
  }

  /** The instance record `AzureInstance` of the ARM connector, whose setters
      the callbacks call. */
  class AzureInstance {
    const name: string
    var provisioningState: Option<string>
    var powerState: Option<string>
    var startDate: Option<int>
    var ipAddress: Option<string>

    function View(): InstanceView
      reads this
    {
      InstanceView(name, provisioningState, powerState, startDate, ipAddress)
    }

    constructor (name: string)
      ensures View() == NewView(name)
    {
      this.name := name;
      provisioningState, powerState, startDate, ipAddress := None, None, None, None;
    }

    /** Lines 362-374. */
    method ApplyStatuses(entries: seq<StatusEntry>)
      modifies this
      ensures View() == ParseStatuses(old(View()), entries)
    {
      ghost var v0 := View();
      for i := 0 to |entries|
        invariant View() == ParseStatuses(v0, entries[..i])
      {
        var code := entries[i].code;
        if |ProvisioningPrefix| <= |code| && code[..|ProvisioningPrefix|] == ProvisioningPrefix {
          provisioningState := Some(code[|ProvisioningPrefix|..]);
          if entries[i].time.Some? {
            startDate := entries[i].time;
          }
        }
        if |PowerPrefix| <= |code| && code[..|PowerPrefix|] == PowerPrefix {
          powerState := Some(code[|PowerPrefix|..]);
        }
        assert entries[..i + 1][..i] == entries[..i];
      }
      assert entries[..|entries|] == entries;
    }

    /** Lines 388-390. */
    method SetPublicIp(address: Option<string>)
      modifies this
      ensures View() == ApplyPublicIp(old(View()), address)
    {
      if !IsEmpty(address) {
        ipAddress := address;
      }
    }

    /** `getInstanceDataAsync`: fetch the instance view and, when needed, the
        address named `name + "-pip"` in resource group `name`; both results
        are merged into this record and the joined outcome is returned. */
    method GetInstanceData(publicIpRequested: bool, view: Outcome<seq<StatusEntry>>,
                           address: Outcome<Option<string>>, viewFirst: bool)
      returns (r: Outcome<()>, lookup: Option<string>)
      modifies this
      ensures lookup == if NeedsPublicIp(old(View()), publicIpRequested) then Some(name + PublicIpSuffix) else None
      ensures View() == InstanceDataView(old(View()), publicIpRequested, view, address)
      ensures r == InstanceDataOutcome(old(View()), publicIpRequested, view, address, viewFirst)
    {
      var needsIp := publicIpRequested && ipAddress.None?;
      lookup := if needsIp then Some(name + PublicIpSuffix) else None;
      if view.Ok? {
        ApplyStatuses(view.value);
      }
      if needsIp && address.Ok? {
        SetPublicIp(address.value);
      }
      var viewDone: Outcome<()> := if view.Ok? then Ok(()) else Err(view.error);
      var ipDone: Outcome<()> := if needsIp && address.Err? then Err(address.error) else Ok(());
      r := Join(viewDone, ipDone, viewFirst);
    }
  }
}
