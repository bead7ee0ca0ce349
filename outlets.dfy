/**
 * Power-control device outlets: the outlet table, outlet validation (the
 * per-device capacity check), the host notifications of an outlet save, the
 * prepopulation of a new device's outlets and the rendering of power state.
 */
module Outlets {
  import opened Wrappers
  import opened Decimal

  type HostId = nat
  type DeviceId = nat

  /** has_power: Some(true) on, Some(false) off, None unknown. */
  datatype Outlet = Outlet(device: DeviceId, identifier: string, host: Option<HostId>, hasPower: Option<bool>)

  /** power_state */
  function PowerState(hasPower: Option<bool>): string {
    match hasPower
    case None => "Unknown"
    case Some(on) => if on then "ON" else "OFF"
  }

  /** The three power states render differently, so the rendering can be read back. */
  lemma PowerStateDistinguishes(a: Option<bool>, b: Option<bool>)
    ensures PowerState(a) == PowerState(b) <==> a == b
    ensures PowerState(a) in {"Unknown", "ON", "OFF"}
  {
  }

  /** The state is known when has_power is True or False. */
  predicate Known(o: Outlet) { o.hasPower.Some? }

  /** all_outlets_known: every outlet's state is known (true of no outlets). */
  predicate AllOutletsKnown(outlets: seq<Outlet>) {
    forall i :: 0 <= i < |outlets| ==> Known(outlets[i])
  }

  /** Every outlet is known exactly when none of them renders as "Unknown". */
  lemma AllKnownIffNoneUnknown(outlets: seq<Outlet>)
    ensures AllOutletsKnown(outlets) <==> forall i :: 0 <= i < |outlets| ==> PowerState(outlets[i].hasPower) != "Unknown"
  {
    forall i | 0 <= i < |outlets|
      ensures Known(outlets[i]) <==> PowerState(outlets[i].hasPower) != "Unknown"
    {
      PowerStateDistinguishes(outlets[i].hasPower, None);
    }
  }

  /** device.outlets.all(), in table order. */
  function DeviceOutlets(rows: seq<Outlet>, dev: DeviceId): (r: seq<Outlet>)
    ensures |r| <= |rows|
    ensures forall i :: 0 <= i < |r| ==> r[i].device == dev && r[i] in rows
    decreases |rows|
  {
    if rows == [] then []
    else
      var last := rows[|rows| - 1];
      DeviceOutlets(rows[..|rows| - 1], dev) + (if last.device == dev then [last] else [])
  }

  lemma {:induction false} DeviceOutletsAppend(rows: seq<Outlet>, more: seq<Outlet>, dev: DeviceId)
    ensures DeviceOutlets(rows + more, dev) == DeviceOutlets(rows, dev) + DeviceOutlets(more, dev)
    decreases |more|
  {
    if more == [] {
      assert rows + more == rows;
    } else {
      var init := more[..|more| - 1];
      assert (rows + more)[..|rows + more| - 1] == rows + init;
      DeviceOutletsAppend(rows, init, dev);
    }
  }

  /** How many of `outlets` carry `ident`. */
  function CountIdentifier(outlets: seq<Outlet>, ident: string): (n: nat)
    ensures n <= |outlets|
    ensures n == 0 <==> forall i :: 0 <= i < |outlets| ==> outlets[i].identifier != ident
    decreases |outlets|
  {
    if outlets == [] then 0
    else (if outlets[0].identifier == ident then 1 else 0) + CountIdentifier(outlets[1..], ident)
  }

  datatype OutletError =
    | AtCapacity(maxOutlets: nat)   // ValidationError: device already at its maximum number of outlets
    | MultipleObjectsReturned       // objects.get(identifier, device) matched more than one row

  /**
   * PowerControlDeviceOutlet.clean. The outlet counts as an update when a
   * row of the same device already has its identifier; only a new outlet is
   * checked against the device type's max_outlets (0 is unlimited).
   */
  function OutletClean(rows: seq<Outlet>, o: Outlet, maxOutlets: nat): (r: Option<OutletError>)
    ensures r == Some(MultipleObjectsReturned) <==> CountIdentifier(DeviceOutlets(rows, o.device), o.identifier) >= 2
    ensures r == Some(AtCapacity(maxOutlets)) <==>
      && CountIdentifier(DeviceOutlets(rows, o.device), o.identifier) == 0
      && maxOutlets > 0 && |DeviceOutlets(rows, o.device)| >= maxOutlets
    ensures maxOutlets == 0 ==> r != Some(AtCapacity(maxOutlets))
    ensures r.Some? ==> r == Some(MultipleObjectsReturned) || r == Some(AtCapacity(maxOutlets))
  {
    var outlets := DeviceOutlets(rows, o.device);
    var matches := CountIdentifier(outlets, o.identifier);
    if matches >= 2 then Some(MultipleObjectsReturned)
    else
      var isUpdate := matches == 1;
      if !isUpdate && maxOutlets > 0 && |outlets| >= maxOutlets then Some(AtCapacity(maxOutlets))
      else None
  }

  /** A new outlet admitted by clean keeps a limited device within its limit. */
  lemma CapacityKeptForNewIdentifier(rows: seq<Outlet>, o: Outlet, maxOutlets: nat)
    requires maxOutlets > 0 && |DeviceOutlets(rows, o.device)| <= maxOutlets
    requires CountIdentifier(DeviceOutlets(rows, o.device), o.identifier) == 0
    requires OutletClean(rows, o, maxOutlets).None?
    ensures |DeviceOutlets(rows + [o], o.device)| <= maxOutlets
  {
    DeviceOutletsAppend(rows, [o], o.device);
    assert DeviceOutlets([o], o.device) == [o] by {
      assert [o][..0] == [];
    }
  }

  /**
   * The update test goes by identifier, not by primary key: a new outlet that
   * repeats an identifier already on a full device (for another host) passes
   * clean, and saving it takes the device past its limit.
   */
  lemma RepeatedIdentifierPassesFullDevice()
    ensures var rows := [Outlet(0, "1", None, None)];
      var o := Outlet(0, "1", Some(5), None);
      && OutletClean(rows, o, 1).None?
      && |DeviceOutlets(rows + [o], 0)| == 2
  {
    var rows := [Outlet(0, "1", None, None)];
    var o := Outlet(0, "1", Some(5), None);
    assert rows[..0] == [];
    assert (rows + [o])[..1] == rows;
  }

  /**
   * The converse quirk: saving an existing row under an identifier the device
   * does not have yet counts as a new outlet, so a rename on a full device is
   * rejected for capacity.
   */
  lemma RenameOnFullDeviceRejected()
    ensures var rows := [Outlet(0, "1", None, None)];
      var renamed := Outlet(0, "A", Some(3), None);
      && renamed.device == rows[0].device && renamed.identifier != rows[0].identifier
      && OutletClean(rows, renamed, 1) == Some(AtCapacity(1))
  {
    var rows := [Outlet(0, "1", None, None)];
    assert rows[..0] == [];
    assert DeviceOutlets(rows, 0) == rows;
  }

  /**
   * The hosts whose fencing must be reconfigured after an outlet save, in
   * notification order: the previous host when it was set and is not the new
   * one (including when the new host is None), then the new host if set.
   */
  function NotifyTargets(previous: Option<Outlet>, newHost: Option<HostId>): (r: seq<HostId>)
    ensures |r| <= 2 && (|r| == 2 ==> r[0] != r[1])
    ensures newHost.Some? ==> |r| >= 1 && r[|r| - 1] == newHost.value
    ensures forall h :: h in r ==> Some(h) == newHost || (previous.Some? && previous.value.host == Some(h))
    ensures (previous.Some? && previous.value.host.Some? && previous.value.host != newHost) <==>
      (|r| >= 1 && Some(r[0]) != newHost)
  {
    if newHost.Some? then
      (if previous.Some? && previous.value.host.Some? && previous.value.host != newHost
       then [previous.value.host.value] else [])
      + [newHost.value]
    else if previous.Some? && previous.value.host.Some? then [previous.value.host.value]
    else []
  }

  /** The table after saving `o`: an update in place, or a new row whose pk is the next index. */
  function Stored(rows: seq<Outlet>, pk: Option<nat>, o: Outlet): (r: seq<Outlet>)
    requires pk.Some? ==> pk.value < |rows|
    ensures pk.Some? ==> |r| == |rows| && r[pk.value] == o
    ensures pk.Some? ==> forall j :: 0 <= j < |rows| && j != pk.value ==> r[j] == rows[j]
    ensures pk.None? ==> r == rows + [o]
  {
    if pk.Some? then rows[pk.value := o] else rows + [o]
  }

  /** The outlets for `dev` with identifiers "1" .. "n", as prepopulation creates them. */
  function NumberedOutlets(dev: DeviceId, n: nat): (r: seq<Outlet>)
    ensures |r| == n
    ensures forall i :: 0 <= i < n ==> r[i] == Outlet(dev, NatToString(i + 1), None, None)
  {
    seq(n, i requires 0 <= i < n => Outlet(dev, NatToString(i + 1), None, None))
  }

  lemma {:induction false} NumberedOutletsAreTheDevices(dev: DeviceId, n: nat)
    ensures DeviceOutlets(NumberedOutlets(dev, n), dev) == NumberedOutlets(dev, n)
  {
    AllOnDevice(NumberedOutlets(dev, n), dev);
  }

  /** When every row belongs to `dev`, the device's outlets are all the rows. */
  lemma {:induction false} AllOnDevice(rows: seq<Outlet>, dev: DeviceId)
    requires forall i :: 0 <= i < |rows| ==> rows[i].device == dev
    ensures DeviceOutlets(rows, dev) == rows
    decreases |rows|
  {
    if rows != [] {
      var init := rows[..|rows| - 1];
      AllOnDevice(init, dev);
      assert rows == init + [rows[|rows| - 1]];
    }
  }

  lemma NumberedOutletsLackNextIdentifier(dev: DeviceId, n: nat)
    ensures CountIdentifier(NumberedOutlets(dev, n), NatToString(n + 1)) == 0
  {
    forall i | 0 <= i < n ensures NumberedOutlets(dev, n)[i].identifier != NatToString(n + 1) {
      NatToStringInjective(i + 1, n + 1);
    }
  }

  /** One round of prepopulation: outlet "i" passes clean and extends the numbered outlets. */
  lemma PrepopulateStep(base: seq<Outlet>, rows: seq<Outlet>, dev: DeviceId, i: nat, maxOutlets: nat)
    requires 1 <= i <= maxOutlets
    requires rows == base + NumberedOutlets(dev, i - 1)
    requires DeviceOutlets(rows, dev) == NumberedOutlets(dev, i - 1)
    ensures var o := Outlet(dev, NatToString(i), None, None);
      && OutletClean(rows, o, maxOutlets).None?
      && NotifyTargets(None, o.host) == []
      && rows + [o] == base + NumberedOutlets(dev, i)
      && DeviceOutlets(rows + [o], dev) == NumberedOutlets(dev, i)
  {
    var o := Outlet(dev, NatToString(i), None, None);
    NumberedOutletsLackNextIdentifier(dev, i - 1);
    FreshOutletPassesClean(rows, o, maxOutlets);
    NumberedOutletsGrow(base, rows, o, i - 1);
  }

  lemma NumberedOutletsGrow(base: seq<Outlet>, rows: seq<Outlet>, o: Outlet, n: nat)
    requires o == Outlet(o.device, NatToString(n + 1), None, None)
    requires rows == base + NumberedOutlets(o.device, n)
    requires DeviceOutlets(rows, o.device) == NumberedOutlets(o.device, n)
    ensures rows + [o] == base + NumberedOutlets(o.device, n + 1)
    ensures DeviceOutlets(rows + [o], o.device) == NumberedOutlets(o.device, n + 1)
  {
    NumberedOutletsSnoc(o.device, n);
    SingleDeviceOutlet(o);
    DeviceOutletsAppend(rows, [o], o.device);
  }

  lemma FreshOutletPassesClean(rows: seq<Outlet>, o: Outlet, maxOutlets: nat)
    requires CountIdentifier(DeviceOutlets(rows, o.device), o.identifier) == 0
    requires |DeviceOutlets(rows, o.device)| < maxOutlets
    ensures OutletClean(rows, o, maxOutlets).None?
  {
  }

  lemma NumberedOutletsSnoc(dev: DeviceId, n: nat)
    ensures NumberedOutlets(dev, n + 1) == NumberedOutlets(dev, n) + [Outlet(dev, NatToString(n + 1), None, None)]
  {
  }

  lemma SingleDeviceOutlet(o: Outlet)
    ensures DeviceOutlets([o], o.device) == [o]
  {
    assert [o][..0] == [];
  }

  /** The outlet rows of the database and the notifications sent to the job scheduler. */
  class OutletTable {
    /** Rows in primary-key order: the pk of a row is its index. */
    var rows: seq<Outlet>
    /** Hosts passed to JobSchedulerClient.notify (needs_fence_reconfiguration), in order. */
    var notified: seq<HostId>

    constructor (initial: seq<Outlet>)
      ensures rows == initial && notified == []
    {
      rows := initial;
      notified := [];
    }

    /**
     * PowerControlDeviceOutlet.save. Unless `skipReconfigure`, the outlet is
     * validated first (nothing is written when that fails), and after the
     * write the hosts whose fencing changes are notified.
     */
    method Save(pk: Option<nat>, o: Outlet, skipReconfigure: bool, maxOutlets: nat) returns (r: Result<nat, OutletError>)
      requires pk.Some? ==> pk.value < |rows|
      modifies this
      ensures var savedPk := if pk.Some? then pk.value else |old(rows)|;
        var previous := if pk.Some? then Some(old(rows)[pk.value]) else None;
        if skipReconfigure then
          r == Ok(savedPk) && rows == Stored(old(rows), pk, o) && notified == old(notified)
        else match OutletClean(old(rows), o, maxOutlets)
          case Some(e) => r == Err(e) && rows == old(rows) && notified == old(notified)
          case None =>
            && r == Ok(savedPk) && rows == Stored(old(rows), pk, o)
            && notified == old(notified) + NotifyTargets(previous, o.host)
    {
      var previous: Option<Outlet> := None;
      if !skipReconfigure {
        var invalid := OutletClean(rows, o, maxOutlets);
        if invalid.Some? {
          return Err(invalid.value);
        }
        // the outlet as stored before this save, if any
        previous := if pk.Some? then Some(rows[pk.value]) else None;
      }
      var savedPk := if pk.Some? then pk.value else |rows|;
      rows := Stored(rows, pk, o);
      if skipReconfigure {
        return Ok(savedPk);
      }
      notified := notified + NotifyTargets(previous, o.host);
      return Ok(savedPk);
    }

    /**
     * prepopulate_outlets: on creation of a device whose type has a fixed
     * outlet count, creates outlets "1" .. max_outlets for it, each through
     * save, in order; otherwise does nothing. A just-created device has no
     * outlets yet.
     */
    method Prepopulate(dev: DeviceId, maxOutlets: nat, created: bool)
      requires created ==> DeviceOutlets(rows, dev) == []
      modifies this
      ensures created && maxOutlets > 0 ==> rows == old(rows) + NumberedOutlets(dev, maxOutlets)
      ensures !(created && maxOutlets > 0) ==> rows == old(rows)
      ensures notified == old(notified)
    {
      if created && maxOutlets > 0 {
        var i := 1;
        while i <= maxOutlets
          invariant 1 <= i <= maxOutlets + 1
          invariant rows == old(rows) + NumberedOutlets(dev, i - 1)
          invariant DeviceOutlets(rows, dev) == NumberedOutlets(dev, i - 1)
          invariant notified == old(notified)
        {
          var o := Outlet(dev, NatToString(i), None, None);
          PrepopulateStep(old(rows), rows, dev, i, maxOutlets);
          var saved := Save(None, o, false, maxOutlets);
          i := i + 1;
        }
      }
    }
  }
}
