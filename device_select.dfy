/** `create_context_on` of cl-helper.c: pick the `idx`-th device, counting
    from zero, among the devices whose name contains `dev_name` on the
    platforms whose vendor contains `plat_name`, walking platforms in order
    and the devices of each platform in order.

    The platform and device lists the OpenCL runtime reports are an input.
    Creating the context and the command queue on the chosen device is
    abstracted into a `Binding` that names the device and records whether
    the queue has profiling enabled. The walk ends in `abort()` in two ways,
    both of which become a `Failure`: a runtime query it makes fails
    (`QueryFailed`), or it runs out of devices ("specified device not found",
    `DeviceNotFound`). The queries that fail on the inputs are those for a
    name that does not fit the MAX_NAME_LEN-byte buffer, and the device list
    of a platform that has no devices.
 */
module DeviceSelect {
  import opened Outcomes
  import opened NameBuffer

  /** What the runtime reports for one platform: its name, its vendor and the
      names of its devices, in the order `clGetDeviceIDs` lists them. */
  datatype Platform = Platform(name: string, vendor: string, devices: seq<string>)

  /** The chosen device, as platform and device positions, and the
      profiling property of the queue created on it. */
  datatype Binding = Binding(platform: nat, device: nat, profiling: bool)

  datatype SelectError =
    | QueryFailed      // a clGetPlatformInfo, clGetDeviceIDs or clGetDeviceInfo call fails
    | DeviceNotFound   // every reported device was walked without reaching `idx`

  /** The name does not fit the query buffer together with its '\0', so the
      query reports an invalid size instead of truncating. */
  predicate TooLong(name: string)
  {
    |name| >= MAX_NAME_LEN
  }

  /** `needle` occurs in `hay` starting at position `k`. */
  predicate OccursAt(hay: string, needle: string, k: nat)
  {
    k + |needle| <= |hay| && hay[k..k + |needle|] == needle
  }

  /** `strstr(hay, needle) != NULL`. */
  predicate Contains(hay: string, needle: string)
    decreases |hay|
  {
    needle <= hay || (hay != [] && Contains(hay[1..], needle))
  }

  lemma {:induction false} OccursContains(hay: string, needle: string, k: nat)
    requires OccursAt(hay, needle, k)
    ensures Contains(hay, needle)
    decreases k
  {
    if k > 0 {
      assert hay[1..][k - 1..k - 1 + |needle|] == hay[k..k + |needle|];
      OccursContains(hay[1..], needle, k - 1);
    }
  }

  lemma {:induction false} ContainsOccurs(hay: string, needle: string) returns (k: nat)
    requires Contains(hay, needle)
    ensures OccursAt(hay, needle, k)
    decreases |hay|
  {
    if needle <= hay {
      k := 0;
    } else {
      var rest := ContainsOccurs(hay[1..], needle);
      k := rest + 1;
      assert hay[k..k + |needle|] == hay[1..][rest..rest + |needle|];
    }
  }

  /** `Contains` is substring search: the needle occurs at some position. */
  lemma ContainsIffOccurs(hay: string, needle: string)
    ensures Contains(hay, needle) <==> exists k: nat :: OccursAt(hay, needle, k)
  {
    if Contains(hay, needle) {
      var k := ContainsOccurs(hay, needle);
    } else {
      forall k: nat ensures !OccursAt(hay, needle, k) {
        if OccursAt(hay, needle, k) {
          OccursContains(hay, needle, k);
        }
      }
    }
  }

  /** The empty string occurs in every string. */
  lemma EmptyNeedleContained(hay: string)
    ensures Contains(hay, "")
  {
  }

  /** A NULL filter (None) accepts everything; otherwise the text must
      contain the filter. */
  predicate Accepts(filter: Option<string>, text: string)
  {
    filter.None? || Contains(text, filter.value)
  }

  /** Device `j` of platform `i` qualifies. */
  predicate IsMatch(platforms: seq<Platform>, platName: Option<string>, devName: Option<string>, i: nat, j: nat)
  {
    && i < |platforms|
    && j < |platforms[i].devices|
    && Accepts(platName, platforms[i].vendor)
    && Accepts(devName, platforms[i].devices[j])
  }

  /** How many of the first `k` devices pass the device filter. */
  function MatchingDevices(devices: seq<string>, devName: Option<string>, k: nat): nat
    requires k <= |devices|
  {
    if k == 0 then 0
    else MatchingDevices(devices, devName, k - 1) + (if Accepts(devName, devices[k - 1]) then 1 else 0)
  }

  /** How many devices of platform `p` qualify: none when its vendor fails
      the platform filter. */
  function PlatformMatches(p: Platform, platName: Option<string>, devName: Option<string>): nat
  {
    if Accepts(platName, p.vendor) then MatchingDevices(p.devices, devName, |p.devices|) else 0
  }

  /** How many devices qualify on the first `n` platforms. */
  function MatchesBefore(platforms: seq<Platform>, platName: Option<string>, devName: Option<string>, n: nat): nat
    requires n <= |platforms|
  {
    if n == 0 then 0
    else MatchesBefore(platforms, platName, devName, n - 1) + PlatformMatches(platforms[n - 1], platName, devName)
  }

  function TotalMatches(platforms: seq<Platform>, platName: Option<string>, devName: Option<string>): nat
  {
    MatchesBefore(platforms, platName, devName, |platforms|)
  }

  /** The position of device `j` of platform `i` among the qualifying
      devices: how many qualifying devices the walk meets before it. */
  function Rank(platforms: seq<Platform>, platName: Option<string>, devName: Option<string>, i: nat, j: nat): nat
    requires i < |platforms| && j <= |platforms[i].devices|
  {
    MatchesBefore(platforms, platName, devName, i)
    + (if Accepts(platName, platforms[i].vendor) then MatchingDevices(platforms[i].devices, devName, j) else 0)
  }

  lemma {:induction false} MatchingDevicesMonotone(devices: seq<string>, devName: Option<string>, k: nat, m: nat)
    requires k <= m <= |devices|
    ensures MatchingDevices(devices, devName, k) <= MatchingDevices(devices, devName, m)
    decreases m - k
  {
    if k < m {
      MatchingDevicesMonotone(devices, devName, k, m - 1);
    }
  }

  lemma {:induction false} MatchesBeforeMonotone(platforms: seq<Platform>, platName: Option<string>, devName: Option<string>, n: nat, m: nat)
    requires n <= m <= |platforms|
    ensures MatchesBefore(platforms, platName, devName, n) <= MatchesBefore(platforms, platName, devName, m)
    decreases m - n
  {
    if n < m {
      MatchesBeforeMonotone(platforms, platName, devName, n, m - 1);
    }
  }

  /** A qualifying device lies below the platform's whole count. */
  lemma RankWithinPlatform(platforms: seq<Platform>, platName: Option<string>, devName: Option<string>, i: nat, j: nat)
    requires IsMatch(platforms, platName, devName, i, j)
    ensures Rank(platforms, platName, devName, i, j) < MatchesBefore(platforms, platName, devName, i + 1)
  {
    MatchingDevicesMonotone(platforms[i].devices, devName, j + 1, |platforms[i].devices|);
  }

  /** Every qualifying device has a position below the total. */
  lemma RankBelowTotal(platforms: seq<Platform>, platName: Option<string>, devName: Option<string>, i: nat, j: nat)
    requires IsMatch(platforms, platName, devName, i, j)
    ensures Rank(platforms, platName, devName, i, j) < TotalMatches(platforms, platName, devName)
  {
    RankWithinPlatform(platforms, platName, devName, i, j);
    MatchesBeforeMonotone(platforms, platName, devName, i + 1, |platforms|);
  }

  /** Positions grow strictly in platform-major, device-minor order, so no
      two qualifying devices share a position and the walk meets them in
      that order. */
  lemma RankIncreasing(platforms: seq<Platform>, platName: Option<string>, devName: Option<string>,
                       i: nat, j: nat, k: nat, l: nat)
    requires IsMatch(platforms, platName, devName, i, j) && IsMatch(platforms, platName, devName, k, l)
    requires i < k || (i == k && j < l)
    ensures Rank(platforms, platName, devName, i, j) < Rank(platforms, platName, devName, k, l)
  {
    if i == k {
      MatchingDevicesMonotone(platforms[i].devices, devName, j + 1, l);
    } else {
      RankWithinPlatform(platforms, platName, devName, i, j);
      MatchesBeforeMonotone(platforms, platName, devName, i + 1, k);
    }
  }

  /** Only qualifying devices advance the count: a device that fails a
      filter, or sits on a platform whose vendor fails, is skipped. */
  lemma SkippedDevicesDoNotCount(platforms: seq<Platform>, platName: Option<string>, devName: Option<string>, i: nat, j: nat)
    requires i < |platforms| && j < |platforms[i].devices|
    ensures Rank(platforms, platName, devName, i, j + 1)
            == Rank(platforms, platName, devName, i, j) + (if IsMatch(platforms, platName, devName, i, j) then 1 else 0)
  {
  }

  /** The number of devices on all platforms. */
  function DeviceCount(platforms: seq<Platform>): nat
  {
    if platforms == [] then 0 else DeviceCount(platforms[..|platforms| - 1]) + |platforms[|platforms| - 1].devices|
  }

  lemma {:induction false} AllDevicesMatch(devices: seq<string>, k: nat)
    requires k <= |devices|
    ensures MatchingDevices(devices, None, k) == k
  {
    if k > 0 {
      AllDevicesMatch(devices, k - 1);
    }
  }

  lemma {:induction false} NoFiltersMatchAllBefore(platforms: seq<Platform>, n: nat)
    requires n <= |platforms|
    ensures MatchesBefore(platforms, None, None, n) == DeviceCount(platforms[..n])
  {
    if n > 0 {
      NoFiltersMatchAllBefore(platforms, n - 1);
      AllDevicesMatch(platforms[n - 1].devices, |platforms[n - 1].devices|);
      assert platforms[..n][..n - 1] == platforms[..n - 1];
    }
  }

  /** With both filters NULL every device of every platform qualifies. */
  lemma NoFiltersMatchAll(platforms: seq<Platform>)
    ensures TotalMatches(platforms, None, None) == DeviceCount(platforms)
  {
    NoFiltersMatchAllBefore(platforms, |platforms|);
    assert platforms[..|platforms|] == platforms;
  }

  /** Only the vendor strings and the device names are consulted: platforms
      that differ in their names alone select alike. */
  lemma {:induction false} PlatformNameIgnored(ps: seq<Platform>, qs: seq<Platform>, platName: Option<string>, devName: Option<string>, n: nat)
    requires |ps| == |qs| && n <= |ps|
    requires forall i :: 0 <= i < |ps| ==> ps[i].vendor == qs[i].vendor && ps[i].devices == qs[i].devices
    ensures MatchesBefore(ps, platName, devName, n) == MatchesBefore(qs, platName, devName, n)
  {
    if n > 0 {
      PlatformNameIgnored(ps, qs, platName, devName, n - 1);
    }
  }

  /** One of the first `k` devices of platform `i` is queried by the walk
      (fewer than `idx + 1` qualifying devices precede it) and its name does
      not fit. */
  function DeviceFaultsBefore(platforms: seq<Platform>, platName: Option<string>, devName: Option<string>,
                              idx: nat, i: nat, k: nat): bool
    requires i < |platforms| && k <= |platforms[i].devices|
  {
    && k > 0
    && (|| DeviceFaultsBefore(platforms, platName, devName, idx, i, k - 1)
        || (Rank(platforms, platName, devName, i, k - 1) <= idx && TooLong(platforms[i].devices[k - 1])))
  }

  /** The walk reaches platform `i` (fewer than `idx + 1` qualifying devices
      lie on the platforms before it) and a query about it fails: its vendor
      name does not fit, or its vendor passes the filter and it has no
      devices or a device query fails. */
  predicate PlatformFaults(platforms: seq<Platform>, platName: Option<string>, devName: Option<string>, idx: nat, i: nat)
    requires i < |platforms|
  {
    && MatchesBefore(platforms, platName, devName, i) <= idx
    && (|| TooLong(platforms[i].vendor)
        || (&& Accepts(platName, platforms[i].vendor)
            && (|| platforms[i].devices == []
                || DeviceFaultsBefore(platforms, platName, devName, idx, i, |platforms[i].devices|))))
  }

  /** A query about one of the first `n` platforms fails. */
  function FaultsBefore(platforms: seq<Platform>, platName: Option<string>, devName: Option<string>, idx: nat, n: nat): bool
    requires n <= |platforms|
  {
    n > 0 && (FaultsBefore(platforms, platName, devName, idx, n - 1) || PlatformFaults(platforms, platName, devName, idx, n - 1))
  }

  /** The walk for the `idx`-th qualifying device makes a query that fails. */
  predicate Faults(platforms: seq<Platform>, platName: Option<string>, devName: Option<string>, idx: nat)
  {
    FaultsBefore(platforms, platName, devName, idx, |platforms|)
  }

  lemma {:induction false} FaultsBeforeMonotone(platforms: seq<Platform>, platName: Option<string>, devName: Option<string>,
                                                idx: nat, n: nat, m: nat)
    requires n <= m <= |platforms|
    requires FaultsBefore(platforms, platName, devName, idx, n)
    ensures FaultsBefore(platforms, platName, devName, idx, m)
    decreases m - n
  {
    if n < m {
      FaultsBeforeMonotone(platforms, platName, devName, idx, n, m - 1);
    }
  }

  lemma {:induction false} DeviceFaultsMonotone(platforms: seq<Platform>, platName: Option<string>, devName: Option<string>,
                                                idx: nat, i: nat, k: nat, m: nat)
    requires i < |platforms| && k <= m <= |platforms[i].devices|
    requires DeviceFaultsBefore(platforms, platName, devName, idx, i, k)
    ensures DeviceFaultsBefore(platforms, platName, devName, idx, i, m)
    decreases m - k
  {
    if k < m {
      DeviceFaultsMonotone(platforms, platName, devName, idx, i, k, m - 1);
    }
  }

  /** A failing query about a platform the walk reaches aborts the walk. */
  lemma PlatformFaultAborts(platforms: seq<Platform>, platName: Option<string>, devName: Option<string>, idx: nat, i: nat)
    requires i < |platforms| && PlatformFaults(platforms, platName, devName, idx, i)
    ensures Faults(platforms, platName, devName, idx)
  {
    FaultsBeforeMonotone(platforms, platName, devName, idx, i + 1, |platforms|);
  }

  /** A device name that does not fit, queried by the walk, aborts it. */
  lemma DeviceFaultAborts(platforms: seq<Platform>, platName: Option<string>, devName: Option<string>, idx: nat, i: nat, j: nat)
    requires i < |platforms| && j < |platforms[i].devices| && Accepts(platName, platforms[i].vendor)
    requires Rank(platforms, platName, devName, i, j) <= idx && TooLong(platforms[i].devices[j])
    ensures Faults(platforms, platName, devName, idx)
  {
    DeviceFaultsMonotone(platforms, platName, devName, idx, i, j + 1, |platforms[i].devices|);
    PlatformFaultAborts(platforms, platName, devName, idx, i);
  }

  /** Devices whose rank is past `idx` are never queried. */
  lemma {:induction false} DeviceFaultsStop(platforms: seq<Platform>, platName: Option<string>, devName: Option<string>,
                                            idx: nat, i: nat, k: nat, m: nat)
    requires i < |platforms| && k <= m <= |platforms[i].devices|
    requires !DeviceFaultsBefore(platforms, platName, devName, idx, i, k)
    requires idx < Rank(platforms, platName, devName, i, k)
    ensures !DeviceFaultsBefore(platforms, platName, devName, idx, i, m)
    decreases m - k
  {
    if k < m {
      DeviceFaultsStop(platforms, platName, devName, idx, i, k, m - 1);
      MatchingDevicesMonotone(platforms[i].devices, devName, k, m - 1);
    }
  }

  /** Platforms after the one holding the `idx`-th qualifying device are
      never reached. */
  lemma {:induction false} FaultsStop(platforms: seq<Platform>, platName: Option<string>, devName: Option<string>,
                                      idx: nat, n: nat, m: nat)
    requires n <= m <= |platforms|
    requires !FaultsBefore(platforms, platName, devName, idx, n)
    requires idx < MatchesBefore(platforms, platName, devName, n)
    ensures !FaultsBefore(platforms, platName, devName, idx, m)
    decreases m - n
  {
    if n < m {
      FaultsStop(platforms, platName, devName, idx, n, m - 1);
      MatchesBeforeMonotone(platforms, platName, devName, n, m - 1);
    }
  }

  /** When the walk reaches the `idx`-th qualifying device without a failed
      query, it makes no failed query at all: it stops there. */
  lemma ChosenWithoutFaults(platforms: seq<Platform>, platName: Option<string>, devName: Option<string>, idx: nat, i: nat, j: nat)
    requires IsMatch(platforms, platName, devName, i, j) && Rank(platforms, platName, devName, i, j) == idx
    requires !FaultsBefore(platforms, platName, devName, idx, i) && !TooLong(platforms[i].vendor)
    requires !DeviceFaultsBefore(platforms, platName, devName, idx, i, j) && !TooLong(platforms[i].devices[j])
    ensures !Faults(platforms, platName, devName, idx)
  {
    DeviceFaultsStop(platforms, platName, devName, idx, i, j + 1, |platforms[i].devices|);
    RankWithinPlatform(platforms, platName, devName, i, j);
    FaultsStop(platforms, platName, devName, idx, i + 1, |platforms|);
  }

  /** A query `print_devices` makes about platform `p` fails: its name does
      not fit, it reports no devices, or one of its device names does not
      fit. */
  predicate ListingFails(p: Platform)
  {
    || TooLong(p.name)
    || p.devices == []
    || exists j :: 0 <= j < |p.devices| && TooLong(p.devices[j])
  }

  /** `print_devices` aborts on these platforms: a query about one of them
      fails. */
  predicate ListingFaults(platforms: seq<Platform>)
  {
    exists i :: 0 <= i < |platforms| && ListingFails(platforms[i])
  }

  /** `print_devices`: query the name of every platform, then its device
      list and the name of each of its devices, aborting at the first query
      that fails. The printed text is not modelled; the result says whether
      the listing ran to its end. */
  method PrintDevices(platforms: seq<Platform>) returns (failed: bool)
    ensures failed <==> ListingFaults(platforms)
  {
    var i := 0;
    while i < |platforms|
      invariant i <= |platforms|
      invariant forall k :: 0 <= k < i ==> !ListingFails(platforms[k])
    {
      if TooLong(platforms[i].name) {
        return true;
      }
      var devices := platforms[i].devices;
      if |devices| == 0 {
        return true;
      }
      var j := 0;
      while j < |devices|
        invariant j <= |devices|
        invariant forall k :: 0 <= k < j ==> !TooLong(devices[k])
      {
        if TooLong(devices[j]) {
          return true;
        }
        j := j + 1;
      }
      i := i + 1;
    }
    return false;
  }

  /** A platform whose vendor passes but which reports no devices aborts the
      walk even when a later platform holds a qualifying device. */
  lemma EmptyPlatformAborts()
    ensures var ps := [Platform("a", "X", []), Platform("b", "X", ["gpu"])];
            TotalMatches(ps, Some("X"), None) == 1 && Faults(ps, Some("X"), None, 0)
  {
    var ps := [Platform("a", "X", []), Platform("b", "X", ["gpu"])];
    assert Contains("X", "X");
    assert MatchingDevices(ps[1].devices, None, 1) == 1;
    assert MatchesBefore(ps, Some("X"), None, 1) == 0;
    PlatformFaultAborts(ps, Some("X"), None, 0, 0);
  }

  /** `create_context_on`: walk the platforms whose vendor passes the platform
      filter, and within each the devices whose name passes the device
      filter, counting `idx` down on every qualifying device; the one met
      when `idx` is zero gets the context and the queue. Every platform
      reached has its vendor queried, and every device of a platform that
      passes has its name queried; the walk aborts at the first query that
      fails. */
  method CreateContextOn(platforms: seq<Platform>, platName: Option<string>, devName: Option<string>,
                         idx: nat, enableProfiling: int)
    returns (r: Result<Binding, SelectError>)
    ensures r.Success? <==> idx < TotalMatches(platforms, platName, devName) && !Faults(platforms, platName, devName, idx)
    ensures r.Success? ==> IsMatch(platforms, platName, devName, r.value.platform, r.value.device)
    ensures r.Success? ==> Rank(platforms, platName, devName, r.value.platform, r.value.device) == idx
    ensures r.Success? ==> r.value.profiling == (enableProfiling != 0)
    ensures r.Failure? ==> (r.error == QueryFailed <==> Faults(platforms, platName, devName, idx))
  {
    var remaining: nat := idx;
    var i := 0;
    while i < |platforms|
      invariant i <= |platforms|
      invariant remaining + MatchesBefore(platforms, platName, devName, i) == idx
      invariant !FaultsBefore(platforms, platName, devName, idx, i)
    {
      if TooLong(platforms[i].vendor) {
        PlatformFaultAborts(platforms, platName, devName, idx, i);
        return Failure(QueryFailed);
      }
      var devices := platforms[i].devices;
      if platName.None? || Contains(platforms[i].vendor, platName.value) {
        if |devices| == 0 {
          PlatformFaultAborts(platforms, platName, devName, idx, i);
          return Failure(QueryFailed);
        }
        var j := 0;
        while j < |devices|
          invariant j <= |devices|
          invariant remaining + Rank(platforms, platName, devName, i, j) == idx
          invariant !DeviceFaultsBefore(platforms, platName, devName, idx, i, j)
        {
          if TooLong(devices[j]) {
            DeviceFaultAborts(platforms, platName, devName, idx, i, j);
            return Failure(QueryFailed);
          }
          if devName.None? || Contains(devices[j], devName.value) {
            if remaining == 0 {
              RankBelowTotal(platforms, platName, devName, i, j);
              ChosenWithoutFaults(platforms, platName, devName, idx, i, j);
              return Success(Binding(i, j, enableProfiling != 0));
            }
            remaining := remaining - 1;
          }
          j := j + 1;
        }
      }
      i := i + 1;
    }
    return Failure(DeviceNotFound);
  }
}
