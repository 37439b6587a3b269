/**
  The gRPC client manager of idb (idb/grpc/management.py): which companion a command talks
  to, when a companion is spawned for a target and where its socket lives, and how the
  stored companion set grows, shrinks and is cleared.

  The companion set (`CompanionSet`) is not part of this model beyond its contents, an
  ordered list of companion records: adding appends, removing drops every record of the given
  address (or udid), clearing hands back the old contents and leaves the list empty.
  Calls into the companion binary, into a companion's gRPC service and into the operating
  system are replaced by the values they return, passed in as parameters.
 */
module Management {
  import opened Common

  datatype TargetType = Mac | Simulator | Device

  /** A target as a companion describes it (only the fields this model reads). */
  datatype TargetDescription = TargetDescription(udid: string, name: string, targetType: TargetType)

  datatype Address = TcpAddress(host: string, port: int) | DomainSocketAddress(path: string)

  /** `ConnectionDestination`: an address to connect to, or a target's udid. */
  datatype Destination = ToAddress(address: Address) | ToUdid(udid: string)

  /** A known companion: where it listens, which target it serves, and its process when spawned here. */
  datatype CompanionInfo = CompanionInfo(address: Address, udid: string, isLocal: bool, pid: Option<int>)

  /** The configuration a spawned companion server is started with. */
  datatype ServerConfig = ServerConfig(udid: string, only: TargetType, path: string)

  /** The `IdbException`s of the client manager, one per message. */
  datatype IdbError =
    | NoCompanionExecutable(udid: string)
    | NoMatchingTarget(udid: string, available: set<string>)
    | NoCompanions
    | MultipleCompanions(udids: set<string>)

  /** What `from_udid` decides before building a client. */
  datatype Selection =
    | UseExisting(companion: CompanionInfo)
    | SpawnFor(udid: string)
    | Fail(error: IdbError)

  /** `BASE_IDB_FILE_PATH`, the directory holding the companions' domain sockets. */
  const BaseIdbFilePath: string := "/tmp/idb"

  // ---------------------------------------------------------------------------
  // Keying records by udid

  function CompanionUdid(c: CompanionInfo): string { c.udid }

  function TargetUdid(t: TargetDescription): string { t.udid }

  /** The keys a list of records carries. */
  function Keys<T(==,!new)>(xs: seq<T>, key: T -> string): set<string> {
    set x | x in xs :: key(x)
  }

  /**
    The dict comprehension `{key(x): x for x in xs}`: one entry per key, later records
    replacing earlier ones with the same key.
   */
  function IndexBy<T(==,!new)>(xs: seq<T>, key: T -> string): (m: map<string, T>)
    ensures m.Keys == Keys(xs, key)
    ensures forall k :: k in m ==> m[k] in xs && key(m[k]) == k
  {
    if xs == [] then map[]
    else
      var init, last := xs[..|xs| - 1], xs[|xs| - 1];
      var m := IndexBy(init, key)[key(last) := last];
      assert xs == init + [last];
      m
  }

  /** The record a key maps to is the last one in the list that carries it. */
  lemma {:induction false} IndexByLastWins<T(!new)>(xs: seq<T>, key: T -> string, i: nat)
    requires i < |xs|
    requires forall j :: i < j < |xs| ==> key(xs[j]) != key(xs[i])
    ensures key(xs[i]) in IndexBy(xs, key)
    ensures IndexBy(xs, key)[key(xs[i])] == xs[i]
  {
    if i < |xs| - 1 {
      var init := xs[..|xs| - 1];
      assert init[i] == xs[i];
      IndexByLastWins(init, key, i);
    }
  }

  function CompanionsByUdid(cs: seq<CompanionInfo>): map<string, CompanionInfo> {
    IndexBy(cs, CompanionUdid)
  }

  /** The udids of the stored companions. */
  function Udids(cs: seq<CompanionInfo>): set<string> {
    Keys(cs, CompanionUdid)
  }

  // ---------------------------------------------------------------------------
  // Choosing a companion

  /**
    The selection rule of `ClientManager.from_udid` over the stored companions: a known udid
    uses its companion, an unknown one spawns a companion for it; without a udid, a sole
    companion is used and zero or several are an error.
   */
  function SelectCompanion(udid: Option<string>, cs: seq<CompanionInfo>): (r: Selection)
    ensures r.UseExisting? ==> r.companion in cs
    ensures udid.Some? ==> (r.UseExisting? <==> udid.value in Udids(cs))
    ensures udid.Some? && r.UseExisting? ==> r.companion.udid == udid.value
    ensures udid.Some? ==> (r == SpawnFor(udid.value) <==> udid.value !in Udids(cs))
    ensures udid.Some? ==> !r.Fail?
    ensures udid.None? ==> !r.SpawnFor?
    ensures udid.None? ==> (r.UseExisting? <==> |Udids(cs)| == 1)
    ensures udid.None? && r.UseExisting? ==> Udids(cs) == {r.companion.udid}
    ensures udid.None? ==> (r == Fail(NoCompanions) <==> cs == [])
    ensures udid.None? && |Udids(cs)| > 1 ==> r == Fail(MultipleCompanions(Udids(cs)))
  {
    var companions := CompanionsByUdid(cs);
    if udid.Some? && udid.value in companions then
      UseExisting(companions[udid.value])
    else if udid.Some? then
      SpawnFor(udid.value)
    else if |companions| == 1 then
      var sole := cs[|cs| - 1].udid;
      assert companions.Keys == {sole} by {
        assert sole in companions.Keys;
        assert |companions.Keys - {sole}| == 0;
      }
      UseExisting(companions[sole])
    else if |companions| == 0 then
      Fail(NoCompanions)
    else
      Fail(MultipleCompanions(companions.Keys))
  }

  /**
    Several stored companions for one udid count once, and the one stored last is used,
    whether that udid was asked for or was the only one stored.
   */
  lemma SelectLastStored(udid: Option<string>, cs: seq<CompanionInfo>, i: nat)
    requires i < |cs|
    requires forall j :: i < j < |cs| ==> cs[j].udid != cs[i].udid
    requires udid == Some(cs[i].udid) || (udid.None? && Udids(cs) == {cs[i].udid})
    ensures SelectCompanion(udid, cs) == UseExisting(cs[i])
  {
    IndexByLastWins(cs, CompanionUdid, i);
    if udid.None? {
      assert cs[|cs| - 1].udid in Udids(cs);
    }
  }

  /**
    `_local_target_type`: `"mac"` is the host itself; any other udid takes the type of the
    matching target the companion lists (the last one, should several match), and is an
    error when none matches.
   */
  function LocalTargetType(udid: string, listing: seq<TargetDescription>): (r: Result<TargetType, IdbError>)
    ensures udid == "mac" ==> r == Ok(Mac)
    ensures udid != "mac" ==> (r.Ok? <==> udid in Keys(listing, TargetUdid))
    ensures udid != "mac" && r.Ok? ==>
      exists t :: t in listing && t.udid == udid && t.targetType == r.value
    ensures udid != "mac" && r.Err? ==> r.error == NoMatchingTarget(udid, Keys(listing, TargetUdid))
  {
    if udid == "mac" then Ok(Mac)
    else
      var targets := IndexBy(listing, TargetUdid);
      if udid !in targets then Err(NoMatchingTarget(udid, targets.Keys))
      else Ok(targets[udid].targetType)
  }

  /** When the companion lists several targets with the udid, the last one's type is used. */
  lemma LocalTargetTypeLastListed(udid: string, listing: seq<TargetDescription>, i: nat)
    requires udid != "mac"
    requires i < |listing| && listing[i].udid == udid
    requires forall j :: i < j < |listing| ==> listing[j].udid != udid
    ensures LocalTargetType(udid, listing) == Ok(listing[i].targetType)
  {
    IndexByLastWins(listing, TargetUdid, i);
  }

  // ---------------------------------------------------------------------------
  // Socket paths

  /** POSIX `os.path.join(a, b)`: an absolute `b` replaces `a`; otherwise one `/` separates them. */
  function PathJoin(a: string, b: string): (r: string)
    ensures |b| > 0 && b[0] == '/' ==> r == b
    ensures !(|b| > 0 && b[0] == '/') ==> |a| <= |r| && r[..|a|] == a
    ensures |b| <= |r| && r[|r| - |b|..] == b
    ensures |r| <= |a| + 1 + |b|
    ensures !(|b| > 0 && b[0] == '/') ==> |a| + |b| <= |r|
    ensures !(|b| > 0 && b[0] == '/') && |r| == |a| + |b| + 1 ==> r[|a|] == '/'
    ensures !(|b| > 0 && b[0] == '/') ==>
      (|r| == |a| + |b| <==> a == "" || a[|a| - 1] == '/')
  {
    if |b| > 0 && b[0] == '/' then b
    else if a == "" || a[|a| - 1] == '/' then a + b
    else a + "/" + b
  }

  /** The domain socket a companion spawned for `udid` listens on. */
  function CompanionSocketPath(udid: string): (path: string)
    ensures !(|udid| > 0 && udid[0] == '/') ==> path == BaseIdbFilePath + "/" + udid + "_companion.sock"
    ensures |udid| > 0 && udid[0] == '/' ==> path == udid + "_companion.sock"
  {
    PathJoin(BaseIdbFilePath, udid + "_companion.sock")
  }

  /** Companions spawned for different (relative) udids never share a socket. */
  lemma SocketPathsDistinct(u: string, v: string)
    requires !(|u| > 0 && u[0] == '/') && !(|v| > 0 && v[0] == '/')
    requires u != v
    ensures CompanionSocketPath(u) != CompanionSocketPath(v)
  {
    var p, q := CompanionSocketPath(u), CompanionSocketPath(v);
    var n, m := |BaseIdbFilePath + "/"|, |"_companion.sock"|;
    assert p[n..|p| - m] == u;
    assert q[n..|q| - m] == v;
  }

  // ---------------------------------------------------------------------------
  // The stored companion set

  /** The companions whose address is not in `gone`, in their stored order. */
  function WithoutAddresses(cs: seq<CompanionInfo>, gone: set<Address>): (r: seq<CompanionInfo>)
    ensures forall c :: c in r <==> c in cs && c.address !in gone
    ensures |r| <= |cs|
  {
    if cs == [] then []
    else
      var init, last := cs[..|cs| - 1], cs[|cs| - 1];
      assert cs == init + [last];
      WithoutAddresses(init, gone) + (if last.address in gone then [] else [last])
  }

  /** The companions that do not serve `udid`, in their stored order. */
  function WithoutUdid(cs: seq<CompanionInfo>, udid: string): (r: seq<CompanionInfo>)
    ensures forall c :: c in r <==> c in cs && c.udid != udid
    ensures udid !in Udids(r)
  {
    if cs == [] then []
    else
      var init, last := cs[..|cs| - 1], cs[|cs| - 1];
      assert cs == init + [last];
      WithoutUdid(init, udid) + (if last.udid == udid then [] else [last])
  }

  /** A companion stored last is kept after the others exactly when its address is not removed. */
  lemma WithoutAddressesSnoc(cs: seq<CompanionInfo>, c: CompanionInfo, gone: set<Address>)
    ensures WithoutAddresses(cs + [c], gone)
         == WithoutAddresses(cs, gone) + (if c.address in gone then [] else [c])
  {
  }

  /** Removing addresses from two lists joined is removing them from each, in order. */
  lemma {:induction false} WithoutAddressesConcat(xs: seq<CompanionInfo>, ys: seq<CompanionInfo>, gone: set<Address>)
    ensures WithoutAddresses(xs + ys, gone) == WithoutAddresses(xs, gone) + WithoutAddresses(ys, gone)
  {
    if ys == [] {
      assert xs + ys == xs;
    } else {
      var init, last := ys[..|ys| - 1], ys[|ys| - 1];
      var kept := if last.address in gone then [] else [last];
      var left, mid := WithoutAddresses(xs, gone), WithoutAddresses(init, gone);
      calc {
        WithoutAddresses(xs + ys, gone);
        { assert xs + ys == (xs + init) + [last];
          WithoutAddressesSnoc(xs + init, last, gone); }
        WithoutAddresses(xs + init, gone) + kept;
        { WithoutAddressesConcat(xs, init, gone); }
        (left + mid) + kept;
        left + (mid + kept);
        { assert ys == init + [last];
          WithoutAddressesSnoc(init, last, gone); }
        left + WithoutAddresses(ys, gone);
      }
    }
  }

  /** Removing addresses no stored companion has keeps every companion in place. */
  lemma {:induction false} WithoutAbsentAddresses(cs: seq<CompanionInfo>, gone: set<Address>)
    requires forall i :: 0 <= i < |cs| ==> cs[i].address !in gone
    ensures WithoutAddresses(cs, gone) == cs
  {
    if cs != [] {
      var init, last := cs[..|cs| - 1], cs[|cs| - 1];
      WithoutAbsentAddresses(init, gone);
      assert cs == init + [last];
    }
  }

  /** Disconnecting a udid that no stored companion serves keeps every companion in place. */
  lemma {:induction false} WithoutAbsentUdid(cs: seq<CompanionInfo>, udid: string)
    requires forall i :: 0 <= i < |cs| ==> cs[i].udid != udid
    ensures WithoutUdid(cs, udid) == cs
  {
    if cs != [] {
      var init, last := cs[..|cs| - 1], cs[|cs| - 1];
      WithoutAbsentUdid(init, udid);
      assert cs == init + [last];
    }
  }

  /** Removing nothing keeps every companion in place. */
  lemma {:induction false} WithoutNoAddresses(cs: seq<CompanionInfo>)
    ensures WithoutAddresses(cs, {}) == cs
  {
    if cs != [] {
      WithoutNoAddresses(cs[..|cs| - 1]);
      assert cs == cs[..|cs| - 1] + [cs[|cs| - 1]];
    }
  }

  /** Removing one address after another is removing both at once. */
  lemma {:induction false} WithoutAddressesTwice(cs: seq<CompanionInfo>, a: set<Address>, b: set<Address>)
    ensures WithoutAddresses(WithoutAddresses(cs, a), b) == WithoutAddresses(cs, a + b)
  {
    if cs != [] {
      var init, last := cs[..|cs| - 1], cs[|cs| - 1];
      WithoutAddressesTwice(init, a, b);
      var once := WithoutAddresses(cs, a);
      var initOnce := WithoutAddresses(init, a);
      if last.address in a {
        assert once == initOnce;
      } else {
        assert once == initOnce + [last];
        assert once[..|once| - 1] == initOnce;
      }
    }
  }

  /**
    Removals commute, so the describes that `list_targets` gathers concurrently leave the same
    companion set in whatever order their failures remove companions.
   */
  lemma RemovalsCommute(cs: seq<CompanionInfo>, a: Address, b: Address)
    ensures WithoutAddresses(WithoutAddresses(cs, {a}), {b})
         == WithoutAddresses(WithoutAddresses(cs, {b}), {a})
  {
    WithoutAddressesTwice(cs, {a}, {b});
    WithoutAddressesTwice(cs, {b}, {a});
    assert {a} + {b} == {b} + {a};
  }

  /** The addresses whose describe failed among `done`. */
  function FailedAddresses(done: seq<CompanionInfo>, describe: Address -> Option<TargetDescription>): set<Address> {
    set c | c in done && describe(c.address).None? :: c.address
  }

  /** A describe that fails adds its companion's address to the failed ones. */
  lemma FailedAddressesStep(cs: seq<CompanionInfo>, i: nat, describe: Address -> Option<TargetDescription>)
    requires i < |cs|
    ensures FailedAddresses(cs[..i + 1], describe)
         == FailedAddresses(cs[..i], describe) + (if describe(cs[i].address).None? then {cs[i].address} else {})
  {
  }

  /**
    One more describe leaves the stored companions as removing every address that has failed so
    far from the snapshot.
   */
  lemma PruneStep(cs: seq<CompanionInfo>, i: nat, describe: Address -> Option<TargetDescription>)
    requires i < |cs|
    ensures describe(cs[i].address).Some? ==>
      FailedAddresses(cs[..i + 1], describe) == FailedAddresses(cs[..i], describe)
    ensures describe(cs[i].address).None? ==>
      WithoutAddresses(WithoutAddresses(cs, FailedAddresses(cs[..i], describe)), {cs[i].address})
      == WithoutAddresses(cs, FailedAddresses(cs[..i + 1], describe))
  {
    FailedAddressesStep(cs, i, describe);
    WithoutAddressesTwice(cs, FailedAddresses(cs[..i], describe), {cs[i].address});
  }

  /** The companions whose describe succeeds, in stored order: what pruning leaves. */
  function Reachable(cs: seq<CompanionInfo>, describe: Address -> Option<TargetDescription>): seq<CompanionInfo> {
    if cs == [] then []
    else
      var init, last := cs[..|cs| - 1], cs[|cs| - 1];
      Reachable(init, describe) + (if describe(last.address).Some? then [last] else [])
  }

  /** Dropping every failed address is keeping the reachable companions. */
  lemma {:induction false} PrunedIsReachable(cs: seq<CompanionInfo>, gone: set<Address>,
                                             describe: Address -> Option<TargetDescription>)
    requires forall c :: c in cs ==> (c.address in gone <==> describe(c.address).None?)
    ensures WithoutAddresses(cs, gone) == Reachable(cs, describe)
  {
    if cs != [] {
      var init := cs[..|cs| - 1];
      assert forall c :: c in init ==> c in cs;
      PrunedIsReachable(init, gone, describe);
    }
  }

  /** Pruning every companion whose describe failed keeps exactly the reachable ones. */
  lemma PruneAllFailed(cs: seq<CompanionInfo>, describe: Address -> Option<TargetDescription>)
    ensures WithoutAddresses(cs, FailedAddresses(cs, describe)) == Reachable(cs, describe)
  {
    var gone := FailedAddresses(cs, describe);
    forall c | c in cs ensures c.address in gone <==> describe(c.address).None? {
      if c.address in gone {
        var x :| x in cs && describe(x.address).None? && x.address == c.address;
      }
    }
    PrunedIsReachable(cs, gone, describe);
  }

  /** The described targets of `list_targets`: the describes that succeeded, in stored order. */
  function ConnectedTargets(cs: seq<CompanionInfo>, describe: Address -> Option<TargetDescription>): seq<TargetDescription> {
    if cs == [] then []
    else
      var init, last := cs[..|cs| - 1], cs[|cs| - 1];
      ConnectedTargets(init, describe) + (if describe(last.address).Some? then [describe(last.address).value] else [])
  }

  /** Describing one more companion appends its description, if any. */
  lemma ConnectedTargetsStep(cs: seq<CompanionInfo>, i: nat, describe: Address -> Option<TargetDescription>)
    requires i < |cs|
    ensures ConnectedTargets(cs[..i + 1], describe) == ConnectedTargets(cs[..i], describe)
      + (if describe(cs[i].address).Some? then [describe(cs[i].address).value] else [])
  {
    assert cs[..i + 1][..i] == cs[..i];
  }

  /**
    The connected targets are exactly the descriptions of the reachable companions, one each,
    in the companions' order; no failed describe leaves a hole.
   */
  lemma {:induction false} ConnectedTargetsFollowCompanions(cs: seq<CompanionInfo>,
                                                            describe: Address -> Option<TargetDescription>)
    ensures |ConnectedTargets(cs, describe)| == |Reachable(cs, describe)|
    ensures forall k :: 0 <= k < |Reachable(cs, describe)| ==>
      describe(Reachable(cs, describe)[k].address) == Some(ConnectedTargets(cs, describe)[k])
  {
    if cs != [] {
      ConnectedTargetsFollowCompanions(cs[..|cs| - 1], describe);
    }
  }

  /** The pids of the companions spawned here, in stored order; the rest have none. */
  function SpawnedPids(cs: seq<CompanionInfo>): seq<int> {
    if cs == [] then []
    else
      var init, last := cs[..|cs| - 1], cs[|cs| - 1];
      SpawnedPids(init) + (if last.pid.Some? then [last.pid.value] else [])
  }

  /** Exactly the pids that the cleared companions carry are signalled; a companion without one adds nothing. */
  lemma {:induction false} SpawnedPidsExactly(cs: seq<CompanionInfo>)
    ensures forall p :: p in SpawnedPids(cs) <==> exists c :: c in cs && c.pid == Some(p)
    ensures |SpawnedPids(cs)| <= |cs|
    ensures (forall c :: c in cs ==> c.pid.Some?) ==> |SpawnedPids(cs)| == |cs|
  {
    if cs != [] {
      var init, last := cs[..|cs| - 1], cs[|cs| - 1];
      SpawnedPidsExactly(init);
      assert cs == init + [last];
      forall p ensures p in SpawnedPids(cs) <==> exists c :: c in cs && c.pid == Some(p) {
        if p in SpawnedPids(cs) && p !in SpawnedPids(init) {
          assert last in cs && last.pid == Some(p);
        }
        if exists c :: c in cs && c.pid == Some(p) {
          var c :| c in cs && c.pid == Some(p);
          if c != last { assert c in init; }
        }
      }
    }
  }

  // ---------------------------------------------------------------------------
  // The client manager

  /**
    `ClientManager`: the stored companions, the companion executable to spawn new companions
    with (if any), and whether companions that fail to describe themselves are dropped.
   */
  class ClientManager {
    var companions: seq<CompanionInfo>
    const companionPath: Option<string>
    const deviceSetPath: Option<string>
    const pruneDeadCompanion: bool

    /** A manager over the companions the set has stored. */
    constructor (companionPath: Option<string>, deviceSetPath: Option<string>,
                 pruneDeadCompanion: bool, stored: seq<CompanionInfo>)
      ensures this.companionPath == companionPath && this.deviceSetPath == deviceSetPath
      ensures this.pruneDeadCompanion == pruneDeadCompanion
      ensures companions == stored
    {
      this.companionPath := companionPath;
      this.deviceSetPath := deviceSetPath;
      this.pruneDeadCompanion := pruneDeadCompanion;
      companions := stored;
    }

    /**
      `_spawn_companion_server`: fails without a companion executable or without a matching
      target; otherwise starts a companion on the udid's socket and stores it. `listing` is
      what the companion executable lists, `pid` the spawned process's id.
     */
    method SpawnCompanionServer(udid: string, listing: seq<TargetDescription>, pid: int)
      returns (r: Result<CompanionInfo, IdbError>, config: Option<ServerConfig>)
      modifies this
      ensures companionPath.None? ==> r == Err(NoCompanionExecutable(udid))
      ensures companionPath.Some? && LocalTargetType(udid, listing).Err? ==>
        r == Err(LocalTargetType(udid, listing).error)
      ensures r.Ok? <==> companionPath.Some? && LocalTargetType(udid, listing).Ok?
      ensures config.Some? <==> r.Ok?
      ensures r.Ok? ==>
        && config.value == ServerConfig(udid, LocalTargetType(udid, listing).value, CompanionSocketPath(udid))
        && r.value == CompanionInfo(DomainSocketAddress(CompanionSocketPath(udid)), udid, true, Some(pid))
        && companions == old(companions) + [r.value]
      ensures r.Err? ==> companions == old(companions)
    {
      if companionPath.None? {
        return Err(NoCompanionExecutable(udid)), None;
      }
      var targetType := LocalTargetType(udid, listing);
      if targetType.Err? {
        return Err(targetType.error), None;
      }
      var path := CompanionSocketPath(udid);
      config := Some(ServerConfig(udid, targetType.value, path));
      var info := CompanionInfo(DomainSocketAddress(path), udid, true, Some(pid));
      companions := companions + [info];
      r := Ok(info);
    }

    /**
      `_companion_to_target`: the companion's own description, or `None` when describing it
      fails, in which case the companion is dropped exactly when pruning is on.
     */
    method CompanionToTarget(companion: CompanionInfo, describe: Address -> Option<TargetDescription>)
      returns (r: Option<TargetDescription>)
      modifies this
      ensures r == describe(companion.address)
      ensures r.None? && pruneDeadCompanion ==>
        companions == WithoutAddresses(old(companions), {companion.address})
      ensures r.Some? || !pruneDeadCompanion ==> companions == old(companions)
    {
      r := describe(companion.address);
      if r.None? && pruneDeadCompanion {
        companions := WithoutAddresses(companions, {companion.address});
      }
    }

    /**
      `list_targets`: the local targets (none without a companion executable) and the targets
      the stored companions describe, in stored order; with pruning on, the companions that
      failed to describe themselves are gone afterwards. `listing` is what the companion
      executable lists for the filter.
     */
    method ListTargets(listing: seq<TargetDescription>, describe: Address -> Option<TargetDescription>)
      returns (local: seq<TargetDescription>, connected: seq<TargetDescription>)
      modifies this
      ensures local == if companionPath.None? then [] else listing
      ensures connected == ConnectedTargets(old(companions), describe)
      ensures companions == if pruneDeadCompanion then Reachable(old(companions), describe) else old(companions)
    {
      local := if companionPath.None? then [] else listing;
      var snapshot := companions;
      connected := [];
      WithoutNoAddresses(snapshot);
      assert snapshot[..0] == [];
      assert FailedAddresses(snapshot[..0], describe) == {};
      for i := 0 to |snapshot|
        invariant connected == ConnectedTargets(snapshot[..i], describe)
        invariant pruneDeadCompanion ==>
          companions == WithoutAddresses(snapshot, FailedAddresses(snapshot[..i], describe))
        invariant !pruneDeadCompanion ==> companions == snapshot
      {
        PruneStep(snapshot, i, describe);
        ConnectedTargetsStep(snapshot, i, describe);
        var target := CompanionToTarget(snapshot[i], describe);
        if target.Some? {
          connected := connected + [target.value];
        }
      }
      assert snapshot[..|snapshot|] == snapshot;
      PruneAllFailed(snapshot, describe);
    }

    /**
      `from_udid`: the companion a client is built against, spawning one for an unknown udid;
      `listing` and `pid` feed a spawn should one be needed.
     */
    method FromUdid(udid: Option<string>, listing: seq<TargetDescription>, pid: int)
      returns (r: Result<CompanionInfo, IdbError>)
      modifies this
      ensures SelectCompanion(udid, old(companions)).UseExisting? ==>
        r == Ok(SelectCompanion(udid, old(companions)).companion) && companions == old(companions)
      ensures SelectCompanion(udid, old(companions)).Fail? ==>
        r == Err(SelectCompanion(udid, old(companions)).error) && companions == old(companions)
      ensures SelectCompanion(udid, old(companions)).SpawnFor? ==>
        && (r.Ok? <==> companionPath.Some? && LocalTargetType(udid.value, listing).Ok?)
        && (r.Ok? ==> r.value.udid == udid.value && companions == old(companions) + [r.value])
        && (r.Ok? ==> r.value == CompanionInfo(DomainSocketAddress(CompanionSocketPath(udid.value)),
                                               udid.value, true, Some(pid)))
        && (r.Err? ==> r.error == if companionPath.None? then NoCompanionExecutable(udid.value)
                                 else LocalTargetType(udid.value, listing).error)
        && (r.Err? ==> companions == old(companions))
    {
      var selection := SelectCompanion(udid, companions);
      match selection
      case UseExisting(c) =>
        r := Ok(c);
      case SpawnFor(u) =>
        var config;
        r, config := SpawnCompanionServer(u, listing, pid);
      case Fail(e) =>
        r := Err(e);
    }

    /**
      `connect`: an address is connected to directly and the companion it reports is stored;
      a udid gets a spawned companion. `reported` is what the companion at the address reports.
     */
    method Connect(destination: Destination, reported: CompanionInfo,
                   listing: seq<TargetDescription>, pid: int)
      returns (r: Result<CompanionInfo, IdbError>)
      modifies this
      ensures destination.ToAddress? ==> r == Ok(reported) && companions == old(companions) + [reported]
      ensures destination.ToUdid? ==>
        && (r.Ok? <==> companionPath.Some? && LocalTargetType(destination.udid, listing).Ok?)
        && (r.Ok? ==> r.value.udid == destination.udid && companions == old(companions) + [r.value])
        && (r.Ok? ==> r.value == CompanionInfo(DomainSocketAddress(CompanionSocketPath(destination.udid)),
                                               destination.udid, true, Some(pid)))
        && (r.Err? ==> r.error == if companionPath.None? then NoCompanionExecutable(destination.udid)
                                 else LocalTargetType(destination.udid, listing).error)
        && (r.Err? ==> companions == old(companions))
    {
      match destination
      case ToAddress(_) =>
        companions := companions + [reported];
        r := Ok(reported);
      case ToUdid(u) =>
        var config;
        r, config := SpawnCompanionServer(u, listing, pid);
    }

    /** `disconnect`: forgets the companions at that address, or those serving that udid. */
    method Disconnect(destination: Destination)
      modifies this
      ensures destination.ToAddress? ==>
        companions == WithoutAddresses(old(companions), {destination.address})
      ensures destination.ToUdid? ==>
        companions == WithoutUdid(old(companions), destination.udid)
    {
      match destination
      case ToAddress(a) =>
        companions := WithoutAddresses(companions, {a});
      case ToUdid(u) =>
        companions := WithoutUdid(companions, u);
    }

    /**
      `kill`: clears the stored set, then signals every cleared companion that has a pid, in
      stored order; the result lists the pids signalled.
     */
    method Kill() returns (signalled: seq<int>)
      modifies this
      ensures companions == []
      ensures signalled == SpawnedPids(old(companions))
    {
      var cleared := companions;
      companions := [];
      signalled := [];
      for i := 0 to |cleared|
        invariant signalled == SpawnedPids(cleared[..i])
        invariant companions == []
      {
        assert cleared[..i + 1][..i] == cleared[..i];
        var pid := cleared[i].pid;
        if pid.None? {
          continue;
        }
        signalled := signalled + [pid.value];
      }
      assert cleared[..|cleared|] == cleared;
    }
  }
}
