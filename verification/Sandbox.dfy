/**
 * A sandbox as the owner of Docker resources: at every moment, whatever Docker
 * refused, it owns exactly the container it is bound to and the images it can
 * still revert to, and stopping it leaves nothing of its own behind. Removing
 * a container or an image is taken to succeed.
 */
module Sandbox {
  import opened Events

  /** The daemon, as every sandbox sees it: containers (do they run?) and images. */
  class Daemon {
    var containers: map<string, bool>
    var images: set<string>

    constructor ()
      ensures containers == map[] && images == {}
    {
      containers, images := map[], {};
    }
  }

  /** How far Docker lets a new container come. */
  datatype Creation = Unreachable | Refused | Created | Running

  datatype Outcome = Ok | SandboxError

  class Sandbox {
    const daemon: Daemon
    const restricted: bool
    const hasCallback: bool
    var client: bool
    var container: Option<string>
    var proxy: bool
    var snapshotIds: seq<string>

    ghost var made: set<string>        // containers it created or attached to
    ghost var committed: set<string>   // images it committed
    ghost var proxies: nat             // proxies it started and has not stopped

    ghost predicate Valid()
      reads this, daemon
    {
      && (container.Some? ==> client && container.value in made)
      && (forall c :: c in made ==> (c in daemon.containers <==> container == Some(c)))
      && (snapshotIds != [] ==> client)
      && (forall s :: s in snapshotIds ==> s in committed)
      && (forall s :: s in committed ==> (s in daemon.images <==> s in snapshotIds))
    }

    /** Every proxy it started is the one it can still stop. */
    ghost predicate NoLostProxy()
      reads this
    {
      proxies == if proxy then 1 else 0
    }

    constructor (daemon: Daemon, restricted: bool, hasCallback: bool)
      ensures Valid() && NoLostProxy() && container.None? && !proxy && !client && snapshotIds == []
      ensures this.daemon == daemon && this.restricted == restricted && this.hasCallback == hasCallback
      ensures made == {} && committed == {}
    {
      this.daemon, this.restricted, this.hasCallback := daemon, restricted, hasCallback;
      client, container, proxy, snapshotIds := false, None, false, [];
      made, committed, proxies := {}, {}, 0;
    }

    /**
     * On failure nothing stays: no container, no proxy. The one leak is a
     * second start after a failed revert, which forgets the proxy still running.
     */
    method Start(docker: Creation, cid: string) returns (r: Outcome)
      requires Valid() && cid !in daemon.containers && cid !in made
      modifies this, daemon
      ensures Valid() && snapshotIds == old(snapshotIds) && daemon.images == old(daemon.images)
      ensures committed == old(committed)
      ensures r.Ok? <==> old(container.Some?) || (docker.Running? && (restricted ==> hasCallback))
      ensures r.Ok? && old(container.None?) ==>
        container == Some(cid) && made == old(made) + {cid} && daemon.containers == old(daemon.containers)[cid := true]
      ensures r == SandboxError || old(container.Some?) ==>
        container == old(container) && daemon.containers == old(daemon.containers)
      ensures r == SandboxError && old(!proxy) ==> !proxy
      ensures r.Ok? && old(container.None?) && restricted ==> proxy
      ensures old(NoLostProxy()) ==>
        (NoLostProxy() <==> !(old(proxy && container.None?) && docker != Unreachable && restricted && hasCallback))
    {
      if container.Some? {
        return Ok;
      }
      if docker.Unreachable? {
        return SandboxError;
      }
      client := true;
      if restricted {
        if !hasCallback {
          return SandboxError;
        }
        proxy, proxies := true, proxies + 1;
      }
      if docker.Refused? {
        TeardownProxy();
        return SandboxError;
      }
      daemon.containers := daemon.containers[cid := false];
      made := made + {cid};
      if docker.Created? {
        daemon.containers := daemon.containers - {cid};
        TeardownProxy();
        assert daemon.containers == old(daemon.containers);
        return SandboxError;
      }
      daemon.containers := daemon.containers[cid := true];
      container := Some(cid);
      assert daemon.containers == old(daemon.containers)[cid := true];
      return Ok;
    }

    method TeardownProxy()
      modifies `proxy, `proxies
      ensures !proxy && proxies == old(proxies) - (if old(proxy && proxies > 0) then 1 else 0)
    {
      if proxy {
        if proxies > 0 {
          proxies := proxies - 1;
        }
        proxy := false;
      }
    }

    method Snapshot(commits: bool, snap: string) returns (r: Outcome)
      requires Valid() && snap !in daemon.images && snap !in committed
      modifies this, daemon
      ensures Valid() && container == old(container) && proxy == old(proxy) && proxies == old(proxies)
      ensures daemon.containers == old(daemon.containers) && made == old(made)
      ensures r.Ok? <==> old(container.Some?) && commits
      ensures r.Ok? ==> snapshotIds == old(snapshotIds) + [snap] && daemon.images == old(daemon.images) + {snap}
      ensures !r.Ok? ==> snapshotIds == old(snapshotIds) && daemon.images == old(daemon.images)
      ensures committed == if r.Ok? then old(committed) + {snap} else old(committed)
    {
      if container.None? || !client {
        return SandboxError;
      }
      if !commits {
        return SandboxError;
      }
      daemon.images := daemon.images + {snap};
      committed := committed + {snap};
      snapshotIds := snapshotIds + [snap];
      return Ok;
    }

    /** The bound container stops and goes; the sandbox is already unbound. */
    method RemoveBound()
      requires Valid()
      modifies this, daemon
      ensures Valid() && container.None? && snapshotIds == old(snapshotIds) && client == old(client)
      ensures made == old(made) && committed == old(committed) && daemon.images == old(daemon.images)
      ensures proxy == old(proxy) && proxies == old(proxies)
      ensures daemon.containers ==
          old(daemon.containers) - (if old(container).Some? then {old(container).value} else {})
    {
      var prior := container;
      container := None;
      if prior.Some? {
        if prior.value in daemon.containers {
          daemon.containers := daemon.containers[prior.value := false];
        }
        daemon.containers := daemon.containers - {prior.value};
      }
    }

    /**
     * Swaps the container for one made from the snapshot. An unknown id changes
     * nothing; a refusal by Docker leaves no container at all, but every
     * snapshot, so that the same revert can be tried again.
     */
    method Revert(snap: string, docker: Creation, cid: string) returns (r: Outcome)
      requires Valid() && cid !in daemon.containers && cid !in made
      modifies this, daemon
      ensures Valid() && snapshotIds == old(snapshotIds) && daemon.images == old(daemon.images)
      ensures committed == old(committed) && proxy == old(proxy) && proxies == old(proxies)
      ensures r.Ok? <==> snap in old(snapshotIds) && docker.Running?
      ensures snap !in old(snapshotIds) ==> container == old(container) && daemon.containers == old(daemon.containers)
      ensures snap in old(snapshotIds) ==>
        var left := old(daemon.containers) - (if old(container).Some? then {old(container).value} else {});
        if docker.Running? then container == Some(cid) && daemon.containers == left[cid := true]
        else container == None && daemon.containers == left
      ensures made == old(made) || made == old(made) + {cid}
    {
      if snap !in snapshotIds || !client {
        return SandboxError;
      }
      RemoveBound();
      if docker.Unreachable? || docker.Refused? {
        return SandboxError;
      }
      ghost var left := daemon.containers;
      daemon.containers := daemon.containers[cid := false];
      made := made + {cid};
      if docker.Created? {
        daemon.containers := daemon.containers - {cid};
        assert daemon.containers == left;
        return SandboxError;
      }
      daemon.containers := daemon.containers[cid := true];
      container := Some(cid);
      return Ok;
    }

    /** Binds to a container that some earlier process left running; it can revert to nothing from before. */
    method Attach(cid: string, docker: Creation) returns (r: Outcome)
      requires Valid()
      modifies this
      ensures Valid() && snapshotIds == old(snapshotIds)
      ensures r.Ok? <==> old(container.None?) && docker != Unreachable && cid in daemon.containers && docker != Refused
      ensures container == if r.Ok? then Some(cid) else old(container)
      ensures made == if r.Ok? then old(made) + {cid} else old(made)
    {
      if container.Some? {
        return SandboxError;
      }
      if docker.Unreachable? {
        return SandboxError;
      }
      client := true;
      if cid !in daemon.containers || docker.Refused? {
        return SandboxError;
      }
      container := Some(cid);
      made := made + {cid};
      return Ok;
    }

    method DeleteSnapshots()
      requires Valid()
      modifies this, daemon
      ensures Valid() && snapshotIds == [] && container == old(container) && client == old(client)
      ensures made == old(made) && committed == old(committed) && daemon.containers == old(daemon.containers)
      ensures proxy == old(proxy) && proxies == old(proxies)
      ensures daemon.images == old(daemon.images) - committed
    {
      if !client || snapshotIds == [] {
        return;
      }
      for i := 0 to |snapshotIds|
        invariant snapshotIds == old(snapshotIds) && container == old(container) && client
        invariant made == old(made) && committed == old(committed) && daemon.containers == old(daemon.containers)
        invariant proxy == old(proxy) && proxies == old(proxies)
        invariant daemon.images == old(daemon.images) - set s | s in snapshotIds[..i]
      {
        daemon.images := daemon.images - {snapshotIds[i]};
        assert snapshotIds[..i + 1] == snapshotIds[..i] + [snapshotIds[i]];
      }
      assert snapshotIds[..|snapshotIds|] == snapshotIds;
      snapshotIds := [];
    }

    /** Nothing of its own is left: no container it made, no image it committed, no proxy. */
    method Stop()
      requires Valid()
      modifies this, daemon
      ensures Valid() && container.None? && snapshotIds == [] && !proxy && !client
      ensures daemon.containers == old(daemon.containers) - made && daemon.images == old(daemon.images) - committed
      ensures made == old(made) && committed == old(committed)
      ensures old(NoLostProxy()) ==> proxies == 0
    {
      RemoveBound();
      DeleteSnapshots();
      TeardownProxy();
      client := false;
    }
  }

  /** A call made on a started sandbox, with what Docker makes of it. */
  datatype Op =
    | TakeSnapshot(commits: bool, snap: string)
    | GoBack(snap: string, docker: Creation, cid: string)

  function HandedBy(op: Op): string {
    match op
    case TakeSnapshot(_, snap) => snap
    case GoBack(_, _, cid) => cid
  }

  /** The ids that Docker and the sandbox hand out over `ops`, after the first container's. */
  function Handed(cid: string, ops: seq<Op>): (ids: seq<string>)
    ensures |ids| == |ops| + 1 && ids[0] == cid
    ensures forall i :: 0 <= i < |ops| ==> ids[i + 1] == HandedBy(ops[i])
  {
    if ops == [] then [cid] else Handed(cid, ops[..|ops| - 1]) + [HandedBy(ops[|ops| - 1])]
  }

  /**
   * `with Sandbox(task) as sb:` around any snapshots and reverts: Docker's
   * containers and images are afterwards exactly what they were before.
   */
  method WithSandbox(daemon: Daemon, restricted: bool, hasCallback: bool, docker: Creation, cid: string, ops: seq<Op>)
    requires forall i, j :: 0 <= i < j <= |ops| ==> Handed(cid, ops)[i] != Handed(cid, ops)[j]
    requires forall id :: id in Handed(cid, ops) ==> id !in daemon.containers && id !in daemon.images
    modifies daemon
    ensures daemon.containers == old(daemon.containers) && daemon.images == old(daemon.images)
  {
    ghost var ids := Handed(cid, ops);
    var box := new Sandbox(daemon, restricted, hasCallback);
    assert ids[0] in ids;
    var started := box.Start(docker, cid);
    if started == SandboxError {
      return;
    }
    for i := 0 to |ops|
      invariant fresh(box) && box.daemon == daemon && box.Valid() && box.NoLostProxy()
      invariant forall id :: id in box.made + box.committed ==> id in ids[..i + 1]
      invariant daemon.containers - box.made == old(daemon.containers)
      invariant daemon.images - box.committed == old(daemon.images)
    {
      assert ids[..i + 2] == ids[..i + 1] + [ids[i + 1]];
      assert ids[i + 1] in ids && ids[i + 1] !in box.made + box.committed;
      match ops[i] {
        case TakeSnapshot(commits, snap) =>
          var r := box.Snapshot(commits, snap);
        case GoBack(snap, answer, newCid) =>
          var r := box.Revert(snap, answer, newCid);
      }
    }
    box.Stop();
  }
}
