/**
 * The sandbox beside the protocol: what `Sandbox.Sandbox` does to Docker by itself and what the tools of
 * `Server.Host` do to it for the same session are the same, call by call.
 */
module Mirror {
  import opened Events
  import opened Protocol
  import opened Invariant
  import Server
  import Boxes = Sandbox

  function Runs(containers: map<string, Container>): map<string, bool> {
    map c | c in containers :: containers[c].running
  }

  /** The daemon holds the containers and images of the host. */
  ghost predicate SameDocker(h: Server.Host, daemon: Boxes.Daemon)
    reads h, daemon
  {
    && daemon.containers == Runs(h.containers)
    && daemon.images == h.images.Keys
  }

  /** `box` is the sandbox of the session object at `path`. */
  ghost predicate Mirrors(h: Server.Host, path: string, box: Boxes.Sandbox)
    reads h, box, box.daemon
  {
    && box.Valid() && SameDocker(h, box.daemon)
    && path in h.objs && box.container == h.objs[path].cont
    && (forall s :: s in box.snapshotIds <==> s in h.objs[path].snaps)
  }

  lemma NewInDocker(h: Server.Host, box: Boxes.Sandbox, path: string, id: string)
    requires h.Valid() && Mirrors(h, path, box) && Fresh(h.Now(), id)
    ensures id !in box.daemon.containers && id !in box.daemon.images
  {
    hide After, Inv;
    ReachableInv(h.past);
    IdsAreIssued(h.Now());
  }

  /** Taking a container away, and putting a running one in its place, seen from the daemon. */
  lemma RunsSwap(w: World, cont: Option<string>, cid: string, c: Container)
    requires c.running
    ensures Runs(WithoutContainer(w, cont)) == Runs(w.containers) - if cont.Some? then {cont.value} else {}
    ensures Runs(WithoutContainer(w, cont)[cid := c]) == Runs(WithoutContainer(w, cont))[cid := true]
  {
  }

  lemma IdsAreIssued(w: World)
    requires Inv(w)
    ensures w.containers.Keys <= w.issued && w.images.Keys <= w.issued
  {
  }

  /** fork and Sandbox.snapshot. */
  method ForkBoth(h: Server.Host, sid: string, box: Boxes.Sandbox, snap: string, commits: bool)
    returns (tool: Server.Reply<string>, own: Boxes.Outcome)
    requires h.Valid() && h.call == Idle && Fresh(h.Now(), snap) && snap !in box.committed
    requires sid in h.table && Mirrors(h, h.table[sid], box)
    modifies h, box, box.daemon
    ensures h.Valid() && sid in h.table && Mirrors(h, h.table[sid], box)
    ensures tool.Done? <==> own.Ok?
  {
    NewInDocker(h, box, h.table[sid], snap);
    hide h.Valid(), box.Valid(), Server.Told, Fresh, ForkData, Runs;
    tool := h.Fork(sid, snap, commits);
    own := box.Snapshot(commits, snap);
  }

  /** revert and Sandbox.revert; what Docker refuses one, it refuses the other. */
  method RevertBoth(h: Server.Host, sid: string, box: Boxes.Sandbox, snap: string, docker: Boxes.Creation, cid: string)
    returns (tool: Server.Reply<string>, own: Boxes.Outcome)
    requires h.Valid() && h.call == Idle && Fresh(h.Now(), cid) && cid !in box.made
    requires sid in h.table && Mirrors(h, h.table[sid], box)
    modifies h, box, box.daemon
    ensures h.Valid() && sid in h.table && Mirrors(h, h.table[sid], box)
    ensures tool.Done? <==> own.Ok?
  {
    NewInDocker(h, box, h.table[sid], cid);
    hide h.Valid(), box.Valid(), Server.Told, Fresh, RevertData, Runs, WithoutContainer;
    ghost var w := h.Now();
    tool := h.Revert(sid, snap, cid, docker.Running?);
    own := box.Revert(snap, docker, cid);
    RunsSwap(w, w.objs[w.table[sid]].cont, cid,
             if own.Ok? then h.containers[cid] else Container([], true));
  }

  /** abort_task and Sandbox.stop. */
  method StopBoth(h: Server.Host, sid: string, box: Boxes.Sandbox)
    requires h.Valid() && h.call == Idle && sid in h.table && Mirrors(h, h.table[sid], box)
    modifies h, box, box.daemon
    ensures h.Valid() && old(h.table[sid]) !in h.objs && SameDocker(h, box.daemon)
    ensures box.container.None? && box.snapshotIds == []
  {
    hide h.Valid(), Server.Told, Runs, WithoutContainer;
    ghost var w := h.Now();
    RunsSwap(w, w.objs[w.table[sid]].cont, "", Container([], true));
    var _ := h.AbortTask(sid);
    box.Stop();
  }
}
