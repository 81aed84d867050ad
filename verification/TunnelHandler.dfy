/** activeTunnel as the program holds it; each method is one critical section under at.mu. */
module TunnelHandler {
  import opened UpstreamPool
  import opened NoiseSurface
  import opened PoolHandler

  class ActiveTunnel {
    const key: PoolKey
    const client: bool
    const captured: bool
    var up: SharedUpstream
    var bridge: SharedUpstream          // the upstream whose H2 bridge requests ride on
    var closed: bool
    var healFailed: bool
    ghost var phase: Phase
    ghost var history: seq<Uid>
    ghost var warnings: nat

    ghost function View(): Tunnel
      reads this
    {
      Tunnel(key, client, captured, up.id, bridge.id, closed, healFailed, phase, history, warnings)
    }

    constructor (key: PoolKey, client: bool, captured: bool, u: SharedUpstream)
      ensures View() == NewTunnel(key, client, captured, u.id)
    {
      this.key, this.client, this.captured := key, client, captured;
      up, bridge, closed, healFailed := u, u, false, false;
      phase, history, warnings := Opened, [u.id], 0;
    }

    /** The heal's first look: is the tunnel still open and bound to dead? Names tell upstreams apart. */
    method Stale(dead: SharedUpstream) returns (stale: bool)
      requires up.id == dead.id ==> up == dead
      ensures stale <==> !closed && View().up == dead.id
    {
      stale := !closed && up == dead;
    }

    /** The heal's compare-and-swap; on false the caller gives its fresh ref back. */
    method SwapUpstream(dead: SharedUpstream, u: SharedUpstream) returns (won: bool)
      requires up.id == dead.id ==> up == dead
      modifies this
      ensures (won, View()) == Swap(old(View()), dead.id, u.id)
    {
      if closed || up != dead {
        return false;
      }
      up, bridge, healFailed := u, u, false;
      history := history + [u.id];
      return true;
    }

    /** Says whether this failure is the one to log. */
    method HealDialFailed() returns (first: bool)
      modifies this
      ensures (first, View()) == MarkHealFailed(old(View()))
    {
      first := !healFailed;
      if first {
        warnings := warnings + 1;
      }
      healFailed := true;
    }

    /** Only the first close hands back the upstream whose ref the caller must return. */
    method Close() returns (first: bool, cur: SharedUpstream)
      modifies this
      ensures (first, View()) == MarkClosed(old(View())) && cur == old(up)
    {
      first, cur := !closed, up;
      closed := true;
    }
  }
}
