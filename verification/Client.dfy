/** A client's view of the cluster: a store that everyone else may change before
    each request, requests that may fail, and a clock. */
module Client {
  import opened Resources
  import opened ApiServer

  /** What happens around one request: `world` is what all other actors do to the
      store first, `reply` how the request is answered, `elapsed` how long it
      took in milliseconds. */
  datatype Tick = Tick(world: Store -> Store, reply: Reply, elapsed: nat)

  /** The store, the time, and what will happen around the coming requests. Once
      the script is used up the cluster is quiet. */
  datatype World = World(store: Store, now: nat, script: seq<Tick>)

  function QuietTick(): Tick {
    Tick(st => st, Delivered, 0)
  }

  function Upcoming(w: World): Tick {
    if |w.script| == 0 then QuietTick() else w.script[0]
  }

  function CallAt(cfg: Config, w: World, op: Op): (World, Resp) {
    var tick := Upcoming(w);
    var (st, resp) := Perform(cfg, tick.world(w.store), op, tick.reply);
    (World(st, w.now + tick.elapsed, if |w.script| == 0 then [] else w.script[1..]), resp)
  }

  function Wait(w: World, ms: nat): World {
    w.(now := w.now + ms)
  }

  class Cluster {
    const cfg: Config
    var store: Store
    var now: nat
    var script: seq<Tick>

    constructor (cfg: Config, store: Store, now: nat, script: seq<Tick>)
      ensures this.cfg == cfg && W() == World(store, now, script)
    {
      this.cfg := cfg;
      this.store := store;
      this.now := now;
      this.script := script;
    }

    ghost function W(): World
      reads this
    {
      World(store, now, script)
    }

    method Call(op: Op) returns (resp: Resp)
      modifies this
      ensures (W(), resp) == CallAt(cfg, old(W()), op)
    {
      var tick := QuietTick();
      if |script| > 0 {
        tick := script[0];
        script := script[1..];
      }
      var (st, r) := Perform(cfg, tick.world(store), op, tick.reply);
      store, now, resp := st, now + tick.elapsed, r;
    }

    method Sleep(ms: nat)
      modifies this
      ensures W() == Wait(old(W()), ms)
    {
      now := now + ms;
    }
  }
}
