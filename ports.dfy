/**
 * The pool of SOCKS proxy ports (`Port`, `PortManager`). Every chunk
 * request leases one port, marked busy while it is leased. The lock of the
 * original only makes these operations atomic; here they run one at a time.
 */
module Ports {
  /** One local SOCKS5 endpoint `127.0.0.1:value` and whether it is leased. */
  class Port {
    const value: int
    var busy: bool

    constructor (value: int)
      ensures this.value == value && !busy
    {
      this.value := value;
      busy := false;
    }
  }

  /** No Port object appears twice in the list. */
  predicate Distinct(ports: seq<Port>)
  {
    forall i, j :: 0 <= i < j < |ports| ==> ports[i] != ports[j]
  }

  /** The busy flags of `ports`, in list order. */
  ghost function FlagsOf(ports: seq<Port>): seq<bool>
    reads ports
  {
    seq(|ports|, i requires 0 <= i < |ports| reads ports => ports[i].busy)
  }

  /** The position a scan in list order stops at: the first `false` flag. */
  function FirstFree(flags: seq<bool>): (k: nat)
    requires false in flags
    ensures k < |flags| && !flags[k]
    ensures forall j :: 0 <= j < k ==> flags[j]
  {
    if !flags[0] then 0 else 1 + FirstFree(flags[1..])
  }

  /** Marks every port of the list free (the constructor's loop, and the one `main` runs again). */
  method ClearAll(ports: seq<Port>)
    modifies ports
    ensures forall i :: 0 <= i < |ports| ==> !ports[i].busy
  {
    for i := 0 to |ports|
      invariant forall j :: 0 <= j < i ==> !ports[j].busy
    {
      ports[i].busy := false;
    }
  }

  class PortManager {
    const ports: seq<Port>

    ghost predicate Valid()
    {
      Distinct(ports)
    }

    ghost function Flags(): seq<bool>
      reads ports
    {
      FlagsOf(ports)
    }

    /** A new pool over `ports`, every one of them free. */
    constructor (ports: seq<Port>)
      requires Distinct(ports)
      modifies ports
      ensures this.ports == ports && Valid()
      ensures true !in Flags()
    {
      this.ports := ports;
      new;
      ClearAll(ports);
    }

    /**
     * Leases the first free port in list order: marks it busy and returns
     * it; no other flag changes. The original spins for ever, holding its
     * lock, when every port is busy; this model requires a free one.
     */
    method GetPort() returns (port: Port)
      requires Valid() && false in Flags()
      modifies ports
      ensures port == ports[FirstFree(old(Flags()))]
      ensures Flags() == old(Flags())[FirstFree(old(Flags())) := true]
    {
      var i := 0;
      while ports[i].busy
        invariant 0 <= i < |ports|
        invariant forall j :: 0 <= j < i ==> ports[j].busy
        invariant Flags() == old(Flags())
        decreases |ports| - i
      {
        i := i + 1;
      }
      assert Flags()[i] == ports[i].busy;
      ports[i].busy := true;
      port := ports[i];
    }

    /** Releases `port`: its flag becomes false and no other flag changes. */
    method ReturnPort(port: Port)
      modifies port
      ensures !port.busy
      ensures |Flags()| == |old(Flags())|
      ensures forall j :: 0 <= j < |ports| ==> Flags()[j] == if ports[j] == port then false else old(Flags())[j]
    {
      port.busy := false;
    }
  }
}
