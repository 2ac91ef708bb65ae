/**
 The netstack fields and methods behind DialPorts: the scan for a free port edits the cursor
 and the set in place, a dial runs its external part with the lock free, and a connection's
 Close fires its release once.
 */
module TrackedDialing {
  import opened Wrappers
  import opened DialPorts

  lemma RunOneMore(w: World, events: seq<Event>, e: Event)
    ensures Run(w, events + [e]) == Apply(Run(w, events), e)
  {
    assert (events + [e])[..|events + [e]| - 1] == events;
  }

  /** The calls a dial or a connection makes on its own behalf. */
  predicate Touches(e: Event, id: nat) {
    match e
    case StartDial(_) => false
    case DialFails(d) => d == id
    case DialConnects(d) => d == id
    case Close(c) => c == id
  }

  lemma OthersKeepDial(w: World, e: Event, d: nat)
    requires Inv(w) && d in w.dials && !Touches(e, d)
    ensures d in Apply(w, e).dials && Apply(w, e).dials[d] == w.dials[d]
  {
  }

  class Netstack {
    var dialedTCPPorts: set<AddrPort>
    var nextDialTCPPort: nat

    var world: World
    ghost var trace: seq<Event>

    ghost predicate Valid()
      reads this
    {
      && dialedTCPPorts == world.table.reserved && nextDialTCPPort == world.table.cursor
      && world == Run(Initial, trace)
    }

    constructor ()
      ensures Valid() && world == Initial
    {
      dialedTCPPorts, nextDialTCPPort := {}, FIRST_PORT;
      world, trace := Initial, [];
    }

    method Advance(e: Event)
      requires world == Run(Initial, trace)
      requires dialedTCPPorts == Apply(world, e).table.reserved && nextDialTCPPort == Apply(world, e).table.cursor
      modifies this`world, this`trace
      ensures Valid() && world == Apply(old(world), e)
    {
      RunOneMore(Initial, trace, e);
      world, trace := Apply(world, e), trace + [e];
    }

    /** The lock is free: other dials start, end and close. */
    method Interfere(d: nat)
      requires Valid() && d in world.dials
      modifies this
      ensures Valid() && d in world.dials && world.dials[d] == old(world).dials[d]
    {
      var steps: nat := *;
      while steps > 0
        invariant Valid() && d in world.dials && world.dials[d] == old(world).dials[d]
      {
        var e: Event := *;
        if !Touches(e, d) {
          ReachableInv(trace);
          OthersKeepDial(world, e, d);
          dialedTCPPorts, nextDialTCPPort := Apply(world, e).table.reserved, Apply(world, e).table.cursor;
          Advance(e);
        }
        steps := steps - 1;
      }
    }

    /** The scan: at most one look at each port, the cursor left just past the last one looked at.
        The cursor is a 16-bit word and never wraps by itself. */
    method ReserveDialTCPPort(localAddr: Addr) returns (address: Option<AddrPort>)
      requires FIRST_PORT <= nextDialTCPPort <= LAST_PORT
      modifies this`dialedTCPPorts, this`nextDialTCPPort
      ensures var got := Reserve(Table(old(dialedTCPPorts), old(nextDialTCPPort)), localAddr);
              address == got.granted && dialedTCPPorts == got.table.reserved && nextDialTCPPort == got.table.cursor
    {
      ghost var start: Cursor := nextDialTCPPort;
      ghost var reserved := dialedTCPPorts;
      FirstFreeIsFirst(reserved, localAddr, start, 0);
      var looked := 0;
      while looked < PORT_COUNT
        invariant 0 <= looked <= PORT_COUNT && dialedTCPPorts == reserved
        invariant nextDialTCPPort == PortAt(start, looked)
        invariant FirstFree(reserved, localAddr, start, 0) == FirstFree(reserved, localAddr, start, looked)
      {
        var port := nextDialTCPPort;
        assert nextDialTCPPort + 1 < UINT16;
        nextDialTCPPort := nextDialTCPPort + 1;
        if nextDialTCPPort > LAST_PORT {
          nextDialTCPPort := FIRST_PORT;
        }
        NextPort(start, looked);
        var candidate := AddrPort(localAddr, port);
        if candidate in dialedTCPPorts {
          looked := looked + 1;
          continue;
        }
        dialedTCPPorts := dialedTCPPorts + {candidate};
        return Some(candidate);
      }
      return None;
    }

    lemma NextPort(start: Cursor, k: nat)
      requires k < PORT_COUNT
      ensures PortAt(start, k + 1) == if PortAt(start, k) == LAST_PORT then FIRST_PORT else PortAt(start, k) + 1
    {
    }

    method ReleaseDialTCPPort(address: AddrPort)
      modifies this`dialedTCPPorts
      ensures dialedTCPPorts == old(dialedTCPPorts) - {address}
    {
      dialedTCPPorts := dialedTCPPorts - {address};
    }

    /** The inbound test accepts exactly the pairs that a dial or an open connection owns. */
    method IsDialedTCPPort(address: AddrPort) returns (ok: bool)
      requires Valid()
      ensures ok <==> exists o :: Owns(world, o, address)
    {
      ok := address in dialedTCPPorts;
      ReservedMeansOwnedOnce(trace, address);
    }

    /** DialContextTCPWithTrackedBind: reserve, dial with the lock free, then hand the pair over or back. */
    method DialContextTCPWithTrackedBind(localAddr: Addr, connects: bool) returns (conn: Option<nat>)
      requires Valid()
      modifies this
      ensures Valid()
      ensures conn.Some? ==> conn.value in world.open && world.open[conn.value].addr == localAddr
      ensures conn.Some? ==> conn.value == old(world).next
      ensures conn.Some? ==> Some(world.open[conn.value]) == Reserve(old(world).table, localAddr).granted
      ensures conn.Some? <==> connects && !Exhausted(old(dialedTCPPorts), localAddr)
    {
      ReserveTakesFirstFree(world.table, localAddr);
      var address := ReserveDialTCPPort(localAddr);
      var d := world.next;
      ReachableInv(trace);
      Advance(StartDial(localAddr));
      if address.None? {
        return None;
      }
      Interfere(d);
      ReachableInv(trace);
      if !connects {
        ReleaseDialTCPPort(address.value);
        Advance(DialFails(d));
        return None;
      }
      Advance(DialConnects(d));
      return Some(d);
    }

    /** trackedDialTCPConn.Close: the release runs on the first call and never again. */
    method CloseConnection(c: nat)
      requires Valid()
      modifies this
      ensures Valid() && world == Apply(old(world), Close(c))
      ensures c in old(world).open ==> world.table.reserved == old(world).table.reserved - {old(world).open[c]}
      ensures c in old(world).closed ==> world == old(world)
    {
      ReachableInv(trace);
      if c in world.open {
        ReleaseDialTCPPort(world.open[c]);
      }
      Advance(Close(c));
    }
  }
}
