/**
 Tracked source ports of userspace dials: a cyclic cursor over 56000..60999 and the set of
 reserved address/port pairs.  A dial owns its pair until it fails or until the first Close of
 the connection it made; only packets for owned pairs are taken from the system TUN.
 */
module DialPorts {
  import opened Wrappers

  const FIRST_PORT: nat := 56000
  const LAST_PORT: nat := 60999
  const PORT_COUNT: nat := LAST_PORT - FIRST_PORT + 1
  const UINT16: nat := 0x1_0000

  type Addr = string

  datatype AddrPort = AddrPort(addr: Addr, port: nat)

  predicate Tracked(port: nat) {
    56000 <= port <= 60999
  }

  type Cursor = p: nat | FIRST_PORT <= p <= LAST_PORT witness FIRST_PORT

  /** The k-th port in cyclic order from a cursor. */
  function PortAt(cursor: Cursor, k: nat): Cursor
    requires k <= PORT_COUNT
  {
    if cursor + k <= LAST_PORT then cursor + k else cursor + k - PORT_COUNT
  }

  /** Where the cursor stands when it has passed n ports in all. */
  function Position(n: nat): Cursor {
    FIRST_PORT + n % PORT_COUNT
  }

  /** The first of the places k, k + 1, ... in cyclic order from the cursor whose port is free for the
      address, or the whole count. */
  function FirstFree(reserved: set<AddrPort>, addr: Addr, cursor: Cursor, k: nat): (free: nat)
    requires k <= PORT_COUNT
    ensures k <= free <= PORT_COUNT
    decreases PORT_COUNT - k
  {
    if k == PORT_COUNT || AddrPort(addr, PortAt(cursor, k)) !in reserved then k
    else FirstFree(reserved, addr, cursor, k + 1)
  }

  /** Every port of the range is reserved for the address. */
  ghost predicate Exhausted(reserved: set<AddrPort>, addr: Addr) {
    forall port :: Tracked(port) ==> AddrPort(addr, port) in reserved
  }

  ghost predicate BusyBefore(reserved: set<AddrPort>, addr: Addr, cursor: Cursor, k: nat)
    requires k <= PORT_COUNT
  {
    forall i :: 0 <= i < k ==> AddrPort(addr, PortAt(cursor, i)) in reserved
  }

  datatype Table = Table(reserved: set<AddrPort>, cursor: Cursor)

  datatype Reservation = Reservation(table: Table, granted: Option<AddrPort>, advance: nat)

  function Reserve(t: Table, addr: Addr): Reservation {
    var busy := FirstFree(t.reserved, addr, t.cursor, 0);
    if busy == PORT_COUNT then Reservation(t, None, PORT_COUNT)
    else
      var address := AddrPort(addr, PortAt(t.cursor, busy));
      Reservation(Table(t.reserved + {address}, PortAt(t.cursor, busy + 1)), Some(address), busy + 1)
  }

  lemma {:induction false} FirstFreeIsFirst(reserved: set<AddrPort>, addr: Addr, cursor: Cursor, k: nat)
    requires k <= PORT_COUNT
    ensures var free := FirstFree(reserved, addr, cursor, k);
            && (free < PORT_COUNT ==> AddrPort(addr, PortAt(cursor, free)) !in reserved)
            && forall i :: k <= i < free ==> AddrPort(addr, PortAt(cursor, i)) in reserved
    decreases PORT_COUNT - k
  {
    if k != PORT_COUNT && AddrPort(addr, PortAt(cursor, k)) in reserved {
      FirstFreeIsFirst(reserved, addr, cursor, k + 1);
    }
  }

  lemma PositionMoves(n: nat, k: nat)
    requires k <= PORT_COUNT
    ensures Position(n + k) == PortAt(Position(n), k)
  {
    var q, r := n / PORT_COUNT, n % PORT_COUNT;
    assert n == q * PORT_COUNT + r;
    assert n + k == q * PORT_COUNT + (r + k);
  }

  /** Every tracked port is met once in a cycle from any cursor. */
  lemma CycleMeetsEveryPort(cursor: Cursor, port: nat) returns (k: nat)
    requires Tracked(port)
    ensures k < PORT_COUNT && PortAt(cursor, k) == port
  {
    k := if port >= cursor then port - cursor else port - cursor + PORT_COUNT;
  }

  /** A reservation takes the first free port in cyclic order, one not reserved for that address, and
      fails exactly when all ports of that address are reserved; the cursor stays in range. */
  lemma ReserveTakesFirstFree(t: Table, addr: Addr)
    ensures var got := Reserve(t, addr);
            && 1 <= got.advance <= PORT_COUNT
            && got.table.cursor == PortAt(t.cursor, got.advance)
            && (got.granted.None? <==> Exhausted(t.reserved, addr))
            && (got.granted.None? ==> got.table == t)
            && (got.granted.Some? ==>
                  && got.granted.value == AddrPort(addr, PortAt(t.cursor, got.advance - 1))
                  && got.granted.value !in t.reserved
                  && got.table.reserved == t.reserved + {got.granted.value}
                  && BusyBefore(t.reserved, addr, t.cursor, got.advance - 1))
  {
    FirstFreeIsFirst(t.reserved, addr, t.cursor, 0);
    ExhaustedMeansAllReserved(t.reserved, addr, t.cursor);
  }

  lemma ExhaustedMeansAllReserved(reserved: set<AddrPort>, addr: Addr, cursor: Cursor)
    ensures FirstFree(reserved, addr, cursor, 0) == PORT_COUNT
            <==> Exhausted(reserved, addr)
  {
    FirstFreeIsFirst(reserved, addr, cursor, 0);
    var free := FirstFree(reserved, addr, cursor, 0);
    if free == PORT_COUNT {
      forall port | Tracked(port) ensures AddrPort(addr, port) in reserved {
        var k := CycleMeetsEveryPort(cursor, port);
      }
    } else {
      assert Tracked(PortAt(cursor, free));
    }
  }

  // ---------------------------------------------------------------- ownership

  datatype Owner = Dial(id: nat) | Connection(id: nat)

  /** A pair granted when the cursor had moved `at` ports in all. */
  datatype Grant = Grant(address: AddrPort, at: nat)

  datatype World = World(
    table: Table,
    dials: map<nat, AddrPort>,           // dials in flight
    open: map<nat, AddrPort>,            // tracked connections not yet closed
    closed: set<nat>,                    // connections whose close-once has fired
    next: nat,
    odometer: nat,                       // ports passed by the cursor since the start
    grants: seq<Grant>)

  const Initial := World(Table({}, FIRST_PORT), map[], map[], {}, 0, 0, [])

  datatype Event =
    | StartDial(addr: Addr)
    | DialFails(d: nat)
    | DialConnects(d: nat)
    | Close(c: nat)

  function Release(t: Table, address: AddrPort): Table {
    t.(reserved := t.reserved - {address})
  }

  function StartDialStep(w: World, addr: Addr): World {
    var got := Reserve(w.table, addr);
    var moved := w.(table := got.table, odometer := w.odometer + got.advance);
    if got.granted.None? then moved
    else moved.(dials := w.dials[w.next := got.granted.value], next := w.next + 1,
                grants := w.grants + [Grant(got.granted.value, w.odometer + got.advance - 1)])
  }

  function DialFailsStep(w: World, d: nat): World {
    if d !in w.dials then w
    else w.(table := Release(w.table, w.dials[d]), dials := w.dials - {d})
  }

  /** The connection keeps the dial's number and takes over its pair. */
  function DialConnectsStep(w: World, d: nat): World {
    if d !in w.dials then w
    else w.(dials := w.dials - {d}, open := w.open[d := w.dials[d]])
  }

  /** Close runs its release once. */
  function CloseStep(w: World, c: nat): World {
    if c !in w.open then w
    else w.(table := Release(w.table, w.open[c]), open := w.open - {c}, closed := w.closed + {c})
  }

  function Apply(w: World, e: Event): World {
    match e
    case StartDial(addr) => StartDialStep(w, addr)
    case DialFails(d) => DialFailsStep(w, d)
    case DialConnects(d) => DialConnectsStep(w, d)
    case Close(c) => CloseStep(w, c)
  }

  /** Who owns a pair, read off the dials and connections. */
  ghost predicate Owns(w: World, o: Owner, address: AddrPort) {
    match o
    case Dial(id) => id in w.dials && w.dials[id] == address
    case Connection(id) => id in w.open && w.open[id] == address
  }

  /** A dial or connection is in one stage of its life, and its pair is reserved as long as it owns one. */
  ghost predicate StagesOk(w: World) {
    && (forall d :: d in w.dials ==> d < w.next && w.dials[d] in w.table.reserved && d !in w.open && d !in w.closed)
    && (forall c :: c in w.open ==> c < w.next && w.open[c] in w.table.reserved && c !in w.closed)
    && (forall c :: c in w.closed ==> c < w.next)
  }

  /** No pair has two owners. */
  ghost predicate PairsDistinct(w: World) {
    && (forall d, e :: d in w.dials && e in w.dials && d != e ==> w.dials[d] != w.dials[e])
    && (forall c, e :: c in w.open && e in w.open && c != e ==> w.open[c] != w.open[e])
    && (forall d, c :: d in w.dials && c in w.open ==> w.dials[d] != w.open[c])
  }

  ghost predicate Inv(w: World) {
    && StagesOk(w) && PairsDistinct(w)
    && (forall a :: a in w.table.reserved ==> Owned(w, a))
    && w.table.cursor == Position(w.odometer)
    && GrantsOk(w.grants, w.odometer)
  }

  ghost predicate Owned(w: World, address: AddrPort) {
    (exists d :: d in w.dials && w.dials[d] == address) || (exists c :: c in w.open && w.open[c] == address)
  }

  /** Grants are made at strictly increasing cursor positions, each of the port at that position. */
  ghost predicate GrantsOk(grants: seq<Grant>, odometer: nat) {
    && (forall i :: 0 <= i < |grants| ==>
          grants[i].at < odometer && grants[i].address.port == Position(grants[i].at))
    && forall i, j :: 0 <= i < j < |grants| ==> grants[i].at < grants[j].at
  }

  function Run(w: World, events: seq<Event>): World {
    if events == [] then w else Apply(Run(w, events[..|events| - 1]), events[|events| - 1])
  }

  lemma {:induction false} ReachableInv(events: seq<Event>)
    ensures Inv(Run(Initial, events))
  {
    if events != [] {
      ReachableInv(events[..|events| - 1]);
      StepKeepsInv(Run(Initial, events[..|events| - 1]), events[|events| - 1]);
    }
  }

  lemma StartDialKeeps(w: World, addr: Addr)
    requires Inv(w)
    ensures Inv(StartDialStep(w, addr))
  {
    ReserveTakesFirstFree(w.table, addr);
    StartDialKeepsOwners(w, addr);
    StartDialKeepsGrants(w, addr);
  }

  lemma GrantAdded(grants: seq<Grant>, odometer: nat, grant: Grant)
    requires GrantsOk(grants, odometer) && odometer <= grant.at && grant.address.port == Position(grant.at)
    ensures GrantsOk(grants + [grant], grant.at + 1)
  {
  }

  lemma ReserveMovesCursor(t: Table, addr: Addr, odometer: nat)
    requires t.cursor == Position(odometer)
    ensures var got := Reserve(t, addr);
            && got.advance > 0 && got.table.cursor == Position(odometer + got.advance)
            && (got.granted.Some? ==> got.granted.value.port == Position(odometer + got.advance - 1))
  {
    ReserveTakesFirstFree(t, addr);
    var got := Reserve(t, addr);
    PositionMoves(odometer, got.advance);
    PositionMoves(odometer, got.advance - 1);
  }

  lemma StartDialKeepsGrants(w: World, addr: Addr)
    requires w.table.cursor == Position(w.odometer) && GrantsOk(w.grants, w.odometer)
    ensures var v := StartDialStep(w, addr);
            v.table.cursor == Position(v.odometer) && GrantsOk(v.grants, v.odometer)
  {
    ReserveMovesCursor(w.table, addr, w.odometer);
    var got := Reserve(w.table, addr);
    if got.granted.Some? {
      GrantAdded(w.grants, w.odometer, Grant(got.granted.value, w.odometer + got.advance - 1));
    }
  }

  lemma StartDialKeepsOwners(w: World, addr: Addr)
    requires Inv(w)
    ensures var v := StartDialStep(w, addr);
            forall a :: a in v.table.reserved ==> Owned(v, a)
  {
    ReserveTakesFirstFree(w.table, addr);
    var v, got := StartDialStep(w, addr), Reserve(w.table, addr);
    forall a | a in v.table.reserved ensures Owned(v, a) {
      if got.granted == Some(a) {
        assert v.dials[w.next] == a;
      } else {
        OwnerStays(w, v, a);
      }
    }
  }

  lemma OwnerStays(w: World, v: World, a: AddrPort)
    requires Owned(w, a)
    requires forall d :: d in w.dials && w.dials[d] == a ==>
               (d in v.dials && v.dials[d] == a) || (d in v.open && v.open[d] == a)
    requires forall c :: c in w.open && w.open[c] == a ==> c in v.open && v.open[c] == a
    ensures Owned(v, a)
  {
  }

  lemma StepKeepsInv(w: World, e: Event)
    requires Inv(w)
    ensures Inv(Apply(w, e))
  {
    match e
    case StartDial(addr) => StartDialKeeps(w, addr);
    case DialFails(d) => DialFailsKeeps(w, d);
    case DialConnects(d) => DialConnectsKeeps(w, d);
    case Close(c) => CloseKeeps(w, c);
  }

  lemma DialFailsKeeps(w: World, d: nat)
    requires Inv(w)
    ensures Inv(DialFailsStep(w, d))
  {
    ReleaseKeepsOwners(w, DialFailsStep(w, d));
  }

  /** Whoever loses a pair loses it from the table too. */
  lemma ReleaseKeepsOwners(w: World, v: World)
    requires forall a :: a in w.table.reserved ==> Owned(w, a)
    requires v.table.reserved <= w.table.reserved
    requires forall d :: d in w.dials && w.dials[d] in v.table.reserved ==> d in v.dials && v.dials[d] == w.dials[d]
    requires forall c :: c in w.open && w.open[c] in v.table.reserved ==> c in v.open && v.open[c] == w.open[c]
    ensures forall a :: a in v.table.reserved ==> Owned(v, a)
  {
    forall a | a in v.table.reserved ensures Owned(v, a) {
      OwnerStays(w, v, a);
    }
  }

  lemma DialConnectsKeeps(w: World, d: nat)
    requires Inv(w)
    ensures Inv(DialConnectsStep(w, d))
  {
    if d in w.dials {
      DialConnectsKeepsOwners(w, d);
      DialConnectsKeepsStages(w, d);
      DialConnectsKeepsPairs(w, d);
    }
  }

  lemma DialConnectsKeepsStages(w: World, d: nat)
    requires StagesOk(w) && d in w.dials
    ensures StagesOk(DialConnectsStep(w, d))
  {
  }

  lemma DialConnectsKeepsPairs(w: World, d: nat)
    requires StagesOk(w) && PairsDistinct(w) && d in w.dials
    ensures PairsDistinct(DialConnectsStep(w, d))
  {
  }

  lemma DialConnectsKeepsOwners(w: World, d: nat)
    requires forall a :: a in w.table.reserved ==> Owned(w, a)
    requires d in w.dials && d !in w.open
    ensures var v := DialConnectsStep(w, d);
            forall a :: a in v.table.reserved ==> Owned(v, a)
  {
    var v := DialConnectsStep(w, d);
    forall a | a in v.table.reserved ensures Owned(v, a) {
      OwnerStays(w, v, a);
    }
  }

  lemma CloseKeeps(w: World, c: nat)
    requires Inv(w)
    ensures Inv(CloseStep(w, c))
  {
    ReleaseKeepsOwners(w, CloseStep(w, c));
  }

  // ------------------------------------------------------------------ promises

  /** The reserved set is the pairs owned, each by exactly one dial or open connection. */
  lemma ReservedMeansOwnedOnce(events: seq<Event>, address: AddrPort)
    ensures var w := Run(Initial, events);
            && (address in w.table.reserved <==> exists o :: Owns(w, o, address))
            && forall o, p :: Owns(w, o, address) && Owns(w, p, address) ==> o == p
  {
    ReachableInv(events);
    var w := Run(Initial, events);
    if address in w.table.reserved {
      assert Owned(w, address);
      if d :| d in w.dials && w.dials[d] == address {
        assert Owns(w, Dial(d), address);
      } else {
        var c :| c in w.open && w.open[c] == address;
        assert Owns(w, Connection(c), address);
      }
    }
  }

  /** Two grants of one port, for whatever addresses, lie a positive multiple of the whole range
      apart in cursor movement: every other port was passed over in between. */
  lemma RegrantsAreCyclesApart(events: seq<Event>, i: nat, j: nat)
    requires i < j < |Run(Initial, events).grants|
    requires Run(Initial, events).grants[i].address.port == Run(Initial, events).grants[j].address.port
    ensures var g := Run(Initial, events).grants;
            exists cycles: nat :: cycles >= 1 && g[j].at == g[i].at + cycles * 5000
  {
    ReachableInv(events);
    var g := Run(Initial, events).grants;
    var cycles := SamePhase(g[i].at, g[j].at);
  }

  lemma SamePhase(a: nat, b: nat) returns (cycles: nat)
    requires a < b && Position(a) == Position(b)
    ensures cycles >= 1 && b == a + cycles * PORT_COUNT
  {
    cycles := b / PORT_COUNT - a / PORT_COUNT;
  }

  /** A close after the first releases nothing, even if its old pair has a new owner by now. */
  lemma ClosingAgainReleasesNothing(events: seq<Event>, later: seq<Event>, c: nat)
    requires c in Run(Initial, events).open
    ensures var v := Run(Apply(Run(Initial, events), Close(c)), later);
            Apply(v, Close(c)) == v
  {
    ReachableInv(events);
    var w := Run(Initial, events);
    StepKeepsInv(w, Close(c));
    ClosedStaysClosed(Apply(w, Close(c)), later, c);
  }

  lemma {:induction false} ClosedStaysClosed(w: World, later: seq<Event>, c: nat)
    requires Inv(w) && c in w.closed
    ensures Inv(Run(w, later)) && c in Run(w, later).closed
  {
    if later != [] {
      var before, e := Run(w, later[..|later| - 1]), later[|later| - 1];
      ClosedStaysClosed(w, later[..|later| - 1], c);
      StepKeepsInv(before, e);
      ClosedGrows(before, e);
    }
  }

  lemma ClosedGrows(w: World, e: Event)
    ensures w.closed <= Apply(w, e).closed
  {
  }

  ghost predicate AllOwned(w: World, addr: Addr) {
    forall port :: Tracked(port) ==> exists o :: Owns(w, o, AddrPort(addr, port))
  }

  /** Starting a dial takes nothing from any owner, and fails exactly when all ports of the
      address have owners. */
  lemma DialsFailOnlyWhenAllPortsAreOwned(events: seq<Event>, addr: Addr)
    ensures var w := Run(Initial, events);
            var v := Apply(w, StartDial(addr));
            && (forall o, a :: Owns(w, o, a) ==> Owns(v, o, a))
            && (v.dials == w.dials <==> AllOwned(w, addr))
  {
    ReachableInv(events);
    var w := Run(Initial, events);
    ExhaustedMeansAllOwned(events, addr);
    StartDialTakesFromNobody(w, addr);
  }

  lemma ExhaustedMeansAllOwned(events: seq<Event>, addr: Addr)
    ensures var w := Run(Initial, events); Exhausted(w.table.reserved, addr) <==> AllOwned(w, addr)
  {
    forall port | Tracked(port)
      ensures var w := Run(Initial, events);
              AddrPort(addr, port) in w.table.reserved <==> exists o :: Owns(w, o, AddrPort(addr, port))
    {
      ReservedMeansOwnedOnce(events, AddrPort(addr, port));
    }
  }

  lemma StartDialTakesFromNobody(w: World, addr: Addr)
    requires Inv(w)
    ensures var v := StartDialStep(w, addr);
            && (forall o, a :: Owns(w, o, a) ==> Owns(v, o, a))
            && (v.dials == w.dials <==> Exhausted(w.table.reserved, addr))
  {
    ReserveTakesFirstFree(w.table, addr);
    assert w.next !in w.dials;
  }
}
