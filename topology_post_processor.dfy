/**
 * Topology post-processing (misty/parse/topology/PostProcessor.java): once the
 * topology document is read, every host is attached to the device that lists
 * it, the declared neighbour links become a directed graph, and each device
 * is given routes taken from a routing table computed on that graph (the
 * shortest-path computation itself is an input here).
 */
module TopologyPostProcessing {
  import opened Wrappers

  // ---------------------------------------------------------------------
  // Entities

  /** A host of a fog device; its datacenter is set by post-processing. */
  class FogHost {
    var datacenter: FogDevice?

    constructor()
      ensures datacenter == null
    {
      datacenter := null;
    }

    method SetDatacenter(device: FogDevice)
      modifies this`datacenter
      ensures datacenter == device
    {
      datacenter := device;
    }
  }

  /** The parts of a fog device (misty/entity/FogDevice.java) that post-processing reads or writes. */
  class FogDevice {
    const name: string
    const hosts: seq<FogHost>
    const neighbors: seq<string>
    /** destination -> next hop; Java stores a null hop as an ordinary value (`None`). */
    var routingTable: map<string, Option<string>>

    constructor(name: string, hosts: seq<FogHost>, neighbors: seq<string>)
      ensures this.name == name && this.hosts == hosts && this.neighbors == neighbors
      ensures routingTable == map[]
    {
      this.name := name;
      this.hosts := hosts;
      this.neighbors := neighbors;
      routingTable := map[];
    }

    /** `addRoute`: the destination's hop is replaced, nothing else changes. */
    method AddRoute(dst: string, hop: Option<string>)
      modifies this`routingTable
      ensures routingTable == old(routingTable)[dst := hop]
    {
      routingTable := routingTable[dst := hop];
    }

    /** Several routes at once: the given ones replace any earlier hop for their destination. */
    method AddRoutes(routes: map<string, Option<string>>)
      modifies this`routingTable
      ensures routingTable == old(routingTable) + routes
    {
      routingTable := routingTable + routes;
    }

    /** `nextHop`: `routingTable.getOrDefault(dst, null)`. */
    function NextHop(dst: string): (r: Option<string>)
      reads this`routingTable
      ensures r == HopIn(routingTable, dst)
      ensures r.Some? ==> dst in routingTable
    {
      if dst in routingTable then routingTable[dst] else None
    }
  }

  /** The directed topology graph (misty/analyze/TopologyAnalyzer.java): no parallel edges, loops allowed. */
  class TopologyAnalyzer {
    var vertices: set<string>
    var edges: set<(string, string)>

    /** Every edge joins two vertices of the graph. */
    ghost predicate Valid()
      reads this
    {
      forall e :: e in edges ==> e.0 in vertices && e.1 in vertices
    }

    constructor()
      ensures Valid() && vertices == {} && edges == {}
    {
      vertices := {};
      edges := {};
    }

    /** `addVertex`: a vertex already present is left as it is. */
    method AddVertex(v: string)
      requires Valid()
      modifies this`vertices
      ensures Valid() && vertices == old(vertices) + {v}
    {
      vertices := vertices + {v};
    }

    /** `addEdge`: both ends must already be vertices (the graph throws otherwise). */
    method AddEdge(src: string, dst: string)
      requires Valid() && src in vertices && dst in vertices
      modifies this`edges
      ensures Valid() && edges == old(edges) + {(src, dst)}
    {
      edges := edges + {(src, dst)};
    }
  }

  // ---------------------------------------------------------------------
  // Values the specification is written over

  /** A device's name and declared neighbours, in declaration order. */
  datatype Declared = Declared(name: string, neighbors: seq<string>)

  function DeclaredOf(devices: seq<FogDevice>): (r: seq<Declared>)
    ensures |r| == |devices|
    ensures forall i :: 0 <= i < |devices| ==> r[i] == Declared(devices[i].name, devices[i].neighbors)
  {
    if devices == [] then [] else DeclaredOf(devices[..|devices| - 1]) + [Declared(devices[|devices| - 1].name, devices[|devices| - 1].neighbors)]
  }

  /** A routing-table lookup `getOrDefault(dst, null)` on a device's table. */
  function HopIn(routes: map<string, Option<string>>, dst: string): Option<string>
  {
    if dst in routes then routes[dst] else None
  }

  /** `routingTable.getOrDefault(Pair.of(src, dst), null)` on the computed table. */
  function TableHop(table: map<(string, string), string>, src: string, dst: string): Option<string>
  {
    if (src, dst) in table then Some(table[(src, dst)]) else None
  }

  // ---------------------------------------------------------------------
  // connectHostToDatabase

  /** Every host listed by some device. */
  ghost function AllHosts(devices: seq<FogDevice>): set<FogHost>
  {
    set i, h | 0 <= i < |devices| && h in devices[i].hosts :: h
  }

  /** The index of the last device listing `h`, or -1 when none does. */
  function LastOwner(devices: seq<FogDevice>, h: FogHost): (r: int)
    ensures -1 <= r < |devices|
    ensures r >= 0 ==> h in devices[r].hosts && forall k :: r < k < |devices| ==> h !in devices[k].hosts
    ensures r == -1 <==> forall k :: 0 <= k < |devices| ==> h !in devices[k].hosts
  {
    if devices == [] then -1
    else if h in devices[|devices| - 1].hosts then |devices| - 1
    else LastOwner(devices[..|devices| - 1], h)
  }

  /** No host is listed twice, by the same device or two of them. */
  predicate HostsDisjoint(devices: seq<FogDevice>)
  {
    forall a, b, h :: 0 <= a < b < |devices| && h in devices[a].hosts ==> h !in devices[b].hosts
  }

  /** With disjoint host lists, a host's last owner is the one device that lists it. */
  lemma OwnerIsTheListingDevice(devices: seq<FogDevice>, i: int, h: FogHost)
    requires HostsDisjoint(devices) && 0 <= i < |devices| && h in devices[i].hosts
    ensures LastOwner(devices, h) == i
  {
  }

  /**
   * `connectHostToDatabase`: every listed host's datacenter becomes the last
   * device in list order that lists it; with disjoint host lists, each host
   * points back at its own device.
   */
  method ConnectHostToDatabase(devices: seq<FogDevice>)
    modifies AllHosts(devices)
    ensures forall h :: h in AllHosts(devices) ==> 0 <= LastOwner(devices, h) && h.datacenter == devices[LastOwner(devices, h)]
    ensures HostsDisjoint(devices) ==> forall i, h :: 0 <= i < |devices| && h in devices[i].hosts ==> h.datacenter == devices[i]
  {
    for i := 0 to |devices|
      invariant forall h :: h in AllHosts(devices) ==>
        h.datacenter == if LastOwner(devices[..i], h) >= 0 then devices[LastOwner(devices[..i], h)] else old(h.datacenter)
    {
      var device := devices[i];
      var hosts := device.hosts;
      for j := 0 to |hosts|
        invariant forall h :: h in AllHosts(devices) ==>
          h.datacenter == if h in hosts[..j] then device
                          else if LastOwner(devices[..i], h) >= 0 then devices[LastOwner(devices[..i], h)]
                          else old(h.datacenter)
      {
        assert hosts[..j + 1] == hosts[..j] + [hosts[j]];
        assert hosts[j] in devices[i].hosts;
        hosts[j].SetDatacenter(device);
      }
      assert hosts[..|hosts|] == hosts;
      assert devices[..i + 1][..i] == devices[..i];
    }
    assert devices[..|devices|] == devices;
    forall i, h | HostsDisjoint(devices) && 0 <= i < |devices| && h in devices[i].hosts
      ensures LastOwner(devices, h) == i
    {
      OwnerIsTheListingDevice(devices, i, h);
    }
  }

  // ---------------------------------------------------------------------
  // buildTopologyAnalyzer

  /** The edges one device adds: one from it to each declared neighbour. */
  function NeighbourEdges(name: string, ns: seq<string>): set<(string, string)>
  {
    set n | n in ns :: (name, n)
  }

  /** The vertices one device adds: none without neighbours, otherwise itself and its neighbours. */
  function NeighbourVertices(name: string, ns: seq<string>): set<string>
  {
    if ns == [] then {} else {name} + set n | n in ns
  }

  function Edges(ds: seq<Declared>): set<(string, string)>
  {
    if ds == [] then {} else Edges(ds[..|ds| - 1]) + NeighbourEdges(ds[|ds| - 1].name, ds[|ds| - 1].neighbors)
  }

  function Vertices(ds: seq<Declared>): set<string>
  {
    if ds == [] then {} else Vertices(ds[..|ds| - 1]) + NeighbourVertices(ds[|ds| - 1].name, ds[|ds| - 1].neighbors)
  }

  /** The graph has an edge a -> b exactly when some device named a declares neighbour b. */
  lemma {:induction false} EdgeIff(ds: seq<Declared>, a: string, b: string)
    ensures (a, b) in Edges(ds) <==> exists i :: 0 <= i < |ds| && ds[i].name == a && b in ds[i].neighbors
  {
    if ds != [] {
      var init := ds[..|ds| - 1];
      EdgeIff(init, a, b);
      if (a, b) in Edges(init) {
        var i :| 0 <= i < |init| && init[i].name == a && b in init[i].neighbors;
        assert ds[i] == init[i];
      }
      if exists i :: 0 <= i < |ds| && ds[i].name == a && b in ds[i].neighbors {
        var i :| 0 <= i < |ds| && ds[i].name == a && b in ds[i].neighbors;
        if i < |init| { assert init[i] == ds[i]; }
      }
    }
  }

  /** A name is a vertex exactly when a device with neighbours has it as its own name or as a neighbour. */
  lemma {:induction false} VertexIff(ds: seq<Declared>, v: string)
    ensures v in Vertices(ds) <==> exists i :: 0 <= i < |ds| && ds[i].neighbors != [] && (ds[i].name == v || v in ds[i].neighbors)
  {
    if ds != [] {
      var init := ds[..|ds| - 1];
      VertexIff(init, v);
      if v in Vertices(init) {
        var i :| 0 <= i < |init| && init[i].neighbors != [] && (init[i].name == v || v in init[i].neighbors);
        assert ds[i] == init[i];
      }
      if exists i :: 0 <= i < |ds| && ds[i].neighbors != [] && (ds[i].name == v || v in ds[i].neighbors) {
        var i :| 0 <= i < |ds| && ds[i].neighbors != [] && (ds[i].name == v || v in ds[i].neighbors);
        if i < |init| { assert init[i] == ds[i]; }
      }
    }
  }

  /** Every edge joins two vertices, so each `addEdge` the builder makes is legal. */
  lemma EdgesJoinVertices(ds: seq<Declared>, a: string, b: string)
    requires (a, b) in Edges(ds)
    ensures a in Vertices(ds) && b in Vertices(ds)
  {
    EdgeIff(ds, a, b);
    var i :| 0 <= i < |ds| && ds[i].name == a && b in ds[i].neighbors;
    VertexIff(ds, a);
    VertexIff(ds, b);
  }

  /** A device that declares no neighbours and is nobody's neighbour is not in the graph. */
  lemma IsolatedDeviceHasNoVertex(ds: seq<Declared>, v: string)
    requires forall i :: 0 <= i < |ds| && ds[i].name == v ==> ds[i].neighbors == []
    requires forall i :: 0 <= i < |ds| ==> v !in ds[i].neighbors
    ensures v !in Vertices(ds)
  {
    VertexIff(ds, v);
  }

  /** Edges follow declarations only: declaring b as a's neighbour gives a -> b but not b -> a. */
  lemma EdgesAreNotSymmetrised()
    ensures ("a", "b") in Edges([Declared("a", ["b"]), Declared("b", [])])
    ensures ("b", "a") !in Edges([Declared("a", ["b"]), Declared("b", [])])
    ensures "b" in Vertices([Declared("a", ["b"]), Declared("b", [])])
    ensures "c" !in Vertices([Declared("a", ["b"]), Declared("c", [])])
  {
    var ds := [Declared("a", ["b"]), Declared("b", [])];
    EdgeIff(ds, "a", "b");
    EdgeIff(ds, "b", "a");
    VertexIff(ds, "b");
    IsolatedDeviceHasNoVertex([Declared("a", ["b"]), Declared("c", [])], "c");
  }

  lemma NeighbourStep(name: string, ns: seq<string>, j: int)
    requires 0 <= j < |ns|
    ensures NeighbourEdges(name, ns[..j + 1]) == NeighbourEdges(name, ns[..j]) + {(name, ns[j])}
    ensures NeighbourVertices(name, ns[..j + 1]) == NeighbourVertices(name, ns[..j]) + {name, ns[j]}
  {
    assert ns[..j + 1] == ns[..j] + [ns[j]];
  }

  lemma DeclaredStep(ds: seq<Declared>, i: int)
    requires 0 <= i < |ds|
    ensures Edges(ds[..i + 1]) == Edges(ds[..i]) + NeighbourEdges(ds[i].name, ds[i].neighbors)
    ensures Vertices(ds[..i + 1]) == Vertices(ds[..i]) + NeighbourVertices(ds[i].name, ds[i].neighbors)
  {
    assert ds[..i + 1][..i] == ds[..i];
  }

  /**
   * `buildTopologyAnalyzer`: a fresh graph whose edges are the declared
   * device -> neighbour links and whose vertices are the ends of those links.
   */
  method BuildTopologyAnalyzer(devices: seq<FogDevice>) returns (analyzer: TopologyAnalyzer)
    ensures fresh(analyzer) && analyzer.Valid()
    ensures analyzer.vertices == Vertices(DeclaredOf(devices))
    ensures analyzer.edges == Edges(DeclaredOf(devices))
  {
    analyzer := new TopologyAnalyzer();
    ghost var ds := DeclaredOf(devices);
    for i := 0 to |devices|
      invariant analyzer.Valid()
      invariant analyzer.vertices == Vertices(ds[..i]) && analyzer.edges == Edges(ds[..i])
    {
      var device := devices[i];
      var ns := device.neighbors;
      for j := 0 to |ns|
        invariant analyzer.Valid()
        invariant analyzer.vertices == Vertices(ds[..i]) + NeighbourVertices(device.name, ns[..j])
        invariant analyzer.edges == Edges(ds[..i]) + NeighbourEdges(device.name, ns[..j])
      {
        NeighbourStep(device.name, ns, j);
        analyzer.AddVertex(device.name);
        analyzer.AddVertex(ns[j]);
        analyzer.AddEdge(device.name, ns[j]);
      }
      assert ns[..|ns|] == ns;
      DeclaredStep(ds, i);
    }
    assert ds[..|devices|] == ds;
  }

  // ---------------------------------------------------------------------
  // setRoutingTableOfFogDevices

  /** The routes the post-processor gives a device: one per declared neighbour, hop from the table or null. */
  function NeighbourRoutes(name: string, ns: seq<string>, table: map<(string, string), string>): map<string, Option<string>>
  {
    map n | n in ns :: TableHop(table, name, n)
  }

  /** Only neighbours get a route, and a neighbour's hop is the table's entry for the pair. */
  lemma NeighbourRoutesIff(name: string, ns: seq<string>, table: map<(string, string), string>, dst: string)
    ensures dst in NeighbourRoutes(name, ns, table) <==> dst in ns
    ensures HopIn(NeighbourRoutes(name, ns, table), dst) == if dst in ns then TableHop(table, name, dst) else None
  {
  }

  lemma NeighbourRoutesStep(name: string, ns: seq<string>, j: int, table: map<(string, string), string>, start: map<string, Option<string>>)
    requires 0 <= j < |ns|
    ensures start + NeighbourRoutes(name, ns[..j + 1], table)
         == (start + NeighbourRoutes(name, ns[..j], table))[ns[j] := TableHop(table, name, ns[j])]
  {
    assert ns[..j + 1] == ns[..j] + [ns[j]];
  }

  /** Installing the same routes twice is installing them once. */
  lemma UnionAgain(m: map<string, Option<string>>, r: map<string, Option<string>>)
    ensures (m + r) + r == m + r
  {
  }

  /**
   * `setRoutingTableOfFogDevices` as written: each device gets a route to
   * each declared neighbour only, whose hop is the table's entry for the
   * pair or null; routes to other destinations are left as they were.
   */
  method SetRoutingTableOfFogDevices(devices: seq<FogDevice>, table: map<(string, string), string>)
    modifies set i | 0 <= i < |devices| :: devices[i]
    ensures forall i :: 0 <= i < |devices| ==>
      devices[i].routingTable == old(devices[i].routingTable) + NeighbourRoutes(devices[i].name, devices[i].neighbors, table)
  {
    for i := 0 to |devices|
      invariant forall k :: 0 <= k < |devices| ==>
        devices[k].routingTable == if devices[k] in devices[..i]
          then old(devices[k].routingTable) + NeighbourRoutes(devices[k].name, devices[k].neighbors, table)
          else old(devices[k].routingTable)
    {
      var device := devices[i];
      ghost var start := device.routingTable;
      var ns := device.neighbors;
      for j := 0 to |ns|
        modifies device
        invariant device.routingTable == start + NeighbourRoutes(device.name, ns[..j], table)
      {
        NeighbourRoutesStep(device.name, ns, j, table, start);
        var hop := TableHop(table, device.name, ns[j]);
        device.AddRoute(ns[j], hop);
      }
      assert ns[..|ns|] == ns;
      UnionAgain(old(device.routingTable), NeighbourRoutes(device.name, ns, table));
      assert devices[..i + 1] == devices[..i] + [device];
    }
    assert devices[..|devices|] == devices;
  }

  /** The routes a device needs for every destination the table knows from it. */
  function AllRoutes(name: string, table: map<(string, string), string>): map<string, Option<string>>
  {
    map k | k in table && k.0 == name :: k.1 := Some(table[k])
  }

  /**
   * The corrected installer: each device gets a route to every destination
   * the table has an entry for from that device, so `nextHop` agrees with
   * the table beyond the neighbours.
   */
  method InstallAllRoutes(devices: seq<FogDevice>, table: map<(string, string), string>)
    modifies set i | 0 <= i < |devices| :: devices[i]
    ensures forall i :: 0 <= i < |devices| ==>
      devices[i].routingTable == old(devices[i].routingTable) + AllRoutes(devices[i].name, table)
  {
    for i := 0 to |devices|
      invariant forall k :: 0 <= k < |devices| ==>
        devices[k].routingTable == if devices[k] in devices[..i]
          then old(devices[k].routingTable) + AllRoutes(devices[k].name, table)
          else old(devices[k].routingTable)
    {
      var device := devices[i];
      device.AddRoutes(AllRoutes(device.name, table));
      UnionAgain(old(device.routingTable), AllRoutes(device.name, table));
      assert devices[..i + 1] == devices[..i] + [device];
    }
  }

  /** After the corrected installer, a device's next hop to any destination is the table's first hop. */
  lemma AllRoutesFollowTable(before: map<string, Option<string>>, name: string, table: map<(string, string), string>, dst: string)
    requires before == map[] || (name, dst) in table
    ensures HopIn(before + AllRoutes(name, table), dst) == TableHop(table, name, dst)
  {
  }

  /** On neighbours the corrected installer gives the same hops as the one written. */
  lemma AllRoutesAgreeOnNeighbours(name: string, ns: seq<string>, table: map<(string, string), string>, dst: string)
    requires dst in ns
    ensures HopIn(AllRoutes(name, table), dst) == HopIn(NeighbourRoutes(name, ns, table), dst)
  {
  }

  /** The first hops the shortest paths give on the links a -> b, a -> c, b -> c, c -> d. */
  function ChainTable(): map<(string, string), string>
  {
    map[("device_a", "device_b") := "device_b", ("device_a", "device_c") := "device_c",
        ("device_a", "device_d") := "device_c", ("device_b", "device_c") := "device_c",
        ("device_b", "device_d") := "device_c", ("device_c", "device_d") := "device_d"]
  }

  /**
   * As written, a device with neighbours b and c gets no route to d,
   * although the table's first hop from a to d is c.
   */
  lemma NeighbourRoutesMissMultiHop()
    ensures TableHop(ChainTable(), "device_a", "device_d") == Some("device_c")
    ensures HopIn(NeighbourRoutes("device_a", ["device_b", "device_c"], ChainTable()), "device_d") == None
    ensures HopIn(AllRoutes("device_a", ChainTable()), "device_d") == Some("device_c")
  {
    NeighbourRoutesIff("device_a", ["device_b", "device_c"], ChainTable(), "device_d");
    AllRoutesFollowTable(map[], "device_a", ChainTable(), "device_d");
  }
}
