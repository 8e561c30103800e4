/** The dummy network plugin as an object: each operation reads records from the node-local
    store, changes them and writes them back, and is proved to have the effect Network gives it and
    to keep the resource graph well formed. */
module NetworkPlugin {
  import opened Model
  import opened Network

  class DummyNetwork {
    var namespaces: map<Uuid, NetworkNamespace>
    var interfaces: map<Uuid, VirtualInterface>
    var connectionPoints: map<Uuid, ConnectionPoint>
    /** Every UUID that was drawn so far. */
    ghost var issued: set<Uuid>

    /** What every operation keeps: pairs are mutual, lists cover the back-pointers, and nothing names
        a UUID that was not drawn. */
    ghost predicate Valid()
      reads this
    {
      Wellformed(Store(), issued)
    }

    function Store(): Net
      reads this
    {
      Net(namespaces, interfaces, connectionPoints)
    }

    constructor ()
      ensures Valid() && Store() == EMPTY_NET && issued == {}
    {
      namespaces, interfaces, connectionPoints, issued := map[], map[], map[], {};
    }

    method CreateConnectionPoint(d: CpDraw) returns (r: Result<ConnectionPoint>)
      requires Valid() && Fresh(CpDrawIds(d), issued)
      modifies this
      ensures Valid() && issued == Issue(old(issued), CpDrawIds(d))
      ensures (Store(), r) == Network.CreateConnectionPoint(old(Store()), d)
    {
      KeepsCreateConnectionPoint(Store(), d, issued);
      issued := Issue(issued, CpDrawIds(d));
      if d.cp in connectionPoints {
        return Err(AlreadyPresent);
      }
      var cp := ConnectionPoint(d.cp, d.netNs, d.bridge, d.internalVeth, d.externalVeth);
      connectionPoints := connectionPoints[d.cp := cp];
      r := Ok(cp);
    }

    method DeleteConnectionPoint(u: Uuid) returns (r: Result<Uuid>)
      requires Valid()
      modifies this
      ensures Valid() && issued == old(issued)
      ensures (Store(), r) == Network.DeleteConnectionPoint(old(Store()), u)
    {
      KeepsDeleteConnectionPoint(Store(), u, issued);
      if u !in connectionPoints {
        return Err(NotFound);
      }
      connectionPoints := connectionPoints - {u};
      r := Ok(u);
    }

    method CreateNetworkNamespace(u: Uuid) returns (r: Result<NetworkNamespace>)
      requires Valid() && Fresh([u], issued)
      modifies this
      ensures Valid() && issued == Issue(old(issued), [u])
      ensures (Store(), r) == Network.CreateNamespace(old(Store()), u)
    {
      KeepsCreateNamespace(Store(), u, issued);
      issued := Issue(issued, [u]);
      var ns := NetworkNamespace(u, []);
      namespaces := namespaces[u := ns];
      r := Ok(ns);
    }

    method DeleteNetworkNamespace(u: Uuid) returns (r: Result<NetworkNamespace>)
      requires Valid()
      modifies this
      ensures Valid() && issued == old(issued)
      ensures (Store(), r) == Network.DeleteNamespace(old(Store()), u)
    {
      KeepsDeleteNamespace(Store(), u, issued);
      if u !in namespaces {
        return Err(NotFound);
      }
      r := Ok(namespaces[u]);
      namespaces := namespaces - {u};
    }

    method CreateVirtualInterface(name: string, kind: ConfigKind, d: VethDraw) returns (r: Result<VirtualInterface>)
      requires Valid() && Fresh([d.internal, d.external], issued)
      modifies this
      ensures Valid() && issued == Issue(old(issued), [d.internal, d.external])
      ensures (Store(), r) == Network.CreateVirtualInterface(old(Store()), name, kind, d)
    {
      KeepsCreateInterface(Store(), name, kind, d, issued);
      issued := Issue(issued, [d.internal, d.external]);
      var v := FirstInterface(name, kind, d, None);
      interfaces := interfaces[v.uuid := v];
      if kind.VethConfig? {
        var w := ExternalEnd(d, None);
        interfaces := interfaces[w.uuid := w];
      }
      r := Ok(v);
    }

    method CreateVirtualInterfaceInNamespace(name: string, kind: ConfigKind, nsUuid: Uuid, d: VethDraw)
      returns (r: Result<VirtualInterface>)
      requires Valid() && Fresh([d.internal, d.external], issued)
      modifies this
      ensures Valid() && issued == Issue(old(issued), [d.internal, d.external])
      ensures (Store(), r) == Network.CreateVirtualInterfaceInNamespace(old(Store()), name, kind, nsUuid, d)
    {
      KeepsCreateInterfaceIn(Store(), name, kind, nsUuid, d, issued);
      issued := Issue(issued, [d.internal, d.external]);
      if nsUuid !in namespaces {
        return Err(NotFound);
      }
      var ns := namespaces[nsUuid];
      var v := FirstInterface(name, kind, d, Some(ns.uuid));
      ghost var created := if kind.VethConfig? then [d.internal, d.external] else [d.internal];
      ghost var before := ns.interfaces;
      ns := ns.(interfaces := ns.interfaces + [d.internal]);
      if kind.VethConfig? {
        ns := ns.(interfaces := ns.interfaces + [d.external]);
      }
      assert ns.interfaces == before + created;
      namespaces := namespaces[ns.uuid := ns];
      interfaces := interfaces[v.uuid := v];
      if kind.VethConfig? {
        var w := ExternalEnd(d, Some(ns.uuid));
        interfaces := interfaces[w.uuid := w];
      }
      r := Ok(v);
    }

    method DeleteVirtualInterface(u: Uuid) returns (r: Result<VirtualInterface>)
      requires Valid()
      modifies this
      ensures Valid() && issued == old(issued)
      ensures (Store(), r) == Network.DeleteVirtualInterface(old(Store()), u)
    {
      KeepsDeleteInterface(Store(), u, issued);
      if u !in interfaces {
        return Err(NotFound);
      }
      var v := interfaces[u];
      if v.kind.VETH? {
        interfaces := interfaces - {v.kind.pair};
      }
      interfaces := interfaces - {u};
      r := Ok(v);
    }

    method DeleteVirtualInterfaceInNamespace(u: Uuid, nsUuid: Uuid) returns (r: Result<VirtualInterface>)
      requires Valid()
      modifies this
      ensures Valid() && issued == old(issued)
      ensures (Store(), r) == Network.DeleteVirtualInterfaceInNamespace(old(Store()), u, nsUuid)
    {
      KeepsDeleteInterfaceIn(Store(), u, nsUuid, issued);
      if nsUuid !in namespaces || u !in interfaces {
        return Err(NotFound);
      }
      var ns, v := namespaces[nsUuid], interfaces[u];
      if v.netNs != Some(ns.uuid) || v.uuid !in ns.interfaces {
        return Err(NotConnected);
      }
      ns := ns.(interfaces := RemoveFirst(ns.interfaces, v.uuid));
      if v.kind.VETH? {
        interfaces := interfaces - {v.kind.pair};
      }
      namespaces := namespaces[ns.uuid := ns];
      interfaces := interfaces - {u};
      r := Ok(v);
    }

    method CreateVirtualBridge(name: string, u: Uuid) returns (r: Result<VirtualInterface>)
      requires Valid() && Fresh([u], issued)
      modifies this
      ensures Valid() && issued == Issue(old(issued), [u])
      ensures (Store(), r) == Network.CreateVirtualBridge(old(Store()), name, u)
    {
      KeepsCreateSingle(Store(), name, BRIDGE([]), u, issued);
      issued := Issue(issued, [u]);
      var v := VirtualInterface(u, name, None, BRIDGE([]), None);
      interfaces := interfaces[u := v];
      r := Ok(v);
    }

    method DeleteVirtualBridge(global: map<Uuid, VirtualInterface>, u: Uuid) returns (r: Result<VirtualInterface>)
      requires Valid()
      modifies this
      ensures issued == old(issued)
      ensures Valid()
        <==> !(u in global && global[u].kind.BRIDGE? && u in old(interfaces) && old(interfaces)[u].kind.VETH?)
      ensures (Store(), r) == Network.DeleteVirtualBridge(old(Store()), global, u)
    {
      BridgeDeletionKeepsPairingIff(Store(), global, u, issued);
      if u !in global {
        return Err(NotFound);
      }
      if !global[u].kind.BRIDGE? {
        return Err(WrongKind);
      }
      interfaces := interfaces - {u};
      r := Ok(global[u]);
    }

    method CreateMacvlanInterface(name: string, u: Uuid) returns (r: Result<VirtualInterface>)
      requires Valid() && Fresh([u], issued)
      modifies this
      ensures Valid() && issued == Issue(old(issued), [u])
      ensures (Store(), r) == Network.CreateMacvlanInterface(old(Store()), name, u)
    {
      KeepsCreateSingle(Store(), name, MACVLAN, u, issued);
      issued := Issue(issued, [u]);
      var v := VirtualInterface(u, name, None, MACVLAN, None);
      interfaces := interfaces[u := v];
      r := Ok(v);
    }

    method DeleteMacvlanInterface(u: Uuid) returns (r: Result<VirtualInterface>)
      requires Valid()
      modifies this
      ensures Valid() && issued == old(issued)
      ensures (Store(), r) == Network.DeleteMacvlanInterface(old(Store()), u)
    {
      KeepsDeleteMacvlan(Store(), u, issued);
      if u !in interfaces {
        return Err(NotFound);
      }
      var v := interfaces[u];
      if !v.kind.MACVLAN? {
        return Err(WrongKind);
      }
      interfaces := interfaces - {u};
      r := Ok(v);
    }

    method BindInterfaceToConnectionPoint(u: Uuid, cp: Uuid) returns (r: Result<VirtualInterface>)
      requires Valid()
      modifies this
      ensures Valid() && issued == old(issued)
      ensures (Store(), r) == Network.BindInterface(old(Store()), u, cp)
    {
      KeepsBinding(Store(), u, cp, "", issued);
      if cp !in connectionPoints || u !in interfaces {
        return Err(NotFound);
      }
      var v := interfaces[u];
      v := v.(netNs := Some(connectionPoints[cp].netNs));
      interfaces := interfaces[v.uuid := v];
      r := Ok(v);
    }

    method UnbindInterfaceFromConnectionPoint(u: Uuid, cp: Uuid) returns (r: Result<VirtualInterface>)
      requires Valid()
      modifies this
      ensures Valid() && issued == old(issued)
      ensures (Store(), r) == Network.UnbindInterface(old(Store()), u, cp)
    {
      KeepsBinding(Store(), u, cp, "", issued);
      if cp !in connectionPoints || u !in interfaces {
        return Err(NotFound);
      }
      var v := interfaces[u];
      if v.netNs.Some? && v.netNs.value == connectionPoints[cp].netNs {
        v := v.(netNs := None);
        interfaces := interfaces[v.uuid := v];
        return Ok(v);
      }
      r := Err(NotConnected);
    }

    method MoveInterfaceIntoNamespace(u: Uuid, nsUuid: Uuid) returns (r: Result<VirtualInterface>)
      requires Valid()
      modifies this
      ensures Valid() && issued == old(issued)
      ensures (Store(), r) == Network.MoveInterfaceIntoNamespace(old(Store()), u, nsUuid)
    {
      KeepsMoves(Store(), u, nsUuid, issued);
      if u !in interfaces || nsUuid !in namespaces {
        return Err(NotFound);
      }
      var v, ns := interfaces[u], namespaces[nsUuid];
      v := v.(netNs := Some(ns.uuid));
      ns := ns.(interfaces := ns.interfaces + [v.uuid]);
      interfaces := interfaces[v.uuid := v];
      namespaces := namespaces[ns.uuid := ns];
      r := Ok(v);
    }

    method MoveInterfaceIntoDefaultNamespace(u: Uuid) returns (r: Result<VirtualInterface>)
      requires Valid()
      modifies this
      ensures Valid() && issued == old(issued)
      ensures (Store(), r) == Network.MoveInterfaceIntoDefaultNamespace(old(Store()), u)
    {
      KeepsMoves(Store(), u, u, issued);
      if u !in interfaces {
        return Err(NotFound);
      }
      var v := interfaces[u];
      if v.netNs.None? {
        return Ok(v);
      }
      var nsUuid := v.netNs.value;
      v := v.(netNs := None);
      interfaces := interfaces[v.uuid := v];
      if nsUuid !in namespaces {
        return Err(NotFound);
      }
      var ns := namespaces[nsUuid];
      if v.uuid !in ns.interfaces {
        return Err(NotConnected);
      }
      ns := ns.(interfaces := RemoveFirst(ns.interfaces, v.uuid));
      namespaces := namespaces[ns.uuid := ns];
      r := Ok(v);
    }

    method RenameVirtualInterface(u: Uuid, name: string) returns (r: Result<VirtualInterface>)
      requires Valid()
      modifies this
      ensures Valid() && issued == old(issued)
      ensures (Store(), r) == Network.RenameVirtualInterface(old(Store()), u, name)
    {
      KeepsBinding(Store(), u, u, name, issued);
      if u !in interfaces {
        return Err(NotFound);
      }
      var v := interfaces[u].(ifName := name);
      interfaces := interfaces[v.uuid := v];
      r := Ok(v);
    }

    method AttachInterfaceToBridge(u: Uuid, br: Uuid) returns (r: Result<VirtualInterface>)
      requires Valid()
      modifies this
      ensures Valid() && issued == old(issued)
      ensures (Store(), r) == Network.AttachInterface(old(Store()), u, br)
    {
      KeepsAttach(Store(), u, br, issued);
      if u !in interfaces || br !in interfaces {
        return Err(NotFound);
      }
      var v, bridge := interfaces[u], interfaces[br];
      if !bridge.kind.BRIDGE? {
        return Err(WrongKind);
      }
      v := v.(parent := Some(bridge.uuid));
      var newBridge := interfaces[br].(kind := BRIDGE(bridge.kind.childs + [v.uuid]));
      interfaces := interfaces[v.uuid := v];
      interfaces := interfaces[newBridge.uuid := newBridge];
      r := Ok(v);
    }

    method DetachInterfaceFromBridge(u: Uuid) returns (r: Result<VirtualInterface>)
      requires Valid()
      modifies this
      ensures Valid() && issued == old(issued)
      ensures (Store(), r) == Network.DetachInterface(old(Store()), u)
    {
      KeepsDetach(Store(), u, issued);
      if u !in interfaces {
        return Err(NotFound);
      }
      var v := interfaces[u];
      if v.parent.None? {
        return Err(NotConnected);
      }
      if v.parent.value !in interfaces {
        return Err(NotFound);
      }
      var bridge := interfaces[v.parent.value];
      if !bridge.kind.BRIDGE? {
        return Err(WrongKind);
      }
      if v.uuid !in bridge.kind.childs {
        return Err(NotConnected);
      }
      var newBridge := bridge.(kind := BRIDGE(RemoveFirst(bridge.kind.childs, v.uuid)));
      v := v.(parent := None);
      interfaces := interfaces[v.uuid := v];
      interfaces := interfaces[newBridge.uuid := newBridge];
      r := Ok(v);
    }
  }
}
