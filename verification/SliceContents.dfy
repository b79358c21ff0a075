// What the records and ports that the planner writes into slices say.
module SliceContents {
  import opened Common
  import opened Model
  import opened Ports
  import opened SliceSpec
  import opened SliceInvariant
  import opened SliceRounds

  // The record presents the desired endpoint, on behalf of the service.
  ghost predicate Presents(record: SliceEndpoint, e: Endpoint, svc: ServiceRef) {
    && record.address == e.ip && record.moreAddresses == [] && record.ready == Some(e.ready)
    && (if e.hostname == "" then record.hostname == None else record.hostname == Some(e.hostname))
    && (if e.nodename == "" then record.nodeName == None else record.nodeName == Some(e.nodename))
    && record.targetRef.Some?
    && var ref := record.targetRef.value;
    && ref.kind == "Service" && ref.namespace_ == svc.namespace_ && ref.name == svc.name
    && ref.uid == svc.uid && ref.resourceVersion == svc.resourceVersion
  }

  // A slice carries these ports, by name, protocol and number.
  ghost predicate Carries(written: seq<EndpointPort>, ports: seq<Port>) {
    && |written| == |ports|
    && forall i :: 0 <= i < |ports| ==>
         written[i].name == ports[i].name && written[i].protocol == ports[i].protocol && written[i].port == ports[i].port
  }

  // A record was in the old slice, or presents the desired endpoint of its address.
  ghost predicate KeptOrPresents(cfg: Config, was: seq<SliceEndpoint>, record: SliceEndpoint) {
    record in was || (record.address in cfg.want && Presents(record, cfg.want[record.address], cfg.service))
  }

  // Updated slices only gain records of desired endpoints, created ones hold nothing else, and ports are written whole.
  lemma WrittenAsDesired(cfg: Config, cur: seq<SliceVal>, chunks: seq<seq<string>>)
    requires ValidConfig(cfg) && IsRun(cfg, cur, chunks)
    ensures var st := Run(cfg, cur, chunks);
            && (forall t, record :: t in st.update && record in t.slice.endpoints ==>
                  t.origin < |cur| && KeptOrPresents(cfg, cur[t.origin].endpoints, record))
            && (forall v, record :: v in st.create && record in v.endpoints ==> KeptOrPresents(cfg, [], record))
            && (forall t :: t in st.update ==> PortsKeptOrWritten(cfg, cur, t))
            && (forall v :: v in st.create ==> Carries(v.ports, cfg.ports))
  {
    var st := Run(cfg, cur, chunks);
    RunSound(cfg, cur, chunks);
    RunPorts(cfg, cur, chunks);
    forall t, record | t in st.update && record in t.slice.endpoints
      ensures KeptOrPresents(cfg, cur[t.origin].endpoints, record)
    {
      assert GoodUpdate(cfg, cur, t);
      var i :| 0 <= i < |t.slice.endpoints| && t.slice.endpoints[i] == record;
      var kept := KeptAt(cfg, cur, t.origin);
      if i < |kept| {
        assert record == kept[i];
        KeptIn(cur[t.origin].endpoints, cfg.want.Keys - AllAddresses(cur[..t.origin]), record);
      } else {
        RecordPresents(cfg, record);
      }
    }
    forall v, record | v in st.create && record in v.endpoints ensures KeptOrPresents(cfg, [], record) {
      assert GoodCreate(cfg, v);
      RecordPresents(cfg, record);
    }
  }

  lemma RecordPresents(cfg: Config, record: SliceEndpoint)
    requires ValidConfig(cfg) && IsRecord(cfg, record)
    ensures Presents(record, cfg.want[record.address], cfg.service)
  {
  }

  lemma {:induction false} KeptIn(es: seq<SliceEndpoint>, wanted: set<string>, record: SliceEndpoint)
    requires record in Kept(es, wanted)
    ensures record in es
  {
    var init, last := es[..|es| - 1], es[|es| - 1];
    if record != last {
      KeptIn(init, wanted, record);
    }
  }

  // ---- Ports ----

  ghost predicate PortsKeptOrWritten(cfg: Config, cur: seq<SliceVal>, t: Tracked) {
    t.origin < |cur| && (t.slice.ports == cur[t.origin].ports || Carries(t.slice.ports, cfg.ports))
  }

  ghost predicate PortsFrom(cfg: Config, cur: seq<SliceVal>, st: PlanState) {
    && (forall t :: t in st.update || t in st.delete || t in st.unmodified ==> PortsKeptOrWritten(cfg, cur, t))
    && (forall v :: v in st.create ==> Carries(v.ports, cfg.ports))
  }

  lemma {:induction false} TrimPorts(cfg: Config, cur: seq<SliceVal>)
    ensures PortsFrom(cfg, cur, Trim(cfg, cur))
  {
    if cur != [] {
      var n := |cur| - 1;
      var st := Trim(cfg, cur[..n]);
      TrimPorts(cfg, cur[..n]);
      forall t | PortsKeptOrWritten(cfg, cur[..n], t) ensures PortsKeptOrWritten(cfg, cur, t) {
        assert cur[..n][t.origin] == cur[t.origin];
      }
      TrimOnePorts(cfg, cur, st);
    }
  }

  lemma TrimOnePorts(cfg: Config, cur: seq<SliceVal>, st: PlanState)
    requires cur != [] && PortsFrom(cfg, cur, st)
    ensures PortsFrom(cfg, cur, TrimOne(cfg, st, |cur| - 1, cur[|cur| - 1]))
  {
    var n, v := |cur| - 1, cur[|cur| - 1];
    var kept := Kept(v.endpoints, st.todo);
    if kept == [] {
      assert PortsKeptOrWritten(cfg, cur, Tracked(n, v));
    } else if PortsMatch(cfg, v) && |kept| == |v.endpoints| {
      assert PortsKeptOrWritten(cfg, cur, Tracked(n, v));
    } else {
      WrittenCarries(cfg.ports);
      assert PortsKeptOrWritten(cfg, cur, Tracked(n, SliceVal(kept, if PortsMatch(cfg, v) then v.ports else ToEndpointPorts(cfg.ports))));
    }
  }

  lemma WrittenCarries(ports: seq<Port>)
    ensures Carries(ToEndpointPorts(ports), ports)
  {
  }

  lemma StepPorts(cfg: Config, cur: seq<SliceVal>, st: PlanState, chunk: seq<string>)
    requires PortsFrom(cfg, cur, st) && IsChunk(cfg, st, chunk)
    ensures PortsFrom(cfg, cur, Step(cfg, st, chunk))
  {
    OpenKeepsOthers(cfg, st);
    OpenTargetPorts(cfg, cur, st);
    WrittenCarries(cfg.ports);
  }

  // The slice that is opened has the ports it had, and a new one gets its ports written.
  lemma OpenTargetPorts(cfg: Config, cur: seq<SliceVal>, st: PlanState)
    requires PortsFrom(cfg, cur, st)
    ensures var o := Open(cfg, st);
            if o.target.InUpdate? then PortsKeptOrWritten(cfg, cur, o.st.update[o.target.index]) else o.needsPortUpdate
  {
    var u, n := FirstShort(st.update, cfg.max - 1), FirstShort(st.unmodified, cfg.max - |st.todo|);
    OpenIs(cfg, st, u, n);
    if u < |st.update| {
      assert st.update[u] in st.update;
    } else if st.delete != [] {
      assert st.delete[0] in st.delete;
    } else if n < |st.unmodified| {
      assert st.unmodified[n] in st.unmodified;
    }
  }

  lemma {:induction false} RunPorts(cfg: Config, cur: seq<SliceVal>, chunks: seq<seq<string>>)
    requires IsRun(cfg, cur, chunks)
    ensures PortsFrom(cfg, cur, Run(cfg, cur, chunks))
  {
    if chunks == [] {
      TrimPorts(cfg, cur);
    } else {
      RunPorts(cfg, cur, chunks[..|chunks| - 1]);
      StepPorts(cfg, cur, Run(cfg, cur, chunks[..|chunks| - 1]), chunks[|chunks| - 1]);
    }
  }
}
