/** The `CloudStack` class of the `cluster_cloudstack` package: the same
    machine, network, template and offering listings as the command line,
    issued through the connector's `listX()` calls. Its machine records have
    no offering field, and its machine reply is read without a wrapper key. */
module CloudStackClient {
  import opened Api
  import opened Seqs
  import opened Listing

  /** The flat record `get_machines_data` builds for a machine. */
  datatype Machine = Machine(name: Value, id: Value, ipaddress: Value, zonename: Value)

  /** `machine_data.values()`. */
  function MachineValues(m: Machine): seq<Value>
  {
    [m.name, m.id, m.ipaddress, m.zonename]
  }

  function ProjectMachine(vm: RawVm): Machine
    requires vm.nic != []
  {
    Machine(vm.displayname, vm.id, vm.nic[0].ipaddress, vm.zonename)
  }

  /** One record per machine, in reply order, the address from the first NIC. */
  function ProjectMachines(vms: seq<RawVm>): (ms: seq<Machine>)
    requires AllHaveNic(vms)
    ensures |ms| == |vms|
    ensures forall i :: 0 <= i < |vms| ==>
              && ms[i].name == vms[i].displayname
              && ms[i].id == vms[i].id
              && ms[i].ipaddress == vms[i].nic[0].ipaddress
              && ms[i].zonename == vms[i].zonename
  {
    if vms == [] then []
    else
      assert forall vm :: vm in vms[..|vms| - 1] ==> vm in vms;
      ProjectMachines(vms[..|vms| - 1]) + [ProjectMachine(vms[|vms| - 1])]
  }

  /** What `get_machines_data(search)` returns for the reply of
      `listVirtualMachines()`, whose `virtualmachine` key is looked up at the
      top level: a missing list yields [], a machine without NIC raises
      IndexError, and otherwise the search rule applies. */
  function MachinesData(reply: Body<RawVm>, search: Value): Result<seq<Machine>>
  {
    if VmsKey !in reply then Ok([])
    else
      var vms := reply[VmsKey];
      if !AllHaveNic(vms) then Err(IndexError)
      else Ok(SearchResult(ProjectMachines(vms), MachineValues, search))
  }

  /** `get_machines_data`: the loop appending every record to `machines` and
      the matching ones to `search_result`. warned is the "Empty virtual
      machines list" message. */
  method GetMachinesData(listVirtualMachines: BodyCall<RawVm>, search: Value)
    returns (r: Result<seq<Machine>>, warned: bool)
    ensures r == MachinesData(listVirtualMachines(VmsRequest), search)
    ensures warned <==> VmsKey !in listVirtualMachines(VmsRequest)
    ensures warned ==> r == Ok([])
  {
    var reply := listVirtualMachines(VmsRequest);
    if VmsKey !in reply {
      return Ok([]), true;
    }
    var vms: seq<RawVm> := reply[VmsKey];
    var machines: seq<Machine> := [];
    var found: seq<Machine> := [];
    var i := 0;
    while i < |vms|
      invariant 0 <= i <= |vms|
      invariant AllHaveNic(vms[..i])
      invariant machines == ProjectMachines(vms[..i])
      invariant found == Filter(machines, HasValue(MachineValues, search))
    {
      var vm: RawVm := vms[i];
      if vm.nic == [] {
        assert vm in vms;
        return Err(IndexError), false;
      }
      var m := Machine(vm.displayname, vm.id, vm.nic[0].ipaddress, vm.zonename);
      ProjectMachinesStep(vms, i);
      FilterSnoc(machines, m, HasValue(MachineValues, search));
      machines := machines + [m];
      if search in MachineValues(m) {
        found := found + [m];
      }
      i := i + 1;
    }
    assert vms[..i] == vms;
    warned := false;
    if found != [] || search.Str? {
      r := Ok(found);
    } else {
      r := Ok(machines);
    }
  }

  /** One more machine projected by the loop. */
  lemma ProjectMachinesStep(vms: seq<RawVm>, i: nat)
    requires i < |vms| && AllHaveNic(vms[..i]) && vms[i].nic != []
    ensures AllHaveNic(vms[..i + 1])
    ensures ProjectMachines(vms[..i + 1]) == ProjectMachines(vms[..i]) + [ProjectMachine(vms[i])]
  {
    assert vms[..i + 1] == vms[..i] + [vms[i]];
    assert vms[..i + 1][..i] == vms[..i];
  }

  /** With a search term the result is exactly the records, in order, having
      some field equal to the term, and it is empty exactly when no record
      has one. */
  lemma MachinesDataWithTerm(reply: Body<RawVm>, term: string)
    requires VmsKey in reply && AllHaveNic(reply[VmsKey])
    ensures var all := ProjectMachines(reply[VmsKey]);
            var r := MachinesData(reply, Str(term));
            && r.Ok?
            && Subseq(r.value, all)
            && (forall m :: m in r.value <==> m in all && Str(term) in MachineValues(m))
            && (forall m :: multiset(r.value)[m] == if Str(term) in MachineValues(m) then multiset(all)[m] else 0)
            && (r.value == [] <==> forall m :: m in all ==> Str(term) !in MachineValues(m))
  {
    SearchWithTerm(ProjectMachines(reply[VmsKey]), MachineValues, term);
  }

  /** Without a search term, and with no null field, every record is returned. */
  lemma MachinesDataWithoutTerm(reply: Body<RawVm>)
    requires VmsKey in reply && AllHaveNic(reply[VmsKey])
    requires forall m :: m in ProjectMachines(reply[VmsKey]) ==> Null !in MachineValues(m)
    ensures MachinesData(reply, Null) == Ok(ProjectMachines(reply[VmsKey]))
  {
    SearchWithoutTerm(ProjectMachines(reply[VmsKey]), MachineValues);
  }

  /** `list_networks`. */
  method ListNetworks(listNetworks: Call<RawNetwork>, name: Value) returns (r: Result<seq<Network>>, warned: bool)
    ensures r == NetworksOf(listNetworks(NetworksRequest), name)
    ensures warned <==> "listnetworksresponse" in listNetworks(NetworksRequest)
                        && "network" !in listNetworks(NetworksRequest)["listnetworksresponse"]
  {
    r, warned := CollectListing(listNetworks(NetworksRequest), "listnetworksresponse", "network",
                                ProjectNetwork, NetworkName, name);
  }

  /** `list_os_templates`: `listTemplates({'templatefilter': 'self'})`. */
  method ListOsTemplates(listTemplates: Call<RawTemplate>, name: Value) returns (r: Result<seq<Template>>, warned: bool)
    ensures r == TemplatesOf(listTemplates(TemplatesRequest), name)
    ensures warned <==> "listtemplatesresponse" in listTemplates(TemplatesRequest)
                        && "template" !in listTemplates(TemplatesRequest)["listtemplatesresponse"]
  {
    r, warned := CollectListing(listTemplates(TemplatesRequest), "listtemplatesresponse", "template",
                                ProjectTemplate, TemplateName, name);
  }

  /** `list_service_offering`. */
  method ListServiceOffering(listServiceOfferings: Call<RawServiceOffering>, name: Value)
    returns (r: Result<seq<ServiceOffering>>, warned: bool)
    ensures r == OfferingsOf(listServiceOfferings(OfferingsRequest), name)
    ensures warned <==> "listserviceofferingsresponse" in listServiceOfferings(OfferingsRequest)
                        && "serviceoffering" !in listServiceOfferings(OfferingsRequest)["listserviceofferingsresponse"]
  {
    r, warned := CollectListing(listServiceOfferings(OfferingsRequest), "listserviceofferingsresponse", "serviceoffering",
                                ProjectServiceOffering, OfferingName, name);
  }
}
