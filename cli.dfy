/** The command-line program: the machine, network, template and offering
    listings built on `make_request`, and the decision rules of the
    `get-machines-ips`, `generate-template` and `update-machine-userdata`
    commands and of the command dispatch. */
module Cli {
  import opened Api
  import opened Seqs
  import opened Listing
  import Requester

  /** What a command leaves behind: the lines it printed on stdout and the
      exception that ended it (SystemExit for `sys.exit`), if any. */
  datatype Outcome = Outcome(stdout: seq<string>, raised: Option<Error>)

  // ---------------------------------------------------------------------
  // Machines

  /** The flat record `_get_machines_data` builds for a machine. */
  datatype Machine = Machine(name: Value, id: Value, ipaddress: Value, zonename: Value, offering: Value)

  /** `machine_data.values()`. */
  function MachineValues(m: Machine): seq<Value>
  {
    [m.name, m.id, m.ipaddress, m.zonename, m.offering]
  }

  function ProjectMachine(vm: RawVm): Machine
    requires vm.nic != []
  {
    Machine(vm.displayname, vm.id, vm.nic[0].ipaddress, vm.zonename, vm.serviceofferingname)
  }

  /** One record per machine, in reply order, the address from the first NIC. */
  function ProjectMachines(vms: seq<RawVm>): (ms: seq<Machine>)
    requires AllHaveNic(vms)
    ensures |ms| == |vms|
    ensures forall i :: 0 <= i < |vms| ==>
              && ms[i].name == vms[i].displayname
              && ms[i].id == vms[i].id
              && ms[i].ipaddress == vms[i].nic[0].ipaddress
              && ms[i].zonename == vms[i].zonename
              && ms[i].offering == vms[i].serviceofferingname
  {
    if vms == [] then []
    else
      assert forall vm :: vm in vms[..|vms| - 1] ==> vm in vms;
      ProjectMachines(vms[..|vms| - 1]) + [ProjectMachine(vms[|vms| - 1])]
  }

  /** What `_get_machines_data(search)` returns for the listVirtualMachines
      reply env: the wrapper is indexed unguarded, a missing list yields [],
      a machine without NIC raises IndexError, and otherwise the search rule
      applies to the projected records. */
  function MachinesData(env: Envelope<RawVm>, search: Value): Result<seq<Machine>>
  {
    if VmsWrapper !in env then Err(KeyError(VmsWrapper))
    else if VmsKey !in env[VmsWrapper] then Ok([])
    else
      var vms := env[VmsWrapper][VmsKey];
      if !AllHaveNic(vms) then Err(IndexError)
      else Ok(SearchResult(ProjectMachines(vms), MachineValues, search))
  }

  /** `_get_machines_data`: the loop that appends every record to `machines`
      and the matching ones to `search_result`. warned is the "Empty virtual
      machines list" message. */
  method GetMachinesData(call: Call<RawVm>, search: Value) returns (r: Result<seq<Machine>>, warned: bool)
    ensures r == MachinesData(call(VmsRequest), search)
    ensures warned <==> VmsWrapper in call(VmsRequest) && VmsKey !in call(VmsRequest)[VmsWrapper]
    ensures warned ==> r == Ok([])
  {
    var reply := call(VmsRequest);
    if VmsWrapper !in reply {
      return Err(KeyError(VmsWrapper)), false;
    }
    var body := reply[VmsWrapper];
    if VmsKey !in body {
      return Ok([]), true;
    }
    var vms: seq<RawVm> := body[VmsKey];
    var machines: seq<Machine> := [];
    var found: seq<Machine> := [];
    var i := 0;
    while i < |vms|
      invariant 0 <= i <= |vms|
      invariant AllHaveNic(vms[..i])
      invariant machines == ProjectMachines(vms[..i])
      invariant found == Filter(machines, HasValue(MachineValues, search))
    {
      var vm: RawVm := vms[i];
      if vm.nic == [] {
        assert vm in vms;
        return Err(IndexError), false;
      }
      var m := Machine(vm.displayname, vm.id, vm.nic[0].ipaddress, vm.zonename, vm.serviceofferingname);
      ProjectMachinesStep(vms, i);
      FilterSnoc(machines, m, HasValue(MachineValues, search));
      machines := machines + [m];
      if search in MachineValues(m) {
        found := found + [m];
      }
      i := i + 1;
    }
    assert vms[..i] == vms;
    warned := false;
    if found != [] || search.Str? {
      r := Ok(found);
    } else {
      r := Ok(machines);
    }
  }

  /** One more machine projected by the loop. */
  lemma ProjectMachinesStep(vms: seq<RawVm>, i: nat)
    requires i < |vms| && AllHaveNic(vms[..i]) && vms[i].nic != []
    ensures AllHaveNic(vms[..i + 1])
    ensures ProjectMachines(vms[..i + 1]) == ProjectMachines(vms[..i]) + [ProjectMachine(vms[i])]
  {
    assert vms[..i + 1] == vms[..i] + [vms[i]];
    assert vms[..i + 1][..i] == vms[..i];
  }

  /** With a search term the result is exactly the records, in order, having
      some field equal to the term. */
  lemma MachinesDataWithTerm(env: Envelope<RawVm>, term: string)
    requires VmsWrapper in env && VmsKey in env[VmsWrapper] && AllHaveNic(env[VmsWrapper][VmsKey])
    ensures var all := ProjectMachines(env[VmsWrapper][VmsKey]);
            var r := MachinesData(env, Str(term));
            && r.Ok?
            && Subseq(r.value, all)
            && (forall m :: m in r.value <==> m in all && Str(term) in MachineValues(m))
            && (forall m :: multiset(r.value)[m] == if Str(term) in MachineValues(m) then multiset(all)[m] else 0)
            && (r.value == [] <==> forall m :: m in all ==> Str(term) !in MachineValues(m))
  {
    SearchWithTerm(ProjectMachines(env[VmsWrapper][VmsKey]), MachineValues, term);
  }

  /** Without a search term, and with no null field, every record is returned. */
  lemma MachinesDataWithoutTerm(env: Envelope<RawVm>)
    requires VmsWrapper in env && VmsKey in env[VmsWrapper] && AllHaveNic(env[VmsWrapper][VmsKey])
    requires forall m :: m in ProjectMachines(env[VmsWrapper][VmsKey]) ==> Null !in MachineValues(m)
    ensures MachinesData(env, Null) == Ok(ProjectMachines(env[VmsWrapper][VmsKey]))
  {
    SearchWithoutTerm(ProjectMachines(env[VmsWrapper][VmsKey]), MachineValues);
  }

  // ---------------------------------------------------------------------
  // Networks, templates, service offerings

  /** `_list_networks`. */
  method ListNetworks(call: Call<RawNetwork>, name: Value) returns (r: Result<seq<Network>>, warned: bool)
    ensures r == NetworksOf(call(NetworksRequest), name)
    ensures warned <==> "listnetworksresponse" in call(NetworksRequest)
                        && "network" !in call(NetworksRequest)["listnetworksresponse"]
  {
    r, warned := CollectListing(call(NetworksRequest), "listnetworksresponse", "network",
                                ProjectNetwork, NetworkName, name);
  }

  /** `_list_os_templates`: the request carries `templatefilter=self`. */
  method ListOsTemplates(call: Call<RawTemplate>, name: Value) returns (r: Result<seq<Template>>, warned: bool)
    ensures r == TemplatesOf(call(TemplatesRequest), name)
    ensures warned <==> "listtemplatesresponse" in call(TemplatesRequest)
                        && "template" !in call(TemplatesRequest)["listtemplatesresponse"]
  {
    r, warned := CollectListing(call(TemplatesRequest), "listtemplatesresponse", "template",
                                ProjectTemplate, TemplateName, name);
  }

  /** `_list_service_offering`. */
  method ListServiceOffering(call: Call<RawServiceOffering>, name: Value)
    returns (r: Result<seq<ServiceOffering>>, warned: bool)
    ensures r == OfferingsOf(call(OfferingsRequest), name)
    ensures warned <==> "listserviceofferingsresponse" in call(OfferingsRequest)
                        && "serviceoffering" !in call(OfferingsRequest)["listserviceofferingsresponse"]
  {
    r, warned := CollectListing(call(OfferingsRequest), "listserviceofferingsresponse", "serviceoffering",
                                ProjectServiceOffering, OfferingName, name);
  }

  // ---------------------------------------------------------------------
  // get-machines-ips

  function NamedAs(name: string): Machine -> bool
  {
    (m: Machine) => m.name == Str(name)
  }

  function IpOf(m: Machine): Value { m.ipaddress }

  /** `[m['ipaddress'] for m in ms if m['name'] == name]`. */
  function NamedIps(ms: seq<Machine>, name: string): seq<Value>
  {
    MapSeq(Filter(ms, NamedAs(name)), IpOf)
  }

  /** `' '.join(ips)`: a None among the addresses raises TypeError. */
  function JoinIps(ips: seq<Value>): (r: Result<string>)
    ensures r.Ok? <==> forall v :: v in ips ==> v.Str?
    ensures r.Err? ==> r.error == TypeError
    ensures |ips| == 1 && ips[0].Str? ==> r == Ok(ips[0].s)
  {
    if ips == [] then Ok("")
    else if ips[0].Null? then Err(TypeError)
    else if |ips| == 1 then Ok(ips[0].s)
    else
      match JoinIps(ips[1..])
      case Err(e) => Err(e)
      case Ok(rest) => Ok(ips[0].s + " " + rest)
  }

  /** `get_ips(args)`: the addresses of the machines named exactly args[0];
      none is exit status 1; `-o` anywhere in args prints only the first. */
  function GetIps(call: Call<RawVm>, args: seq<string>): Outcome
  {
    if |args| == 0 then Outcome([], Some(SystemExit(2)))
    else
      match MachinesData(call(VmsRequest), Str(args[0]))
      case Err(e) => Outcome([], Some(e))
      case Ok(ms) =>
        var ips := NamedIps(ms, args[0]);
        if ips == [] then Outcome([], Some(SystemExit(1)))
        else if "-o" in args then Outcome([Show(ips[0])], Some(SystemExit(0)))
        else
          match JoinIps(ips)
          case Err(e) => Outcome([], Some(e))
          case Ok(line) => Outcome([line], None)
  }

  /** The search by name that precedes the exact-name filter loses no machine
      of that name. */
  lemma {:induction false} NamedIpsOfSearch(ms: seq<Machine>, name: string)
    ensures NamedIps(SearchResult(ms, MachineValues, Str(name)), name) == NamedIps(ms, name)
  {
    var p, q := HasValue(MachineValues, Str(name)), NamedAs(name);
    forall m ensures q(m) ==> p(m) {
      if q(m) {
        assert MachineValues(m)[0] == Str(name);
      }
    }
    FilterNarrow(ms, p, q);
  }

  /** The addresses are exactly those of the machines whose name equals the
      argument, in reply order. */
  lemma NamedIpsMembers(ms: seq<Machine>, name: string, v: Value)
    ensures v in NamedIps(ms, name) <==> exists m :: m in ms && m.name == Str(name) && m.ipaddress == v
  {
    var f := Filter(ms, NamedAs(name));
    forall m ensures m in f <==> m in ms && m.name == Str(name) {
      FilterMember(ms, NamedAs(name), m);
    }
    if v in NamedIps(ms, name) {
      var i :| 0 <= i < |f| && NamedIps(ms, name)[i] == v;
      assert f[i] in f;
    }
    if exists m :: m in ms && m.name == Str(name) && m.ipaddress == v {
      var m :| m in ms && m.name == Str(name) && m.ipaddress == v;
      var i :| 0 <= i < |f| && f[i] == m;
      assert NamedIps(ms, name)[i] == v;
    }
  }

  /** `get_ips` on a well-formed reply, stated over the whole machine list. */
  lemma GetIpsSpec(call: Call<RawVm>, args: seq<string>)
    requires |args| > 0
    requires var env := call(VmsRequest);
             VmsWrapper in env && VmsKey in env[VmsWrapper] && AllHaveNic(env[VmsWrapper][VmsKey])
    ensures var ips := NamedIps(ProjectMachines(call(VmsRequest)[VmsWrapper][VmsKey]), args[0]);
            var o := GetIps(call, args);
            && (ips == [] ==> o == Outcome([], Some(SystemExit(1))))
            && (ips != [] && "-o" in args ==> o == Outcome([Show(ips[0])], Some(SystemExit(0))))
            && (ips != [] && "-o" !in args ==>
                  (o.raised == None <==> forall v :: v in ips ==> v.Str?))
            && (ips != [] && "-o" !in args && (forall v :: v in ips ==> v.Str?) ==>
                  o == Outcome([JoinIps(ips).value], None))
            && (ips != [] && "-o" !in args && (exists v :: v in ips && v.Null?) ==>
                  o == Outcome([], Some(TypeError)))
  {
    NamedIpsOfSearch(ProjectMachines(call(VmsRequest)[VmsWrapper][VmsKey]), args[0]);
  }

  // ---------------------------------------------------------------------
  // generate-template

  /** The parsed options of `generate-template`. */
  datatype TemplateArgs = TemplateArgs(template: string, osTemplateId: string, networkName: string,
                                       serviceOffering: string, diskOfferingId: Option<string>,
                                       diskOfferingSize: Option<string>)

  /** The line for one network before the optional disk settings. */
  function BaseLine(a: TemplateArgs, projectid: string, offering: ServiceOffering, n: Network): string
  {
    "\n" + Show(n.zonename) + " projectid=" + projectid + " displayname=" + a.template
    + " networkids=" + Show(n.id) + " templateid=" + a.osTemplateId
    + " serviceofferingid=" + Show(offering.id) + " zoneid=" + Show(n.zoneid)
  }

  function DiskSuffix(a: TemplateArgs): string
  {
    if a.diskOfferingId.Some? then " diskofferingid=" + a.diskOfferingId.value else ""
  }

  function SizeSuffix(a: TemplateArgs): string
  {
    if a.diskOfferingSize.Some? then " size=" + a.diskOfferingSize.value else ""
  }

  function TemplateLine(a: TemplateArgs, projectid: string, offering: ServiceOffering, n: Network): string
  {
    BaseLine(a, projectid, offering, n) + DiskSuffix(a) + SizeSuffix(a)
  }

  function LinesFor(a: TemplateArgs, projectid: string, offering: ServiceOffering): Network -> string
  {
    (n: Network) => TemplateLine(a, projectid, offering, n)
  }

  /** The disk settings follow the base line, disk offering first, each
      present exactly when its option is given. */
  lemma TemplateLineOptions(a: TemplateArgs, projectid: string, offering: ServiceOffering, n: Network)
    ensures var base, line := BaseLine(a, projectid, offering, n), TemplateLine(a, projectid, offering, n);
            && base <= line
            && (a.diskOfferingId.None? && a.diskOfferingSize.None? ==> line == base)
            && (a.diskOfferingId.None? ==> line == base + SizeSuffix(a))
            && (a.diskOfferingSize.None? ==> line == base + DiskSuffix(a))
            && (a.diskOfferingId.Some? ==>
                  line[|base|..|base| + 16 + |a.diskOfferingId.value|] == " diskofferingid=" + a.diskOfferingId.value)
            && (a.diskOfferingSize.Some? ==>
                  var s := " size=" + a.diskOfferingSize.value; line[|line| - |s|..] == s)
  {
    var base, line := BaseLine(a, projectid, offering, n), TemplateLine(a, projectid, offering, n);
    assert line == base + DiskSuffix(a) + SizeSuffix(a);
    assert line[..|base|] == base;
  }

  /** What `generate_template` prints for the two replies: one line per
      network whose name contains the network option, in reply order; no
      matching service offering raises IndexError. */
  function TemplateOutcome(networks: Envelope<RawNetwork>, offerings: Envelope<RawServiceOffering>,
                           projectid: string, a: TemplateArgs): Outcome
  {
    match NetworksOf(networks, Str(a.networkName))
    case Err(e) => Outcome([], Some(e))
    case Ok(nets) =>
      match OfferingsOf(offerings, Str(a.serviceOffering))
      case Err(e) => Outcome([], Some(e))
      case Ok(offs) =>
        if offs == [] then Outcome([], Some(IndexError))
        else Outcome(MapSeq(nets, LinesFor(a, projectid, offs[0])), None)
  }

  /** `generate_template`: the two listings, then the loop that prints a line
      per network. The project id is read from the requester. */
  method GenerateTemplate(networksCall: Call<RawNetwork>, offeringsCall: Call<RawServiceOffering>,
                          requester: Requester.CloudStackRequester, a: TemplateArgs)
    returns (o: Outcome)
    ensures o == TemplateOutcome(networksCall(NetworksRequest), offeringsCall(OfferingsRequest),
                                 requester.projectid, a)
  {
    var networks, _ := ListNetworks(networksCall, Str(a.networkName));
    if networks.Err? {
      return Outcome([], Some(networks.error));
    }
    var offerings, _ := ListServiceOffering(offeringsCall, Str(a.serviceOffering));
    if offerings.Err? {
      return Outcome([], Some(offerings.error));
    }
    if offerings.value == [] {
      return Outcome([], Some(IndexError));
    }
    var printed := PrintTemplateLines(a, requester.projectid, offerings.value[0], networks.value);
    o := Outcome(printed, None);
  }

  /** The `for network in networks` loop of `generate_template`. */
  method PrintTemplateLines(a: TemplateArgs, projectid: string, offering: ServiceOffering, nets: seq<Network>)
    returns (printed: seq<string>)
    ensures printed == MapSeq(nets, LinesFor(a, projectid, offering))
  {
    printed := [];
    var i := 0;
    while i < |nets|
      invariant 0 <= i <= |nets|
      invariant printed == MapSeq(nets[..i], LinesFor(a, projectid, offering))
    {
      var line := BuildTemplateLine(a, projectid, offering, nets[i]);
      assert nets[..i + 1] == nets[..i] + [nets[i]];
      MapSnoc(nets[..i], nets[i], LinesFor(a, projectid, offering));
      printed := printed + [line];
      i := i + 1;
    }
    assert nets[..i] == nets;
  }

  /** One `template_line`, extended with `+=` by the optional settings. */
  method BuildTemplateLine(a: TemplateArgs, projectid: string, offering: ServiceOffering, n: Network)
    returns (line: string)
    ensures line == TemplateLine(a, projectid, offering, n)
  {
    line := "\n" + Show(n.zonename) + " projectid=" + projectid + " displayname=" + a.template
            + " networkids=" + Show(n.id) + " templateid=" + a.osTemplateId
            + " serviceofferingid=" + Show(offering.id) + " zoneid=" + Show(n.zoneid);
    assert line == BaseLine(a, projectid, offering, n);
    if a.diskOfferingId.Some? {
      line := line + " diskofferingid=" + a.diskOfferingId.value;
    }
    assert line == BaseLine(a, projectid, offering, n) + DiskSuffix(a);
    if a.diskOfferingSize.Some? {
      line := line + " size=" + a.diskOfferingSize.value;
    }
  }

  // ---------------------------------------------------------------------
  // update-machine-userdata

  /** The parsed options of `update-machine-userdata`. */
  datatype UpdateArgs = UpdateArgs(machineId: Option<string>, machineName: string, dryRun: bool)

  function IdOf(m: Machine): Value { m.id }

  /** The `-i` filter: every id passes without it. */
  predicate IsSelected(machineId: Option<string>, id: Value)
  {
    machineId.None? || id == Str(machineId.value)
  }

  function Selected(machineId: Option<string>): Value -> bool
  {
    (id: Value) => IsSelected(machineId, id)
  }

  /** The ids the loop acts on, in listing order. */
  function UpdateTargets(ms: seq<Machine>, machineId: Option<string>): seq<Value>
  {
    Filter(MapSeq(ms, IdOf), Selected(machineId))
  }

  function Announce(name: string, id: Value): string
  {
    "Update userdata on " + name + " with id " + Show(id)
  }

  function AnnounceFor(name: string): Value -> string
  {
    (id: Value) => Announce(name, id)
  }

  /** The `updateVirtualMachine` request `_update_machine_userdata` sends. */
  function UpdateRequest(userData: string, id: Value): Request
  {
    Request("updateVirtualMachine", map["id" := id, "userdata" := Str(userData)])
  }

  function UpdateRequestFor(userData: string): Value -> Request
  {
    (id: Value) => UpdateRequest(userData, id)
  }

  function ShowOption(o: Option<string>): string
  {
    if o.Some? then o.value else "None"
  }

  function NoMachineLine(a: UpdateArgs): string
  {
    "No machine found for " + ShowOption(a.machineId) + " id on " + a.machineName
  }

  /** Without `-i` every listed id is a target; with it, exactly the listed
      ids equal to it, and none at all when no listed machine has that id. */
  lemma UpdateTargetsSpec(ms: seq<Machine>, machineId: Option<string>)
    ensures var ids, t := MapSeq(ms, IdOf), UpdateTargets(ms, machineId);
            && Subseq(t, ids)
            && (machineId.None? ==> t == ids)
            && (machineId.Some? ==> forall v :: v in t ==> v == Str(machineId.value))
            && (machineId.Some? ==> (t == [] <==> forall m :: m in ms ==> m.id != Str(machineId.value)))
  {
    var ids, p := MapSeq(ms, IdOf), Selected(machineId);
    FilterSubseq(ids, p);
    if machineId.None? {
      FilterAll(ids, p);
    } else {
      FilterEmpty(ids, p);
      forall v ensures v in Filter(ids, p) <==> v in ids && p(v) {
        FilterMember(ids, p, v);
      }
      forall m | m in ms ensures IdOf(m) in ids {
        var i :| 0 <= i < |ms| && ms[i] == m;
        assert ids[i] == IdOf(m);
      }
    }
  }

  /** The machines are found by the any-field search, not by name alone:
      without `-i`, a machine with any field equal to the `-m` argument (its
      zone or offering, say) has its id among the targets. */
  lemma UpdateTargetsByAnyField(env: Envelope<RawVm>, a: UpdateArgs, m: Machine)
    requires VmsWrapper in env && VmsKey in env[VmsWrapper] && AllHaveNic(env[VmsWrapper][VmsKey])
    requires m in ProjectMachines(env[VmsWrapper][VmsKey]) && Str(a.machineName) in MachineValues(m)
    requires a.machineId.None?
    ensures var r := MachinesData(env, Str(a.machineName));
            r.Ok? && m in r.value && m.id in UpdateTargets(r.value, a.machineId)
  {
    var all, p := ProjectMachines(env[VmsWrapper][VmsKey]), HasValue(MachineValues, Str(a.machineName));
    FilterMember(all, p, m);
    assert MachinesData(env, Str(a.machineName)) == Ok(Filter(all, p));
    EveryIdTargeted(Filter(all, p), m);
  }

  /** Without `-i`, every listed machine's id is a target. */
  lemma EveryIdTargeted(ms: seq<Machine>, m: Machine)
    requires m in ms
    ensures m.id in UpdateTargets(ms, None)
  {
    var ids := MapSeq(ms, IdOf);
    FilterAll(ids, Selected(None));
    var i :| 0 <= i < |ms| && ms[i] == m;
    assert ids[i] == m.id;
  }

  /** `update_machine_userdata`: the machines found by the any-field search
      on the `-m` argument, then the loop over their ids. The base64 user
      data is the opaque userData; updates are the requests handed to
      `make_request`, in order, before the project id is injected. */
  method UpdateMachineUserdata(call: Call<RawVm>, a: UpdateArgs, userData: string)
    returns (o: Outcome, updates: seq<Request>)
    ensures MachinesData(call(VmsRequest), Str(a.machineName)).Err? ==>
              o == Outcome([], Some(MachinesData(call(VmsRequest), Str(a.machineName)).error)) && updates == []
    ensures MachinesData(call(VmsRequest), Str(a.machineName)) == Ok([]) ==>
              o == Outcome([], Some(SystemExit(1))) && updates == []
    ensures var r := MachinesData(call(VmsRequest), Str(a.machineName));
            r.Ok? && r.value != [] ==>
              var targets := UpdateTargets(r.value, a.machineId);
              && o.raised == None
              && o.stdout == MapSeq(targets, AnnounceFor(a.machineName))
                             + (if targets == [] then [NoMachineLine(a)] else [])
              && updates == (if a.dryRun then [] else MapSeq(targets, UpdateRequestFor(userData)))
  {
    var r, _ := GetMachinesData(call, Str(a.machineName));
    if r.Err? {
      return Outcome([], Some(r.error)), [];
    }
    if r.value == [] {
      return Outcome([], Some(SystemExit(1))), [];
    }
    var printed, changed;
    printed, updates, changed := UpdateEach(MapSeq(r.value, IdOf), a, userData);
    if !changed {
      printed := printed + [NoMachineLine(a)];
    }
    o := Outcome(printed, None);
  }

  /** The `for machine_id in ...` loop with its `changed_user_data` flag:
      ids the `-i` filter rejects are skipped, each other one is announced
      and, unless in dry-run mode, updated. */
  method UpdateEach(ids: seq<Value>, a: UpdateArgs, userData: string)
    returns (printed: seq<string>, updates: seq<Request>, changed: bool)
    ensures printed == MapSeq(Filter(ids, Selected(a.machineId)), AnnounceFor(a.machineName))
    ensures updates == if a.dryRun then [] else MapSeq(Filter(ids, Selected(a.machineId)), UpdateRequestFor(userData))
    ensures changed <==> Filter(ids, Selected(a.machineId)) != []
  {
    var sel := Selected(a.machineId);
    changed := false;
    printed := [];
    updates := [];
    ghost var kept: seq<Value> := [];
    ghost var sent: seq<Value> := [];
    var i := 0;
    while i < |ids|
      invariant 0 <= i <= |ids|
      invariant kept == Filter(ids[..i], sel)
      invariant printed == MapSeq(kept, AnnounceFor(a.machineName))
      invariant sent == if a.dryRun then [] else kept
      invariant updates == MapSeq(sent, UpdateRequestFor(userData))
      invariant changed <==> |kept| > 0
    {
      var id := ids[i];
      FilterPrefixStep(ids, i, sel);
      if IsSelected(a.machineId, id) {
        UpdateStep(kept, id, a.machineName, userData);
        UpdateStep(sent, id, a.machineName, userData);
        kept := kept + [id];
        changed := true;
        printed := printed + [Announce(a.machineName, id)];
        if !a.dryRun {
          updates := updates + [UpdateRequest(userData, id)];
          sent := sent + [id];
        }
      }
      i := i + 1;
    }
    assert ids[..i] == ids;
  }

  /** One more target announced and updated. */
  lemma UpdateStep(kept: seq<Value>, id: Value, name: string, userData: string)
    ensures MapSeq(kept + [id], AnnounceFor(name)) == MapSeq(kept, AnnounceFor(name)) + [Announce(name, id)]
    ensures MapSeq(kept + [id], UpdateRequestFor(userData)) == MapSeq(kept, UpdateRequestFor(userData)) + [UpdateRequest(userData, id)]
  {
    MapSnoc(kept, id, AnnounceFor(name));
    MapSnoc(kept, id, UpdateRequestFor(userData));
  }

  /** One more id seen by the loop. */
  lemma FilterPrefixStep(ids: seq<Value>, i: nat, sel: Value -> bool)
    requires i < |ids|
    ensures Filter(ids[..i + 1], sel) == Filter(ids[..i], sel) + (if sel(ids[i]) then [ids[i]] else [])
  {
    assert ids[..i + 1] == ids[..i] + [ids[i]];
    FilterSnoc(ids[..i], ids[i], sel);
  }

  // ---------------------------------------------------------------------
  // Commands and dispatch

  /** The handlers of `available_commands`. */
  datatype Command =
    | ListMachinesCommand
    | ListNetworksCommand
    | ListOsTemplatesCommand
    | ListServiceOfferingsCommand
    | GetIpsCommand
    | NetworkInfoCommand
    | MachineInfoCommand
    | GenerateTemplateCommand
    | UpdateMachineUserdataCommand

  /** The command-line name of each handler. */
  function CommandName(c: Command): string
  {
    match c
    case ListMachinesCommand => "list-machines"
    case ListNetworksCommand => "list-networks"
    case ListOsTemplatesCommand => "list-os-templates"
    case ListServiceOfferingsCommand => "list-service-offerings"
    case GetIpsCommand => "get-machines-ips"
    case NetworkInfoCommand => "get-network-info"
    case MachineInfoCommand => "get-machine-info"
    case GenerateTemplateCommand => "generate-template"
    case UpdateMachineUserdataCommand => "update-machine-userdata"
  }

  /** `available_commands()`: the table maps each handler's name to it, and
      holds nothing else. */
  function AvailableCommands(): (table: map<string, Command>)
    ensures forall c :: CommandName(c) in table && table[CommandName(c)] == c
    ensures forall name :: name in table ==> CommandName(table[name]) == name
  {
    map[
      "list-machines" := ListMachinesCommand,
      "list-networks" := ListNetworksCommand,
      "list-os-templates" := ListOsTemplatesCommand,
      "list-service-offerings" := ListServiceOfferingsCommand,
      "get-machines-ips" := GetIpsCommand,
      "get-network-info" := NetworkInfoCommand,
      "get-machine-info" := MachineInfoCommand,
      "generate-template" := GenerateTemplateCommand,
      "update-machine-userdata" := UpdateMachineUserdataCommand
    ]
  }

  /** `get_command(name)`: the handler with that name, else CommandNotFoundError. */
  function GetCommand(name: string): (r: Result<Command>)
    ensures r.Ok? <==> exists c :: CommandName(c) == name
    ensures r.Ok? ==> CommandName(r.value) == name
    ensures r.Err? ==> r.error == CommandNotFound(name)
  {
    if name in AvailableCommands() then Ok(AvailableCommands()[name])
    else Err(CommandNotFound(name))
  }

  /** What `main(argv)` does before running anything: list the commands for
      an empty argv, run the named handler on the rest, or list the commands
      and exit with status 2 for an unknown name. */
  datatype Dispatched = HelpListed | Run(command: Command, args: seq<string>) | Unknown(exit: Error)

  function Dispatch(argv: seq<string>): (d: Dispatched)
    ensures argv == [] <==> d == HelpListed
    ensures d.Run? ==> argv != [] && CommandName(d.command) == argv[0] && d.args == argv[1..]
    ensures d.Unknown? ==> argv != [] && (forall c :: CommandName(c) != argv[0]) && d.exit == SystemExit(2)
  {
    if argv == [] then HelpListed
    else
      match GetCommand(argv[0])
      case Ok(c) => Run(c, argv[1..])
      case Err(_) => Unknown(SystemExit(2))
  }

  /** Naming a command runs that command on the remaining arguments. */
  lemma DispatchRoundTrip(c: Command, rest: seq<string>)
    ensures Dispatch([CommandName(c)] + rest) == Run(c, rest)
  {
    var argv := [CommandName(c)] + rest;
    assert argv[0] == CommandName(c) && argv[1..] == rest;
  }
}
