/** The response shaping shared by the command line and the CloudStack
    class: the flat records built from API entries, the "any field equals the
    search term" rule, and the case-insensitive name filter. */
module Listing {
  import opened Api
  import opened Seqs
  import opened Text

  datatype Network = Network(name: Value, cidr: Value, id: Value, zoneid: Value, zonename: Value)

  datatype Template = Template(name: Value, displaytext: Value, zoneid: Value, id: Value,
                               ostypename: Value, zonename: Value)

  datatype ServiceOffering = ServiceOffering(name: Value, displaytext: Value, id: Value)

  function ProjectNetwork(n: RawNetwork): Network
  {
    Network(n.name, n.cidr, n.id, n.zoneid, n.zonename)
  }

  function ProjectTemplate(t: RawTemplate): Template
  {
    Template(t.name, t.displaytext, t.zoneid, t.id, t.ostypename, t.zonename)
  }

  function ProjectServiceOffering(o: RawServiceOffering): ServiceOffering
  {
    ServiceOffering(o.name, o.displaytext, o.id)
  }

  function NetworkName(n: Network): Value { n.name }

  function TemplateName(t: Template): Value { t.name }

  function OfferingName(o: ServiceOffering): Value { o.name }

  /** The requests behind the three listings; only templates carry a
      parameter, `templatefilter=self`. */
  const NetworksRequest := Request("listNetworks", map[])
  const TemplatesRequest := Request("listTemplates", map["templatefilter" := Str("self")])
  const OfferingsRequest := Request("listServiceOfferings", map[])

  /** The request behind the machine listing, and its reply's keys. */
  const VmsRequest := Request("listVirtualMachines", map[])
  const VmsWrapper := "listvirtualmachinesresponse"
  const VmsKey := "virtualmachine"

  /** Every machine has a first NIC to take the address from. */
  predicate AllHaveNic(vms: seq<RawVm>)
  {
    forall vm :: vm in vms ==> vm.nic != []
  }

  // ---------------------------------------------------------------------
  // Name filter

  /** The entry's name is a string containing needle, ignoring case. */
  predicate NameHas(name: Value, needle: string)
  {
    name.Str? && NameMatches(needle, name.s)
  }

  function HasName<T>(nameOf: T -> Value, needle: string): T -> bool
  {
    (x: T) => NameHas(nameOf(x), needle)
  }

  /** `[x for x in xs if needle.lower() in x['name'].lower()]`: calling
      `.lower()` on a null name raises AttributeError. */
  function FilterByName<T>(xs: seq<T>, nameOf: T -> Value, needle: string): Result<seq<T>>
  {
    if xs == [] then Ok([])
    else
      match FilterByName(xs[..|xs| - 1], nameOf, needle)
      case Err(e) => Err(e)
      case Ok(kept) =>
        var x := xs[|xs| - 1];
        if nameOf(x).Null? then Err(AttributeError)
        else Ok(kept + (if NameMatches(needle, nameOf(x).s) then [x] else []))
  }

  /** The comprehension fails exactly when some name is null, and otherwise
      keeps exactly the entries whose name contains the needle. */
  lemma {:induction false} FilterByNameSpec<T>(xs: seq<T>, nameOf: T -> Value, needle: string)
    ensures FilterByName(xs, nameOf, needle) ==
            if exists x :: x in xs && nameOf(x).Null? then Err(AttributeError)
            else Ok(Filter(xs, HasName(nameOf, needle)))
  {
    if xs != [] {
      var init, last := xs[..|xs| - 1], xs[|xs| - 1];
      assert xs == init + [last];
      assert forall x :: x in init ==> x in xs;
      FilterByNameSpec(init, nameOf, needle);
      if !exists x :: x in init && nameOf(x).Null? {
        if nameOf(last).Str? {
          assert HasName(nameOf, needle)(last) == NameMatches(needle, nameOf(last).s);
          assert forall x :: x in xs ==> x in init || x == last;
        }
      }
    }
  }

  // ---------------------------------------------------------------------
  // Listing networks, templates and service offerings

  /** What `_list_networks` and its siblings return for a reply env: the
      wrapper key is indexed unguarded, a missing list key yields [], each
      entry is projected, and a given name filters the projections. */
  function ListingOf<R, T(==)>(env: Envelope<R>, wrapper: string, listKey: string,
                           project: R -> T, nameOf: T -> Value, needle: Value): Result<seq<T>>
  {
    if wrapper !in env then Err(KeyError(wrapper))
    else if listKey !in env[wrapper] then Ok([])
    else
      var all := MapSeq(env[wrapper][listKey], project);
      if needle.Null? then Ok(all)
      else if exists x :: x in all && nameOf(x).Null? then Err(AttributeError)
      else Ok(Filter(all, HasName(nameOf, needle.s)))
  }

  /** The network listing: `listnetworksresponse` / `network`, filtered by name. */
  function NetworksOf(env: Envelope<RawNetwork>, name: Value): Result<seq<Network>>
  {
    ListingOf(env, "listnetworksresponse", "network", ProjectNetwork, NetworkName, name)
  }

  /** The template listing: `listtemplatesresponse` / `template`, filtered by name. */
  function TemplatesOf(env: Envelope<RawTemplate>, name: Value): Result<seq<Template>>
  {
    ListingOf(env, "listtemplatesresponse", "template", ProjectTemplate, TemplateName, name)
  }

  /** The offering listing: `listserviceofferingsresponse` / `serviceoffering`, filtered by name. */
  function OfferingsOf(env: Envelope<RawServiceOffering>, name: Value): Result<seq<ServiceOffering>>
  {
    ListingOf(env, "listserviceofferingsresponse", "serviceoffering", ProjectServiceOffering, OfferingName, name)
  }

  /** The loop that appends one projected record per entry, followed by the
      name comprehension. warned is the "Empty ... list" message on stderr. */
  method CollectListing<R, T(==)>(env: Envelope<R>, wrapper: string, listKey: string,
                              project: R -> T, nameOf: T -> Value, needle: Value)
    returns (r: Result<seq<T>>, warned: bool)
    ensures r == ListingOf(env, wrapper, listKey, project, nameOf, needle)
    ensures warned <==> wrapper in env && listKey !in env[wrapper]
    ensures wrapper in env && listKey !in env[wrapper] ==> r == Ok([])
  {
    if wrapper !in env {
      return Err(KeyError(wrapper)), false;
    }
    var body := env[wrapper];
    if listKey !in body {
      return Ok([]), true;
    }
    var entries := body[listKey];
    var records: seq<T> := [];
    var i := 0;
    while i < |entries|
      invariant 0 <= i <= |entries|
      invariant records == MapSeq(entries[..i], project)
    {
      assert entries[..i + 1][..i] == entries[..i];
      records := records + [project(entries[i])];
      i := i + 1;
    }
    assert entries[..i] == entries;
    warned := false;
    if needle.Null? {
      r := Ok(records);
    } else {
      FilterByNameSpec(records, nameOf, needle.s);
      r := FilterByName(records, nameOf, needle.s);
    }
  }

  /** With a name, the listing fails exactly when some entry's name is null,
      and otherwise is exactly the subsequence of the projected entries whose
      name contains the needle, ignoring case. */
  lemma ListingFiltered<R, T>(env: Envelope<R>, wrapper: string, listKey: string,
                              project: R -> T, nameOf: T -> Value, needle: string)
    requires wrapper in env && listKey in env[wrapper]
    ensures var all := MapSeq(env[wrapper][listKey], project);
            var r := ListingOf(env, wrapper, listKey, project, nameOf, Str(needle));
            && (r.Ok? <==> forall x :: x in all ==> nameOf(x).Str?)
            && (r.Err? ==> r.error == AttributeError)
            && (r.Ok? ==> Subseq(r.value, all))
            && (r.Ok? ==> forall x :: x in r.value <==> x in all && NameHas(nameOf(x), needle))
            && (r.Ok? ==> forall x :: multiset(r.value)[x] ==
                                      if NameHas(nameOf(x), needle) then multiset(all)[x] else 0)
  {
    var all := MapSeq(env[wrapper][listKey], project);
    var p := HasName(nameOf, needle);
    FilterSubseq(all, p);
    forall x ensures x in Filter(all, p) <==> x in all && NameHas(nameOf(x), needle) {
      FilterMember(all, p, x);
    }
    forall x ensures multiset(Filter(all, p))[x] == if NameHas(nameOf(x), needle) then multiset(all)[x] else 0 {
      FilterCount(all, p, x);
    }
  }

  /** Without a name, the listing is every entry projected, in order. */
  lemma ListingUnfiltered<R, T>(env: Envelope<R>, wrapper: string, listKey: string,
                                project: R -> T, nameOf: T -> Value)
    requires wrapper in env && listKey in env[wrapper]
    ensures var entries := env[wrapper][listKey];
            var r := ListingOf(env, wrapper, listKey, project, nameOf, Null);
            && r.Ok? && |r.value| == |entries|
            && forall i :: 0 <= i < |entries| ==> r.value[i] == project(entries[i])
  {
  }

  // ---------------------------------------------------------------------
  // Search over machine records

  /** `search in record.values()`. */
  function HasValue<T>(valuesOf: T -> seq<Value>, search: Value): T -> bool
  {
    (x: T) => search in valuesOf(x)
  }

  /** The result rule of `get_machines_data`: the records having a field equal
      to the search term, unless there are none and no term was given. */
  function SearchResult<T>(all: seq<T>, valuesOf: T -> seq<Value>, search: Value): seq<T>
  {
    var found := Filter(all, HasValue(valuesOf, search));
    if found != [] || search.Str? then found else all
  }

  /** With a term, the result is exactly the subsequence of records having a
      field equal to it (possibly empty). */
  lemma SearchWithTerm<T>(all: seq<T>, valuesOf: T -> seq<Value>, term: string)
    ensures var r := SearchResult(all, valuesOf, Str(term));
            && Subseq(r, all)
            && (forall x :: x in r <==> x in all && Str(term) in valuesOf(x))
            && (forall x :: multiset(r)[x] == if Str(term) in valuesOf(x) then multiset(all)[x] else 0)
            && (r == [] <==> forall x :: x in all ==> Str(term) !in valuesOf(x))
  {
    var p := HasValue(valuesOf, Str(term));
    FilterSubseq(all, p);
    FilterEmpty(all, p);
    forall x ensures x in Filter(all, p) <==> x in all && Str(term) in valuesOf(x) {
      FilterMember(all, p, x);
    }
    forall x ensures multiset(Filter(all, p))[x] == if Str(term) in valuesOf(x) then multiset(all)[x] else 0 {
      FilterCount(all, p, x);
    }
  }

  /** Without a term and with no null field, every record is returned. */
  lemma SearchWithoutTerm<T>(all: seq<T>, valuesOf: T -> seq<Value>)
    requires forall x :: x in all ==> Null !in valuesOf(x)
    ensures SearchResult(all, valuesOf, Null) == all
  {
    FilterEmpty(all, HasValue(valuesOf, Null));
  }

  /** Without a term, a record with a null field makes the result only the
      records with a null field: None is compared like any other value. */
  lemma SearchWithoutTermNullField<T>(all: seq<T>, valuesOf: T -> seq<Value>, y: T)
    requires y in all && Null in valuesOf(y)
    ensures var r := SearchResult(all, valuesOf, Null);
            && y in r
            && forall x :: x in r <==> x in all && Null in valuesOf(x)
  {
    var p := HasValue(valuesOf, Null);
    forall x ensures x in Filter(all, p) <==> x in all && Null in valuesOf(x) {
      FilterMember(all, p, x);
    }
  }
}
