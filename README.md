# cluster_cloudstack, modelled in Dafny

`cluster_cloudstack` is a small command-line client for an Apache CloudStack
cloud. It lists virtual machines, networks, OS templates and service
offerings, prints machine addresses, generates deployment template lines, and
updates the user data of machines. The same listings are also offered as
methods of a `CloudStack` class.

This project models the part of the client that sits above the HTTP layer:

- how a reply from the CloudStack API becomes flat records;
- the "any field equals the search term" rule;
- the case-insensitive name filters;
- the decision rules of the commands;
- the injection of the project id into request parameters;
- the command dispatch table.

The reply of an API call is an input to the model. A call is a function
from a `Request` (command name and parameters) to the decoded reply. Python's
`None` is a field value of its own (`Null`), so the search rule's treatment of
`None` is modelled as written.

In the command-line module a call stands for the whole of `make_request`:
the request handed to it is the one the command builds, before the project
id is injected. The injection and the exit on a library error are modelled
on their own, in `Requester`, and are not threaded through the commands (see
"## Left out"). Apart from that exit, each exception the modelled commands
raise becomes an `Err` value or the `raised` part of an `Outcome`:

- `KeyError` when the reply wrapper is missing;
- `IndexError` when a machine has no NIC or no service offering matched;
- `AttributeError` when `.lower()` is called on a null name;
- `TypeError` when `' '.join` meets a null address;
- `SystemExit(n)` for `sys.exit(n)`;
- `CommandNotFound` for an unknown command name.

Modules:

- `Api`: field values, errors, requests, reply shapes and raw API entries.
- `Seqs`: list comprehensions (`Filter`, `MapSeq`), order preservation (`Subseq`) and the facts about them.
- `Text`: ASCII lower-casing and Python's substring test.
- `Listing`: record projection, the name filter and the search rule. The command line and the `CloudStack` class share these.
- `Requester`: `CloudStackRequester.make_request`. The parameter dictionary it updates in place is a class `ParamSet`. Python's `args={}` default is one dictionary owned by the function and shared by every instance. The program creates a single requester (cluster_cloudstack.py:52), so a field of the requester stands for it.
- `Cli`: the module-level functions of `cluster_cloudstack.py`.
- `CloudStackClient`: the methods of `CloudStack` in `cluster_cloudstack/cloudstack.py`.

The loops of the source are methods with loop invariants. Each method is
proved equal to a specification function: `MachinesData`, `ListingOf`,
`TemplateLine`, `UpdateTargets` and others. Lemmas then prove what the source
promises about those functions.

Two things about `cloudstack.py` are modelled as written:

- `get_machines_data` looks up `virtualmachine` at the top level of the reply of `listVirtualMachines()`.
- `list_networks`, `list_os_templates` and `list_service_offering` first index the `...response` wrapper.

The connector that produces these replies is not part of this model. For that
reason the machine call is typed `BodyCall` (an unwrapped reply) and the
listing calls are typed `Call` (a wrapped reply). The class's machine record
has four fields. The command line's record has a fifth, `offering`.

## Model

| member | source | states |
|---|---|---|
| Requester.WithProject | cluster_cloudstack.py:39-40 | with a non-empty project id the map sent on has exactly the old keys plus `projectid`, set to the id, and every other key unchanged; with an empty id the map is unchanged |
| Requester.WithProjectIdempotent | cluster_cloudstack.py:38-40 | injecting the project id twice (the shared default dictionary reused) gives the same map as injecting it once |
| Requester.CloudStackRequester.MakeRequest | cluster_cloudstack.py:38-48 | the argument dictionary is updated in place to the injected map; an error reported by the library is exit status 1, otherwise the response is returned |
| Requester.CloudStackRequester.MakeDefaultRequest | cluster_cloudstack.py:38-40 | a call without arguments updates the one shared default dictionary, so the project id persists in it across calls |
| Requester.CloudStackRequester.constructor | cluster_cloudstack.py:51-52 | the requester starts with the configured project id and an empty default dictionary |
| Cli.ProjectMachines | cluster_cloudstack.py:63-67 | one record per machine, in reply order, with name, id, first-NIC address, zone and offering taken from the entry |
| Cli.GetMachinesData | cluster_cloudstack.py:55-72 | the loop's result is `MachinesData` of the reply: KeyError without the wrapper, `[]` (with the warning) when `virtualmachine` is missing, IndexError for a machine without NIC, else the search rule over the projected records |
| Cli.MachinesDataWithTerm | cluster_cloudstack.py:68-71 | with a search term the result is the order-preserving subsequence of all records that keeps every copy of each record having a field equal to it and no other record, and it is empty exactly when none has one |
| Cli.MachinesDataWithoutTerm | cluster_cloudstack.py:70-72 | with no term and no null field every projected record is returned |
| Listing.SearchWithTerm | cluster_cloudstack.py:68-71 | the search rule with a term keeps exactly the matching records in order, every copy of each, and is empty exactly when none matches |
| Listing.SearchWithoutTerm | cluster_cloudstack.py:70-72 | the search rule without a term returns all records when none has a null field |
| Listing.SearchWithoutTermNullField | cluster_cloudstack.py:68-72 | without a term, a record with a null field makes the result exactly the records with a null field, because None is compared like any value |
| Listing.FilterByNameSpec | cluster_cloudstack.py:85-86 | the name comprehension fails with AttributeError exactly when some name is null, and otherwise keeps exactly the entries whose name contains the needle ignoring case, in order |
| Listing.CollectListing | cluster_cloudstack.py:75-87 | the append loop plus the comprehension equals `ListingOf`; the warning is printed exactly when the wrapper is present and the list key is missing, and the result is then `[]` |
| Listing.ListingFiltered | cluster_cloudstack.py:85-86 | with a name the listing succeeds exactly when no name is null; it is then an order-preserving subsequence of the unfiltered listing holding every copy of each entry whose name contains the needle ignoring case and no other entry |
| Listing.ListingUnfiltered | cluster_cloudstack.py:82-87 | without a name the listing is every entry projected, one per entry, in reply order |
| Text.Lower | cluster_cloudstack.py:86 | lowering keeps the length and lowers each character |
| Text.LowerIdempotent | cluster_cloudstack.py:86 | lowering twice is lowering once |
| Text.NameMatchesIgnoresCase | cluster_cloudstack.py:86 | the name test is unchanged by lowering either the needle or the name first |
| Text.ContainsLowered | cluster_cloudstack.py:86 | a case-sensitive occurrence of the needle is also a case-insensitive match |
| Text.EmptyNeedleMatches | cluster_cloudstack.py:86 | the empty name matches every entry |
| Cli.ListNetworks | cluster_cloudstack.py:75-87 | `_list_networks` returns `NetworksOf` the `listNetworks` reply, and warns exactly when `network` is missing |
| Cli.ListOsTemplates | cluster_cloudstack.py:90-103 | `_list_os_templates` sends `templatefilter=self` and returns `TemplatesOf` that reply, and warns exactly when `template` is missing |
| Cli.ListServiceOffering | cluster_cloudstack.py:106-117 | `_list_service_offering` returns `OfferingsOf` the `listServiceOfferings` reply, and warns exactly when `serviceoffering` is missing |
| Cli.JoinIps | cluster_cloudstack.py:193 | joining succeeds exactly when every address is a string, fails with TypeError otherwise, and a single address joins to itself |
| Cli.NamedIpsOfSearch | cluster_cloudstack.py:185-186 | searching by the name before filtering by exact name loses no machine of that name |
| Cli.NamedIpsMembers | cluster_cloudstack.py:186 | an address is kept exactly when some machine has exactly that name and that address |
| Cli.GetIpsSpec | cluster_cloudstack.py:180-193 | over all projected machines: no machine with exactly that name is exit status 1; `-o` prints only the first address and exits with 0; otherwise, with no null address, the one printed line is the addresses joined by spaces, and a null address raises TypeError |
| Cli.TemplateLineOptions | cluster_cloudstack.py:219-227 | a template line starts with its base line; ` diskofferingid=` follows the base line when a disk id is given, and without one the line is the base line plus the size suffix only; the line ends in ` size=` when a size is given, and without one it is the base line plus the disk suffix only; with neither it is the base line |
| Cli.BuildTemplateLine | cluster_cloudstack.py:219-227 | the `+=` steps build exactly `TemplateLine` |
| Cli.PrintTemplateLines | cluster_cloudstack.py:218-228 | the loop prints one template line per network, in order |
| Cli.GenerateTemplate | cluster_cloudstack.py:208-228 | `generate_template` prints `TemplateOutcome`: the line of each name-filtered network with the first matching offering, IndexError when no offering matches, and the listings' errors |
| Cli.UpdateTargetsSpec | cluster_cloudstack.py:266-268 | without `-i` every listed id is a target; with it, exactly the ids equal to it, in order, and none exactly when no machine has that id |
| Cli.UpdateEach | cluster_cloudstack.py:265-272 | the loop announces each target in order, sends one update request per target unless in dry-run mode, and sets the flag exactly when some id passed the filter |
| Cli.UpdateTargetsByAnyField | cluster_cloudstack.py:260-266 | the machines come from the any-field search: without `-i`, a machine with any field equal to the `-m` argument (its zone, say) is found and its id is a target |
| Cli.UpdateMachineUserdata | cluster_cloudstack.py:258-274 | no record with a field equal to the `-m` argument is exit status 1 with no update; otherwise the targets are announced and an update request is handed to `make_request` for each (none in dry-run mode), and "No machine found" is printed exactly when there is no target |
| Cli.AvailableCommands | cluster_cloudstack.py:277-288 | the table maps each of the nine handler names to its handler and holds nothing else |
| Cli.GetCommand | cluster_cloudstack.py:291-295 | a name gives its handler exactly when it is one of the nine names, otherwise CommandNotFoundError naming it |
| Cli.Dispatch | cluster_cloudstack.py:304-317 | an empty argv lists the commands and runs nothing; a known first word runs its handler on the rest; an unknown one ends with exit status 2 |
| Cli.DispatchRoundTrip | cluster_cloudstack.py:310-313 | naming a command runs exactly that command on the remaining arguments |
| CloudStackClient.ProjectMachines | cluster_cloudstack/cloudstack.py:50-53 | one record per machine, in reply order, with exactly name, id, first-NIC address and zone |
| CloudStackClient.GetMachinesData | cluster_cloudstack/cloudstack.py:43-58 | the loop's result is `MachinesData` of the unwrapped reply: `[]` with the warning exactly when `virtualmachine` is missing, IndexError for a machine without NIC, else the search rule |
| CloudStackClient.MachinesDataWithTerm | cluster_cloudstack/cloudstack.py:54-57 | with a term the result is exactly the records having a field equal to it, in order and with every copy kept, and is empty exactly when none has |
| CloudStackClient.MachinesDataWithoutTerm | cluster_cloudstack/cloudstack.py:56-58 | with no term and no null field every record is returned |
| CloudStackClient.ListNetworks | cluster_cloudstack/cloudstack.py:60-71 | `list_networks` returns `NetworksOf` the reply, `[]` with the warning when `network` is missing |
| CloudStackClient.ListOsTemplates | cluster_cloudstack/cloudstack.py:73-85 | `list_os_templates` requests `templatefilter=self` and returns `TemplatesOf` the reply, `[]` with the warning when `template` is missing |
| CloudStackClient.ListServiceOffering | cluster_cloudstack/cloudstack.py:87-97 | `list_service_offering` projects name, displaytext and id and returns `OfferingsOf` the reply, filtered by name ignoring case |

## Left out

- Request signing, HTTP transport and asynchronous job polling (`monkeyrequest` and the `connector` module). These are foreign code. Each call is an input function, and the `connector` module is not part of this model.
- Configuration loading (`config.read_config`, and `CloudStack.__init__` in cluster_cloudstack/cloudstack.py:24-41, including `CloudMonkeyRegionError`). This is file I/O. The requester is constructed with its project id.
- `b64_encoded`: a file read plus library base64. The encoded user data is an opaque string.
- The argparse parsers `generate_template_parser` and `update_machine_parser`. Commands receive their parsed options as `TemplateArgs` and `UpdateArgs`.
- The display commands `list_machines`, `get_machine_info`, `list_networks`, `list_os_templates`, `list_service_offerings`, `network_info` and `help_commands`. They sort and print column-formatted text, and the model goes only as far as the listings they print.
- The text of stderr messages. Warnings are a boolean `warned`, and exits are `SystemExit` codes.
- Raw entries missing one of the keys the code reads (a `KeyError` per field). Raw entries are typed records that hold every key read. Only the missing wrapper key, the missing list key and the missing first NIC are modelled.
- `_update_machine_userdata`'s reply check and confirmation print. They read the unseen reply of `updateVirtualMachine` with a substring test. The model records the update requests sent.
- The exit with status 1 when the request library reports an error (cluster_cloudstack.py:45-47) is not carried into the commands. `Requester.CloudStackRequester.MakeRequest` models it, but every command receives a reply. In particular `Cli.UpdateEach` does not stop at a failing `updateVirtualMachine` request (cluster_cloudstack.py:251), where the source exits with status 1 after the earlier announcements and updates.
- The project id injected by `make_request` (cluster_cloudstack.py:39-40) is not part of the requests the commands hand to their calls. `Cli.UpdateMachineUserdata`'s `updates` are the requests before injection, and `Requester.WithProject` gives what is sent.
- `main`'s default of `sys.argv[1:]` when called without arguments. Dispatch takes the argument list.
- Text.LowerChar: lower-cases ASCII letters only. The names come from the decoded JSON reply and are Unicode strings, whose `.lower()` also folds non-ASCII letters. That case mapping is not modelled.
- The iteration order of a record's `values()`. Only membership in it matters, so each record lists its values in a fixed order.
