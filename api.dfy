/** The values the client exchanges with the cloud API: field values, the
    exceptions the command line can raise, requests, and list replies. */
module Api {

  /** A scalar field of an API object as the client sees it: a string, or
      JSON null (Python's None). */
  datatype Value = Str(s: string) | Null

  /** How `'{}'.format(v)` and `print v` render a field value. */
  function Show(v: Value): string
  {
    match v
    case Str(s) => s
    case Null => "None"
  }

  datatype Option<T> = None | Some(value: T)

  /** The exceptions the modelled code raises; `sys.exit(n)` raises
      SystemExit(n). */
  datatype Error =
    | KeyError(key: string)
    | IndexError
    | AttributeError
    | TypeError
    | SystemExit(code: int)
    | CommandNotFound(name: string)

  datatype Result<T> = Ok(value: T) | Err(error: Error)

  /** The parameter dictionary of a request. */
  type Params = map<string, Value>

  datatype Request = Request(command: string, args: Params)

  /** The object under a reply's `<command>response` key: each list key
      (`virtualmachine`, `network`, ...) that is present maps to its entries. */
  type Body<T> = map<string, seq<T>>

  /** A whole list reply: the wrapper key `<command>response` maps to its body. */
  type Envelope<T> = map<string, Body<T>>

  /** The API call the listing code issues (`make_request`, `self.listX()`):
      a request and the reply decoded from JSON. Signing, transport and job
      polling happen behind it. */
  type Call<T> = Request -> Envelope<T>

  /** An API call whose reply arrives already unwrapped: the list keys at the
      top level, with no `<command>response` wrapper around them. */
  type BodyCall<T> = Request -> Body<T>

  /** A network interface of a virtual machine. */
  datatype RawNic = RawNic(ipaddress: Value)

  /** A virtual machine entry with the keys the client reads; `extra` holds
      the keys it ignores. */
  datatype RawVm = RawVm(displayname: Value, id: Value, nic: seq<RawNic>,
                         zonename: Value, serviceofferingname: Value,
                         extra: map<string, Value>)

  datatype RawNetwork = RawNetwork(name: Value, cidr: Value, id: Value,
                                   zoneid: Value, zonename: Value,
                                   extra: map<string, Value>)

  datatype RawTemplate = RawTemplate(name: Value, displaytext: Value, zoneid: Value,
                                     id: Value, ostypename: Value, zonename: Value,
                                     extra: map<string, Value>)

  datatype RawServiceOffering = RawServiceOffering(name: Value, displaytext: Value, id: Value,
                                                   extra: map<string, Value>)
}
