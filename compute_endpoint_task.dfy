/**
 * The `compute endpoint` task (azurectl/compute_endpoint_task.py): argument
 * defaulting and dispatch of its sub-commands.
 *
 * The help text, configuration loading, the Endpoint service and the result
 * output are collaborators whose calls are recorded, in order, as events.
 * An event `ResultAdded(key, call)` stands for the endpoint call `call` and
 * the `DataCollector.add` of its result under `key`.
 */
module ComputeEndpointTasks {
  import opened Wrappers
  import opened DocoptArgs
  import PyStr

  const ManualTopic := "azurectl::compute::endpoint"
  const DefaultIdleTimeout := "4"
  const ListKey := "endpoints"
  const ShowKey := "endpoint"
  const EndpointKeyPrefix := "endpoint:"

  /** The calls made on the `Endpoint` service, with the arguments they receive. */
  datatype EndpointCall =
    | ListEndpoints
    | ShowEndpoint(name: Option<string>)
    | CreateEndpoint(name: Option<string>, port: Option<string>, instancePort: Option<string>,
                     protocol: string, idleTimeout: Option<string>)
    | DeleteEndpoint(name: Option<string>)

  /** One observable call of `process` on a collaborator. */
  datatype Event =
    | ManualShown(topic: string)
    | OutputOpened(format: ArgValue, style: ArgValue)
    | ConfigLoaded
    | InstanceSet(cloudServiceName: Option<string>, instanceName: Option<string>)
    | ResultAdded(key: string, call: EndpointCall)
    | Displayed

  /**
   * The entries of docopt's dictionary the task reads. docopt returns all of
   * them for this usage text, and `--name` whenever `create` or `delete`
   * is given (the result key is built from it).
   */
  predicate EndpointUsage(args: map<string, ArgValue>) {
    && "help" in args && "list" in args && "show" in args && "create" in args && "delete" in args && "--udp" in args
    && IsValue(args, "--cloud-service-name") && IsValue(args, "--instance-name") && IsValue(args, "--name")
    && IsValue(args, "--port") && IsValue(args, "--instance-port") && IsValue(args, "--idle-timeout")
    && ((Truthy(args["create"]) || Truthy(args["delete"])) ==> args["--name"].text.Some?)
  }

  /** The global options the output object is built from. */
  predicate OutputOptions(globalArgs: map<string, ArgValue>) {
    "--output-format" in globalArgs && "--output-style" in globalArgs
  }

  function Opt(args: map<string, ArgValue>, key: string): Option<string>
    requires IsValue(args, key)
  {
    args[key].text
  }

  /** The instance `set_instance` is given: `--instance-name`, or the cloud service name when that is absent or empty. */
  function InstanceName(args: map<string, ArgValue>): (r: Option<string>)
    requires EndpointUsage(args)
    ensures PyStr.Truthy(Opt(args, "--instance-name")) ==> r == Opt(args, "--instance-name")
    ensures !PyStr.Truthy(Opt(args, "--instance-name")) ==> r == Opt(args, "--cloud-service-name")
  {
    PyStr.Or(Opt(args, "--instance-name"), Opt(args, "--cloud-service-name"))
  }

  /**
   * The arguments of `Endpoint.create`: the instance port falls back to the
   * port, the protocol is `udp` exactly when `--udp` is set and `tcp`
   * otherwise, and the idle timeout falls back to 4 minutes.
   */
  function CreateCall(args: map<string, ArgValue>): (c: EndpointCall)
    requires EndpointUsage(args)
    ensures c.CreateEndpoint?
    ensures c.name == Opt(args, "--name") && c.port == Opt(args, "--port")
    ensures PyStr.Truthy(Opt(args, "--instance-port")) ==> c.instancePort == Opt(args, "--instance-port")
    ensures !PyStr.Truthy(Opt(args, "--instance-port")) ==> c.instancePort == Opt(args, "--port")
    ensures c.protocol == "udp" <==> Truthy(args["--udp"])
    ensures c.protocol == "tcp" <==> !Truthy(args["--udp"])
    ensures PyStr.Truthy(Opt(args, "--idle-timeout")) ==> c.idleTimeout == Opt(args, "--idle-timeout")
    ensures !PyStr.Truthy(Opt(args, "--idle-timeout")) ==> c.idleTimeout == Some(DefaultIdleTimeout)
  {
    CreateEndpoint(
      Opt(args, "--name"),
      Opt(args, "--port"),
      PyStr.Or(Opt(args, "--instance-port"), Opt(args, "--port")),
      if Truthy(args["--udp"]) then "udp" else "tcp",
      PyStr.Or(Opt(args, "--idle-timeout"), Some(DefaultIdleTimeout)))
  }

  /** `__list`. */
  function ListEvents(): seq<Event> {
    [ResultAdded(ListKey, ListEndpoints), Displayed]
  }

  /** `__show`. */
  function ShowEvents(args: map<string, ArgValue>): seq<Event>
    requires EndpointUsage(args)
  {
    [ResultAdded(ShowKey, ShowEndpoint(Opt(args, "--name"))), Displayed]
  }

  /** `__create`. */
  function CreateEvents(args: map<string, ArgValue>): seq<Event>
    requires EndpointUsage(args) && Opt(args, "--name").Some?
  {
    [ResultAdded(EndpointKeyPrefix + Opt(args, "--name").value, CreateCall(args)), Displayed]
  }

  /** `__delete`. */
  function DeleteEvents(args: map<string, ArgValue>): seq<Event>
    requires EndpointUsage(args) && Opt(args, "--name").Some?
  {
    [ResultAdded(EndpointKeyPrefix + Opt(args, "--name").value, DeleteEndpoint(Opt(args, "--name"))), Displayed]
  }

  /** The calls made before any sub-command runs, once help was not asked for. */
  function SetupEvents(globalArgs: map<string, ArgValue>, args: map<string, ArgValue>): seq<Event>
    requires EndpointUsage(args) && OutputOptions(globalArgs)
  {
    [OutputOpened(globalArgs["--output-format"], globalArgs["--output-style"]),
     ConfigLoaded,
     InstanceSet(Opt(args, "--cloud-service-name"), InstanceName(args))]
  }

  /** The calls of the sub-commands: each of list, show, create and delete whose flag is set, in that order. */
  function DispatchEvents(args: map<string, ArgValue>): seq<Event>
    requires EndpointUsage(args)
  {
    (if Truthy(args["list"]) then ListEvents() else [])
    + (if Truthy(args["show"]) then ShowEvents(args) else [])
    + (if Truthy(args["create"]) then CreateEvents(args) else [])
    + (if Truthy(args["delete"]) then DeleteEvents(args) else [])
  }

  /**
   * The calls `process` makes: the manual alone when help is asked for;
   * otherwise the set-up calls followed by the sub-commands.
   */
  function ProcessEvents(globalArgs: map<string, ArgValue>, args: map<string, ArgValue>): seq<Event>
    requires EndpointUsage(args) && OutputOptions(globalArgs)
  {
    if Truthy(args["help"]) then [ManualShown(ManualTopic)]
    else SetupEvents(globalArgs, args) + DispatchEvents(args)
  }

  /** The keys results were stored under, in the order they were added. */
  function ResultKeys(trace: seq<Event>): seq<string>
    decreases |trace|
  {
    if trace == [] then []
    else (if trace[0].ResultAdded? then [trace[0].key] else []) + ResultKeys(trace[1..])
  }

  /** The result keys the sub-command flags call for, independently of each other. */
  function ExpectedKeys(args: map<string, ArgValue>): seq<string>
    requires EndpointUsage(args)
  {
    (if Truthy(args["list"]) then [ListKey] else [])
    + (if Truthy(args["show"]) then [ShowKey] else [])
    + (if Truthy(args["create"]) then [EndpointKeyPrefix + Opt(args, "--name").value] else [])
    + (if Truthy(args["delete"]) then [EndpointKeyPrefix + Opt(args, "--name").value] else [])
  }

  /** Every stored result is displayed right away, and nothing is displayed that was not just stored. */
  predicate Paired(trace: seq<Event>)
    decreases |trace|
  {
    if trace == [] then true
    else if trace[0].ResultAdded? then |trace| >= 2 && trace[1] == Displayed && Paired(trace[2..])
    else trace[0] != Displayed && Paired(trace[1..])
  }

  lemma {:induction false} ResultKeysAppend(a: seq<Event>, b: seq<Event>)
    ensures ResultKeys(a + b) == ResultKeys(a) + ResultKeys(b)
    decreases |a|
  {
    if a != [] {
      assert (a + b)[1..] == a[1..] + b;
      ResultKeysAppend(a[1..], b);
    } else {
      assert a + b == b;
    }
  }

  lemma {:induction false} PairedAppend(a: seq<Event>, b: seq<Event>)
    requires Paired(a) && Paired(b)
    ensures Paired(a + b)
    decreases |a|
  {
    if a == [] {
      assert a + b == b;
    } else if a[0].ResultAdded? {
      assert (a + b)[2..] == a[2..] + b;
      PairedAppend(a[2..], b);
    } else {
      assert (a + b)[1..] == a[1..] + b;
      PairedAppend(a[1..], b);
    }
  }

  /** A stretch of calls that stores no result contributes no key. */
  lemma {:induction false} ResultKeysNone(t: seq<Event>)
    requires forall i :: 0 <= i < |t| ==> !t[i].ResultAdded?
    ensures ResultKeys(t) == []
    decreases |t|
  {
    if t != [] {
      ResultKeysNone(t[1..]);
    }
  }

  /** A stretch of calls that neither stores nor displays a result is trivially paired. */
  lemma {:induction false} PairedNoResults(t: seq<Event>)
    requires forall i :: 0 <= i < |t| ==> !t[i].ResultAdded? && t[i] != Displayed
    ensures Paired(t)
    decreases |t|
  {
    if t != [] {
      PairedNoResults(t[1..]);
    }
  }

  /** A sub-command's calls, present or not, contribute its key exactly when it ran, and are paired. */
  lemma PieceFacts(ran: bool, key: string, call: EndpointCall)
    ensures var p := if ran then [ResultAdded(key, call), Displayed] else [];
      ResultKeys(p) == (if ran then [key] else []) && Paired(p)
  {
    if ran {
      var t := [ResultAdded(key, call), Displayed];
      assert t[1..] == [Displayed];
      assert t[2..] == [];
      ResultKeysNone([Displayed]);
    }
  }

  /** The sub-commands store one result per set flag, under the keys `ExpectedKeys` lists, each one displayed. */
  lemma DispatchKeys(args: map<string, ArgValue>)
    requires EndpointUsage(args)
    ensures ResultKeys(DispatchEvents(args)) == ExpectedKeys(args)
    ensures Paired(DispatchEvents(args))
  {
    var l := if Truthy(args["list"]) then ListEvents() else [];
    var sh := if Truthy(args["show"]) then ShowEvents(args) else [];
    var c := if Truthy(args["create"]) then CreateEvents(args) else [];
    var d := if Truthy(args["delete"]) then DeleteEvents(args) else [];
    PieceFacts(Truthy(args["list"]), ListKey, ListEndpoints);
    PieceFacts(Truthy(args["show"]), ShowKey, ShowEndpoint(Opt(args, "--name")));
    if Truthy(args["create"]) {
      PieceFacts(true, EndpointKeyPrefix + Opt(args, "--name").value, CreateCall(args));
    }
    if Truthy(args["delete"]) {
      PieceFacts(true, EndpointKeyPrefix + Opt(args, "--name").value, DeleteEndpoint(Opt(args, "--name")));
    }
    ResultKeysNone([]);
    ResultKeysAppend(l, sh);
    ResultKeysAppend(l + sh, c);
    ResultKeysAppend(l + sh + c, d);
    PairedAppend(l, sh);
    PairedAppend(l + sh, c);
    PairedAppend(l + sh + c, d);
  }

  /** With help asked for, `process` shows the manual and makes no other call. */
  lemma HelpShortCircuits(globalArgs: map<string, ArgValue>, args: map<string, ArgValue>)
    requires EndpointUsage(args) && OutputOptions(globalArgs)
    requires Truthy(args["help"])
    ensures ProcessEvents(globalArgs, args) == [ManualShown(ManualTopic)]
    ensures ConfigLoaded !in ProcessEvents(globalArgs, args)
    ensures ResultKeys(ProcessEvents(globalArgs, args)) == []
  {
    ResultKeysNone([ManualShown(ManualTopic)]);
  }

  /**
   * Without help, the set-up calls come first, the instance is chosen with
   * its fallback, and one result is stored per set flag, in the order list,
   * show, create, delete, each displayed right after it is stored.
   */
  lemma DispatchIndependent(globalArgs: map<string, ArgValue>, args: map<string, ArgValue>)
    requires EndpointUsage(args) && OutputOptions(globalArgs)
    requires !Truthy(args["help"])
    ensures var t := ProcessEvents(globalArgs, args);
      && |t| >= 3 && t[1] == ConfigLoaded
      && t[2] == InstanceSet(Opt(args, "--cloud-service-name"), InstanceName(args))
      && ResultKeys(t) == ExpectedKeys(args)
      && Paired(t)
  {
    var s := SetupEvents(globalArgs, args);
    DispatchKeys(args);
    ResultKeysNone(s);
    ResultKeysAppend(s, DispatchEvents(args));
    PairedNoResults(s);
    PairedAppend(s, DispatchEvents(args));
  }

  /** A stored create result holds exactly the defaulted arguments of `CreateCall`, under the endpoint's key. */
  lemma CreateUsesDefaults(args: map<string, ArgValue>)
    requires EndpointUsage(args)
    requires Truthy(args["create"])
    ensures ResultAdded(EndpointKeyPrefix + Opt(args, "--name").value, CreateCall(args)) in DispatchEvents(args)
    ensures forall e :: e in DispatchEvents(args) && e.ResultAdded? && e.call.CreateEndpoint? ==> e.call == CreateCall(args)
  {
    var l := if Truthy(args["list"]) then ListEvents() else [];
    var sh := if Truthy(args["show"]) then ShowEvents(args) else [];
    var c := CreateEvents(args);
    var d := if Truthy(args["delete"]) then DeleteEvents(args) else [];
    assert DispatchEvents(args) == l + sh + c + d;
    assert c[0] in DispatchEvents(args);
  }

  /** Four appends in a row append the concatenation of what they append. */
  lemma AppendChain(t0: seq<Event>, t1: seq<Event>, t2: seq<Event>, t3: seq<Event>, t4: seq<Event>,
                    a: seq<Event>, b: seq<Event>, c: seq<Event>, d: seq<Event>)
    requires t1 == t0 + a && t2 == t1 + b && t3 == t2 + c && t4 == t3 + d
    ensures t4 == t0 + (a + b + c + d)
  {
  }

  /**
   * The task object: the global and command arguments it was given, and the
   * calls it has made so far on its collaborators.
   */
  class ComputeEndpointTask {
    const globalArgs: map<string, ArgValue>
    const commandArgs: map<string, ArgValue>
    var trace: seq<Event>

    predicate Valid() {
      EndpointUsage(commandArgs) && OutputOptions(globalArgs)
    }

    constructor (globalArgs: map<string, ArgValue>, commandArgs: map<string, ArgValue>)
      requires EndpointUsage(commandArgs) && OutputOptions(globalArgs)
      ensures Valid() && this.globalArgs == globalArgs && this.commandArgs == commandArgs && trace == []
    {
      this.globalArgs := globalArgs;
      this.commandArgs := commandArgs;
      trace := [];
    }

    /** `process`. */
    method Process()
      requires Valid()
      modifies this
      ensures trace == old(trace) + ProcessEvents(globalArgs, commandArgs)
    {
      var help := Help();
      if help {
        return;
      }
      trace := trace + [OutputOpened(globalArgs["--output-format"], globalArgs["--output-style"])];
      trace := trace + [ConfigLoaded];
      trace := trace + [InstanceSet(Opt(commandArgs, "--cloud-service-name"), InstanceName(commandArgs))];
      ghost var setup := trace;
      Dispatch();
      assert ProcessEvents(globalArgs, commandArgs) == SetupEvents(globalArgs, commandArgs) + DispatchEvents(commandArgs);
      assert setup == old(trace) + SetupEvents(globalArgs, commandArgs);
    }

    /** The four independent sub-command checks at the end of `process`. */
    method Dispatch()
      requires Valid()
      modifies this
      ensures trace == old(trace) + DispatchEvents(commandArgs)
    {
      ghost var l := if Truthy(commandArgs["list"]) then ListEvents() else [];
      ghost var sh := if Truthy(commandArgs["show"]) then ShowEvents(commandArgs) else [];
      ghost var c := if Truthy(commandArgs["create"]) then CreateEvents(commandArgs) else [];
      ghost var d := if Truthy(commandArgs["delete"]) then DeleteEvents(commandArgs) else [];
      ghost var t0 := trace;
      if Truthy(commandArgs["list"]) {
        List();
      }
      ghost var t1 := trace;
      assert t1 == t0 + l;
      if Truthy(commandArgs["show"]) {
        Show();
      }
      ghost var t2 := trace;
      assert t2 == t1 + sh;
      if Truthy(commandArgs["create"]) {
        Create();
      }
      ghost var t3 := trace;
      assert t3 == t2 + c;
      if Truthy(commandArgs["delete"]) {
        Delete();
      }
      assert trace == t3 + d;
      AppendChain(t0, t1, t2, t3, trace, l, sh, c, d);
      assert DispatchEvents(commandArgs) == l + sh + c + d;
    }

    /** `__help`: shows the manual and reports true when help is asked for. */
    method Help() returns (shown: bool)
      requires Valid()
      modifies this
      ensures shown == Truthy(commandArgs["help"])
      ensures trace == old(trace) + (if shown then [ManualShown(ManualTopic)] else [])
    {
      shown := Truthy(commandArgs["help"]);
      if shown {
        trace := trace + [ManualShown(ManualTopic)];
      }
    }

    /** `__list`. */
    method List()
      requires Valid()
      modifies this
      ensures trace == old(trace) + ListEvents()
    {
      trace := trace + [ResultAdded(ListKey, ListEndpoints)];
      trace := trace + [Displayed];
    }

    /** `__show`. */
    method Show()
      requires Valid()
      modifies this
      ensures trace == old(trace) + ShowEvents(commandArgs)
    {
      trace := trace + [ResultAdded(ShowKey, ShowEndpoint(Opt(commandArgs, "--name")))];
      trace := trace + [Displayed];
    }

    /** `__create`. */
    method Create()
      requires Valid() && Opt(commandArgs, "--name").Some?
      modifies this
      ensures trace == old(trace) + CreateEvents(commandArgs)
    {
      var call := CreateCall(commandArgs);
      trace := trace + [ResultAdded(EndpointKeyPrefix + Opt(commandArgs, "--name").value, call)];
      trace := trace + [Displayed];
    }

    /** `__delete`. */
    method Delete()
      requires Valid() && Opt(commandArgs, "--name").Some?
      modifies this
      ensures trace == old(trace) + DeleteEvents(commandArgs)
    {
      trace := trace + [ResultAdded(EndpointKeyPrefix + Opt(commandArgs, "--name").value, DeleteEndpoint(Opt(commandArgs, "--name")))];
      trace := trace + [Displayed];
    }
  }
}
