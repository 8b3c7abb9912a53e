/** The command line's request object: it injects the configured project into
    every request's parameters before handing the call to the request library,
    and turns a reported error into exit status 1. */
module Requester {
  import opened Api

  /** The parameters sent on: `projectid` is set when the configured project
      id is non-empty (Python truthiness of a string). */
  function WithProject(args: Params, projectid: string): (sent: Params)
    ensures projectid != "" ==> sent.Keys == args.Keys + {"projectid"} && sent["projectid"] == Str(projectid)
    ensures forall k :: k in args && k != "projectid" ==> k in sent && sent[k] == args[k]
    ensures projectid == "" ==> sent == args
  {
    if projectid != "" then args["projectid" := Str(projectid)] else args
  }

  /** The shared default dictionary is harmless: injecting twice is injecting once. */
  lemma WithProjectIdempotent(args: Params, projectid: string)
    ensures WithProject(WithProject(args, projectid), projectid) == WithProject(args, projectid)
  {
  }

  /** What the request library answers: a response, or an error message. */
  datatype Answer<R> = Answer(response: R, error: Option<string>)

  /** A parameter dictionary handed to `make_request`, which updates it in place. */
  class ParamSet {
    var entries: Params

    constructor (entries: Params)
      ensures this.entries == entries
    {
      this.entries := entries;
    }
  }

  class CloudStackRequester {
    /** The configured project id; the default profile sets it to ''. */
    const projectid: string
    /** Python evaluates `args={}` once, on the function: every call made
        without arguments, on any instance, receives this same dictionary.
        The program creates one requester, so a field stands for it. */
    const defaultArgs: ParamSet

    constructor (projectid: string)
      ensures this.projectid == projectid
      ensures fresh(defaultArgs) && defaultArgs.entries == map[]
    {
      this.projectid := projectid;
      defaultArgs := new ParamSet(map[]);
    }

    /** `make_request`: args is updated in place, the library is called with
        the updated parameters, and an error ends the program with status 1.
        The library (signing, transport, job polling) is the parameter
        `library`. */
    method MakeRequest<R>(command: string, args: ParamSet, library: (string, Params) -> Answer<R>)
      returns (r: Result<R>)
      modifies args
      ensures args.entries == WithProject(old(args.entries), projectid)
      ensures library(command, args.entries).error.Some? ==> r == Err(SystemExit(1))
      ensures library(command, args.entries).error.None? ==> r == Ok(library(command, args.entries).response)
    {
      if projectid != "" {
        args.entries := args.entries["projectid" := Str(projectid)];
      }
      var answer := library(command, args.entries);
      if answer.error.Some? {
        return Err(SystemExit(1));
      }
      r := Ok(answer.response);
    }

    /** A call without arguments: the shared default dictionary is updated. */
    method MakeDefaultRequest<R>(command: string, library: (string, Params) -> Answer<R>)
      returns (r: Result<R>)
      modifies defaultArgs
      ensures defaultArgs.entries == WithProject(old(defaultArgs.entries), projectid)
      ensures library(command, defaultArgs.entries).error.Some? ==> r == Err(SystemExit(1))
      ensures library(command, defaultArgs.entries).error.None? ==> r == Ok(library(command, defaultArgs.entries).response)
    {
      r := MakeRequest(command, defaultArgs, library);
    }
  }
}
