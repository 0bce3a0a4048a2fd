/** The listener registry of `request-invoice/requestinvoice.py`: the module-level
    `jobs` dictionary from port to serving thread, and the two functions that
    mutate it, `start_server` and `stop_server`. A call that raises leaves the
    dictionary as it was, so each operation returns either the new registry or
    the error it raised. */
module Registry {
  import opened Wrappers

  /** The serving thread `start_server` creates, identified by the (address, port)
      its worker binds. */
  datatype Handle = Handle(address: string, port: int)

  /** The `jobs` dictionary: at most one handle per port by construction. */
  type Jobs = map<int, Handle>

  /** The exceptions the two operations raise. */
  datatype LifecycleError =
    | AlreadyRunning(port: int)        // ValueError from start_server
    | NotRunning(port: int)            // ValueError from stop_server
    | TerminateFailed(message: string) // whatever `terminate()` raised, propagated

  /** What calling `terminate()` on a handle does: return, or raise with a message. */
  datatype Termination = Terminated | TerminateRaised(message: string)

  /** The registry a caller sees after an operation: the new one on success, the
      old one untouched when the operation raised. */
  function After(jobs: Jobs, r: Result<Jobs, LifecycleError>): Jobs {
    if r.Success? then r.value else jobs
  }

  /** Every entry other than `port` is the same in `a` and `b`. */
  predicate AgreeExcept(a: Jobs, b: Jobs, port: int) {
    && (forall p :: p in a && p != port ==> p in b && a[p] == b[p])
    && (forall p :: p in b && p != port ==> p in a)
  }

  /** `start_server(address, port)`: refuses an occupied port, otherwise registers
      a thread serving (address, port). */
  function StartServer(jobs: Jobs, address: string, port: int): (r: Result<Jobs, LifecycleError>)
    ensures r.Failure? <==> port in jobs
    ensures r.Failure? ==> r.error == AlreadyRunning(port)
    ensures r.Success? ==> r.value.Keys == jobs.Keys + {port}
    ensures r.Success? ==> r.value[port] == Handle(address, port)
    ensures r.Success? ==> forall p :: p in jobs ==> r.value[p] == jobs[p]
  {
    if port in jobs then Failure(AlreadyRunning(port))
    else Success(jobs[port := Handle(address, port)])
  }

  /** `stop_server(port)`: refuses a vacant port; otherwise calls `terminate()` on
      the registered handle and deletes the entry only if that call returned. */
  function StopServer(jobs: Jobs, port: int, terminate: Handle -> Termination): (r: Result<Jobs, LifecycleError>)
    ensures port !in jobs ==> r == Failure(NotRunning(port))
    ensures port in jobs && terminate(jobs[port]).TerminateRaised? ==>
              r == Failure(TerminateFailed(terminate(jobs[port]).message))
    ensures r.Success? <==> port in jobs && terminate(jobs[port]) == Terminated
    ensures r.Success? ==> r.value.Keys == jobs.Keys - {port}
    ensures r.Success? ==> forall p :: p in r.value ==> r.value[p] == jobs[p]
  {
    if port in jobs then
      match terminate(jobs[port])
      case Terminated => Success(jobs - {port})
      case TerminateRaised(m) => Failure(TerminateFailed(m))
    else
      Failure(NotRunning(port))
  }

  /** Both operations touch no port but their own, whatever the outcome. */
  lemma OperationsAreLocal(jobs: Jobs, address: string, port: int, terminate: Handle -> Termination)
    ensures AgreeExcept(jobs, After(jobs, StartServer(jobs, address, port)), port)
    ensures AgreeExcept(jobs, After(jobs, StopServer(jobs, port, terminate)), port)
  {
  }

  /** Start then stop on a vacant port gives back the registry it started from. */
  lemma StartThenStop(jobs: Jobs, address: string, port: int, terminate: Handle -> Termination)
    requires port !in jobs
    requires terminate(Handle(address, port)) == Terminated
    ensures StartServer(jobs, address, port).Success?
    ensures StopServer(StartServer(jobs, address, port).value, port, terminate) == Success(jobs)
  {
    var started := StartServer(jobs, address, port).value;
    assert started - {port} == jobs;
  }

  /** A successful stop frees the port: a following start succeeds, and when the
      removed handle served the same address the registry is restored. */
  lemma StopThenStart(jobs: Jobs, address: string, port: int, terminate: Handle -> Termination)
    requires StopServer(jobs, port, terminate).Success?
    ensures StartServer(StopServer(jobs, port, terminate).value, address, port).Success?
    ensures jobs[port] == Handle(address, port) ==>
              StartServer(StopServer(jobs, port, terminate).value, address, port) == Success(jobs)
  {
    var stopped := StopServer(jobs, port, terminate).value;
    if jobs[port] == Handle(address, port) {
      assert stopped[port := Handle(address, port)] == jobs;
    }
  }

  /** As written: `threading.Thread` has no `terminate` attribute, so the call on
      line 85 raises AttributeError. */
  function ThreadTerminate(h: Handle): (t: Termination)
    ensures t.TerminateRaised?
  {
    TerminateRaised("'Thread' object has no attribute 'terminate'")
  }

  /** With the thread's missing `terminate`, no stop ever succeeds, and a running
      port stays registered for the life of the process. */
  lemma ThreadStopNeverSucceeds(jobs: Jobs, port: int)
    ensures StopServer(jobs, port, ThreadTerminate).Failure?
    ensures After(jobs, StopServer(jobs, port, ThreadTerminate)) == jobs
    ensures port in jobs ==>
              StopServer(jobs, port, ThreadTerminate) ==
              Failure(TerminateFailed("'Thread' object has no attribute 'terminate'"))
  {
  }

  /** Corrected: a cooperative shutdown that signals the serving loop and closes
      the listening socket, and returns. */
  function CooperativeShutdown(h: Handle): (t: Termination)
    ensures t == Terminated
  {
    Terminated
  }

  /** With the corrected shutdown, stop succeeds exactly on running ports and
      removes exactly that port. */
  lemma CooperativeStopRemovesPort(jobs: Jobs, port: int)
    ensures StopServer(jobs, port, CooperativeShutdown).Success? <==> port in jobs
    ensures port in jobs ==> StopServer(jobs, port, CooperativeShutdown) == Success(jobs - {port})
  {
  }
}
