/** The `invoiceserver` plugin command of `request-invoice/requestinvoice.py`:
    it maps a command word onto the registry operations and renders their
    outcome as a human-readable string. Start and stop errors are caught and
    rendered; the two calls made by "restart" are not, so their exception
    reaches the caller. The plugin's `init` hook is one start on an empty
    registry. */
module Control {
  import opened Wrappers
  import opened Decimal
  import opened Registry

  datatype Command = Start | Stop | Status | Restart

  /** The command word, defaulting to "start" when absent (the parameter's
      default) or when it is not one of the four known words. */
  function ParseCommand(command: Option<string>): (c: Command)
    ensures command.Some? && command.value == "stop" ==> c == Stop
    ensures command.Some? && command.value == "status" ==> c == Status
    ensures command.Some? && command.value == "restart" ==> c == Restart
    ensures c == Start <==>
              command.None? || command.value !in {"stop", "status", "restart"}
  {
    match command
    case None => Start
    case Some(w) =>
      if w == "stop" then Stop
      else if w == "status" then Status
      else if w == "restart" then Restart
      else Start
  }

  /** What the plugin command hands back to its caller: a string, or an exception. */
  datatype Reply = Returned(text: string) | Raised(error: LifecycleError)

  /** The reply together with the registry it leaves behind. */
  datatype Outcome = Outcome(reply: Reply, jobs: Jobs)

  /** `str(e)` of the exceptions the registry operations raise: the two
      ValueErrors end with the port they name, and a raised `terminate` keeps
      its own message. */
  function ErrorMessage(e: LifecycleError): (m: string)
    ensures e.TerminateFailed? ==> m == e.message
    ensures !e.TerminateFailed? ==>
              |IntToString(e.port)| <= |m| && m[|m| - |IntToString(e.port)|..] == IntToString(e.port)
  {
    match e
    case AlreadyRunning(p) => "server already running on port " + IntToString(p)
    case NotRunning(p) => "No server listening on port " + IntToString(p)
    case TerminateFailed(m) => m
  }

  /** The two ValueError messages tell apart which check failed and on which port. */
  lemma ValueErrorMessagesDiffer(a: LifecycleError, b: LifecycleError)
    requires !a.TerminateFailed? && !b.TerminateFailed?
    ensures ErrorMessage(a) == ErrorMessage(b) <==> a == b
  {
    if ErrorMessage(a) == ErrorMessage(b) {
      assert ErrorMessage(a)[0] == ErrorMessage(b)[0];
      assert a.AlreadyRunning? <==> b.AlreadyRunning?;
      var n := if a.AlreadyRunning? then |"server already running on port "| else |"No server listening on port "|;
      assert IntToString(a.port) == ErrorMessage(a)[n..];
      assert IntToString(b.port) == ErrorMessage(b)[n..];
      IntToStringInjective(a.port, b.port);
    }
  }

  function ActiveText(port: int): string {
    "Invoice server active on port " + IntToString(port)
  }

  const InactiveText: string := "Invoice server not active."

  const RestartedText: string := "Invoice server restarted"

  /** The "start" branch: the start error is caught and rendered. */
  function StartCommand(jobs: Jobs, address: string, port: int): (o: Outcome)
    ensures o.reply.Returned?
    ensures port in jobs ==>
              o == Outcome(Returned("Error starting server on port " + IntToString(port) + ": " +
                                    ErrorMessage(AlreadyRunning(port))), jobs)
    ensures port !in jobs ==>
              && o.reply == Returned("Invoice server started successfully on port " + IntToString(port))
              && o.jobs.Keys == jobs.Keys + {port}
              && o.jobs[port] == Handle(address, port)
              && forall p :: p in jobs ==> o.jobs[p] == jobs[p]
  {
    match StartServer(jobs, address, port)
    case Success(started) =>
      Outcome(Returned("Invoice server started successfully on port " + IntToString(port)), started)
    case Failure(e) =>
      Outcome(Returned("Error starting server on port " + IntToString(port) + ": " + ErrorMessage(e)), jobs)
  }

  /** The "stop" branch: the stop error, including one raised by `terminate`,
      is caught and rendered. */
  function StopCommand(jobs: Jobs, port: int, terminate: Handle -> Termination): (o: Outcome)
    ensures o.reply.Returned?
    ensures port !in jobs ==>
              o == Outcome(Returned("Could not stop server on port " + IntToString(port) + ": " +
                                    ErrorMessage(NotRunning(port))), jobs)
    ensures port in jobs && terminate(jobs[port]).TerminateRaised? ==>
              o == Outcome(Returned("Could not stop server on port " + IntToString(port) + ": " +
                                    terminate(jobs[port]).message), jobs)
    ensures port in jobs && terminate(jobs[port]) == Terminated ==>
              && o.reply == Returned("Invoice server stopped on port " + IntToString(port))
              && o.jobs.Keys == jobs.Keys - {port}
              && forall p :: p in o.jobs ==> o.jobs[p] == jobs[p]
  {
    match StopServer(jobs, port, terminate)
    case Success(stopped) =>
      Outcome(Returned("Invoice server stopped on port " + IntToString(port)), stopped)
    case Failure(e) =>
      Outcome(Returned("Could not stop server on port " + IntToString(port) + ": " + ErrorMessage(e)), jobs)
  }

  function StatusCommand(jobs: Jobs, port: int): (o: Outcome)
    ensures o.jobs == jobs
    ensures o.reply.Returned?
  {
    Outcome(Returned(if port in jobs then ActiveText(port) else InactiveText), jobs)
  }

  /** Stop then start, neither guarded: the first exception propagates with the
      registry as that call left it. */
  function RestartCommand(jobs: Jobs, address: string, port: int, terminate: Handle -> Termination): (o: Outcome)
    ensures o.reply.Raised? ==> o.jobs == jobs && StopServer(jobs, port, terminate) == Failure(o.reply.error)
    ensures o.reply.Returned? <==> port in jobs && terminate(jobs[port]) == Terminated
    ensures o.reply.Returned? ==>
              && o.reply.text == RestartedText
              && o.jobs.Keys == jobs.Keys
              && o.jobs[port] == Handle(address, port)
              && forall p :: p in jobs && p != port ==> o.jobs[p] == jobs[p]
  {
    match StopServer(jobs, port, terminate)
    case Failure(e) => Outcome(Raised(e), jobs)
    case Success(stopped) =>
      match StartServer(stopped, address, port)
      case Failure(e) => Outcome(Raised(e), stopped)
      case Success(started) => Outcome(Returned(RestartedText), started)
  }

  /** `invoiceserver(command)` on the configured (address, port). Only the
      configured port can change, and only "restart" can raise. */
  function InvoiceServer(jobs: Jobs, address: string, port: int, command: Option<string>,
                         terminate: Handle -> Termination): (o: Outcome)
    ensures AgreeExcept(jobs, o.jobs, port)
    ensures o.reply.Raised? ==> ParseCommand(command) == Restart && o.jobs == jobs
    ensures port in o.jobs && (port !in jobs || o.jobs[port] != jobs[port]) ==>
              o.jobs[port] == Handle(address, port)
  {
    match ParseCommand(command)
    case Start => StartCommand(jobs, address, port)
    case Stop => StopCommand(jobs, port, terminate)
    case Status => StatusCommand(jobs, port)
    case Restart => RestartCommand(jobs, address, port, terminate)
  }

  /** Any word outside {start, stop, status, restart}, and no word at all,
      behaves exactly as "start". */
  lemma UnknownCommandIsStart(jobs: Jobs, address: string, port: int, command: Option<string>,
                              terminate: Handle -> Termination)
    requires command.None? || command.value !in {"start", "stop", "status", "restart"}
    ensures InvoiceServer(jobs, address, port, command, terminate) ==
            InvoiceServer(jobs, address, port, Some("start"), terminate)
  {
  }

  /** Start and stop failures come back as strings and leave the registry alone;
      on success start registers the port and stop removes it. */
  lemma StartStopNeverRaise(jobs: Jobs, address: string, port: int, terminate: Handle -> Termination)
    ensures var o := InvoiceServer(jobs, address, port, Some("start"), terminate);
            && o.reply.Returned?
            && (port in jobs ==> o.jobs == jobs)
            && (port !in jobs ==> port in o.jobs && o.jobs[port] == Handle(address, port))
    ensures var o := InvoiceServer(jobs, address, port, Some("stop"), terminate);
            && o.reply.Returned?
            && (port !in jobs ==> o.jobs == jobs)
            && (port in jobs ==> (port !in o.jobs <==> terminate(jobs[port]) == Terminated))
            && (port in o.jobs ==> o.jobs == jobs)
  {
  }

  /** The exact strings a failed start or stop returns. */
  lemma FailureTexts(jobs: Jobs, address: string, port: int, terminate: Handle -> Termination)
    ensures port in jobs ==>
              InvoiceServer(jobs, address, port, Some("start"), terminate).reply ==
              Returned("Error starting server on port " + IntToString(port) + ": " +
                       ("server already running on port " + IntToString(port)))
    ensures port !in jobs ==>
              InvoiceServer(jobs, address, port, Some("stop"), terminate).reply ==
              Returned("Could not stop server on port " + IntToString(port) + ": " +
                       ("No server listening on port " + IntToString(port)))
  {
    if port in jobs {
      assert InvoiceServer(jobs, address, port, Some("start"), terminate) == StartCommand(jobs, address, port);
    } else {
      assert InvoiceServer(jobs, address, port, Some("stop"), terminate) == StopCommand(jobs, port, terminate);
    }
  }

  /** "status" reports membership of the configured port, names that port, and
      changes nothing. */
  lemma StatusReportsMembership(jobs: Jobs, address: string, port: int, other: int,
                                terminate: Handle -> Termination)
    ensures var o := InvoiceServer(jobs, address, port, Some("status"), terminate);
            && o.jobs == jobs
            && (o.reply == Returned(ActiveText(port)) <==> port in jobs)
            && (o.reply == Returned(InactiveText) <==> port !in jobs)
    ensures ActiveText(port) == ActiveText(other) <==> port == other
  {
    var o := InvoiceServer(jobs, address, port, Some("status"), terminate);
    assert ActiveText(port)[..14] == "Invoice server";
    assert ActiveText(port)[15] == 'a' != InactiveText[15];
    if ActiveText(port) == ActiveText(other) {
      var n := |"Invoice server active on port "|;
      assert IntToString(port) == ActiveText(port)[n..];
      assert IntToString(other) == ActiveText(other)[n..];
    }
    IntToStringInjective(port, other);
  }

  /** Restart on a running port whose handle terminates is stop then start: the
      port is registered afterwards, serving the configured address. */
  lemma RestartOnRunningPort(jobs: Jobs, address: string, port: int, terminate: Handle -> Termination)
    requires port in jobs
    requires terminate(jobs[port]) == Terminated
    ensures var o := InvoiceServer(jobs, address, port, Some("restart"), terminate);
            && o.reply == Returned(RestartedText)
            && Success(o.jobs) == StartServer(StopServer(jobs, port, terminate).value, address, port)
            && port in o.jobs
            && o.jobs[port] == Handle(address, port)
  {
  }

  /** Restart on a vacant port raises the stop error, never attempts the start,
      and leaves the registry as it was; a raising `terminate` likewise. */
  lemma RestartFailures(jobs: Jobs, address: string, port: int, terminate: Handle -> Termination)
    ensures port !in jobs ==>
              InvoiceServer(jobs, address, port, Some("restart"), terminate) ==
              Outcome(Raised(NotRunning(port)), jobs)
    ensures port in jobs && terminate(jobs[port]).TerminateRaised? ==>
              InvoiceServer(jobs, address, port, Some("restart"), terminate) ==
              Outcome(Raised(TerminateFailed(terminate(jobs[port]).message)), jobs)
  {
  }

  /** The registry shape the plugin maintains: nothing but the configured port,
      served on the configured address. */
  predicate Configured(jobs: Jobs, address: string, port: int) {
    && jobs.Keys <= {port}
    && forall p :: p in jobs ==> jobs[p] == Handle(address, port)
  }

  /** The `init` hook: `start_server` on the process's empty `jobs`. */
  function Init(address: string, port: int): (r: Result<Jobs, LifecycleError>)
    ensures r.Success?
    ensures Configured(r.value, address, port) && port in r.value
  {
    StartServer(map[], address, port)
  }

  /** The registry after a sequence of `invoiceserver` calls; a raised exception
      ends that call only, and the plugin keeps serving later ones. */
  function Run(jobs: Jobs, address: string, port: int, commands: seq<Option<string>>,
               terminate: Handle -> Termination): (final: Jobs)
    ensures AgreeExcept(jobs, final, port)
    decreases |commands|
  {
    if |commands| == 0 then jobs
    else Run(InvoiceServer(jobs, address, port, commands[0], terminate).jobs,
             address, port, commands[1..], terminate)
  }

  /** Whatever commands arrive after `init`, the registry holds at most the
      configured port, bound to the configured address. */
  lemma {:induction false} RunStaysConfigured(jobs: Jobs, address: string, port: int,
                                             commands: seq<Option<string>>,
                                             terminate: Handle -> Termination)
    requires Configured(jobs, address, port)
    ensures Configured(Run(jobs, address, port, commands, terminate), address, port)
    decreases |commands|
  {
    if |commands| > 0 {
      var next := InvoiceServer(jobs, address, port, commands[0], terminate).jobs;
      assert Configured(next, address, port);
      RunStaysConfigured(next, address, port, commands[1..], terminate);
    }
  }

  /** With the thread's missing `terminate`, once `init` has run neither "stop"
      nor "restart" ever frees the port. */
  lemma {:induction false} ThreadListenerNeverStops(jobs: Jobs, address: string, port: int,
                                                   commands: seq<Option<string>>)
    requires port in jobs
    ensures port in Run(jobs, address, port, commands, ThreadTerminate)
    decreases |commands|
  {
    if |commands| > 0 {
      var o := InvoiceServer(jobs, address, port, commands[0], ThreadTerminate);
      ThreadStopNeverSucceeds(jobs, port);
      assert port in o.jobs;
      ThreadListenerNeverStops(o.jobs, address, port, commands[1..]);
    }
  }

  /** With the thread's missing `terminate`, "stop" on a running port returns the
      AttributeError text and keeps the port registered. */
  lemma ThreadStopReply(jobs: Jobs, address: string, port: int)
    requires port in jobs
    ensures InvoiceServer(jobs, address, port, Some("stop"), ThreadTerminate) ==
            Outcome(Returned("Could not stop server on port " + IntToString(port) + ": " +
                             "'Thread' object has no attribute 'terminate'"), jobs)
  {
  }

  /** With the corrected shutdown, restart on a running port succeeds. */
  lemma CooperativeRestartSucceeds(jobs: Jobs, address: string, port: int)
    requires port in jobs
    ensures InvoiceServer(jobs, address, port, Some("restart"), CooperativeShutdown).reply ==
            Returned(RestartedText)
  {
  }
}
