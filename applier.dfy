/**
 * The agent's concrete applier: applying an apply spec runs the job
 * applier over every job in order, then the package applier over every
 * package in order, stopping at the first error, and finally sets up
 * log rotation.
 *
 * The job applier, package applier and logrotate delegate do filesystem
 * and process work; here each is an oracle from its argument to an
 * optional error, and every call made to them is recorded in a trace.
 */
module Applier {
  import opened Wrappers

  datatype Job = Job(name: string, version: string)
  datatype Package = Package(name: string, version: string)

  /** What `Jobs()`, `Packages()` and `MaxLogFileSize()` of an apply spec return. */
  datatype ApplySpec = ApplySpec(jobs: seq<Job>, packages: seq<Package>, maxLogFileSize: string)

  /** A Go error: a message of its own, or another error wrapped with a message. */
  datatype Error = Error(message: string) | Wrapped(cause: Error, message: string)

  /** A call made to one of the collaborators. */
  datatype Call =
    | ApplyJob(job: Job)
    | ApplyPackage(pkg: Package)
    | SetupLogrotate(groupName: string, basePath: string, size: string)

  /** Each collaborator answers a call with nil (`None`) or an error. */
  type JobApplier = Job -> Option<Error>
  type PackageApplier = Package -> Option<Error>
  type LogrotateDelegate = (string, string, string) -> Option<Error>

  /** `boshsettings.VCAP_USERNAME` and `boshsettings.VCAP_BASE_DIR`. */
  const VcapUsername: string := "vcap"
  const VcapBaseDir: string := "/var/vcap"

  const LogrotateFailedMessage: string := "Logrotate setup failed"

  /** The one logrotate call an apply makes. */
  function LogrotateCall(spec: ApplySpec): Call
  {
    SetupLogrotate(VcapUsername, VcapBaseDir, spec.maxLogFileSize)
  }

  /** The index of the first item `apply` fails on, or `|items|` when it fails on none. */
  function FirstFailure<T>(apply: T -> Option<Error>, items: seq<T>): (k: nat)
    ensures k <= |items|
    ensures forall i :: 0 <= i < k ==> apply(items[i]).None?
    ensures k < |items| ==> apply(items[k]).Some?
  {
    if items == [] then 0
    else if apply(items[0]).Some? then 0
    else 1 + FirstFailure(apply, items[1..])
  }

  predicate AllSucceed<T>(apply: T -> Option<Error>, items: seq<T>)
  {
    forall i :: 0 <= i < |items| ==> apply(items[i]).None?
  }

  /** `FirstFailure` is the one index where every earlier item succeeds and the item there fails. */
  lemma FirstFailureIs<T>(apply: T -> Option<Error>, items: seq<T>, i: nat)
    requires i <= |items|
    requires forall k :: 0 <= k < i ==> apply(items[k]).None?
    requires i < |items| ==> apply(items[i]).Some?
    ensures FirstFailure(apply, items) == i
  {
  }

  /** The trace of applying `jobs` one after the other. */
  function JobCalls(jobs: seq<Job>): (calls: seq<Call>)
  {
    seq(|jobs|, i requires 0 <= i < |jobs| => ApplyJob(jobs[i]))
  }

  /** The trace of applying `packages` one after the other. */
  function PackageCalls(packages: seq<Package>): (calls: seq<Call>)
  {
    seq(|packages|, i requires 0 <= i < |packages| => ApplyPackage(packages[i]))
  }

  lemma JobCallsExtend(jobs: seq<Job>, i: nat)
    requires i < |jobs|
    ensures JobCalls(jobs[..i + 1]) == JobCalls(jobs[..i]) + [ApplyJob(jobs[i])]
  {
    assert jobs[..i + 1][..i] == jobs[..i];
  }

  lemma PackageCallsExtend(packages: seq<Package>, i: nat)
    requires i < |packages|
    ensures PackageCalls(packages[..i + 1]) == PackageCalls(packages[..i]) + [ApplyPackage(packages[i])]
  {
    assert packages[..i + 1][..i] == packages[..i];
  }

  /** `bosherr.WrapError(err, "Logrotate setup failed")` applied to a non-nil delegate answer. */
  function WrapLogrotateError(answer: Option<Error>): Option<Error>
  {
    match answer
    case None => None
    case Some(e) => Some(Wrapped(e, LogrotateFailedMessage))
  }

  /** What `setUpLogrotate` returns: nil, or the delegate's error wrapped with a fixed message. */
  function LogrotateResult(logrotateDelegate: LogrotateDelegate, spec: ApplySpec): (err: Option<Error>)
    ensures err.None? <==> logrotateDelegate(VcapUsername, VcapBaseDir, spec.maxLogFileSize).None?
    ensures err.Some? ==>
      err.value == Wrapped(logrotateDelegate(VcapUsername, VcapBaseDir, spec.maxLogFileSize).value, LogrotateFailedMessage)
  {
    WrapLogrotateError(logrotateDelegate(VcapUsername, VcapBaseDir, spec.maxLogFileSize))
  }

  /** What `Apply` returns. */
  function ApplyResult(jobApplier: JobApplier, packageApplier: PackageApplier,
                       logrotateDelegate: LogrotateDelegate, spec: ApplySpec): Option<Error>
  {
    var j := FirstFailure(jobApplier, spec.jobs);
    if j < |spec.jobs| then jobApplier(spec.jobs[j])
    else
      var p := FirstFailure(packageApplier, spec.packages);
      if p < |spec.packages| then packageApplier(spec.packages[p])
      else LogrotateResult(logrotateDelegate, spec)
  }

  /** The calls `Apply` makes to its collaborators, in order. */
  function ApplyCalls(jobApplier: JobApplier, packageApplier: PackageApplier, spec: ApplySpec): seq<Call>
  {
    var j := FirstFailure(jobApplier, spec.jobs);
    if j < |spec.jobs| then JobCalls(spec.jobs[..j + 1])
    else
      var p := FirstFailure(packageApplier, spec.packages);
      if p < |spec.packages| then JobCalls(spec.jobs) + PackageCalls(spec.packages[..p + 1])
      else JobCalls(spec.jobs) + PackageCalls(spec.packages) + [LogrotateCall(spec)]
  }

  /** The answer a collaborator gives to `call`, as `Apply` would report it. */
  function Reported(jobApplier: JobApplier, packageApplier: PackageApplier,
                    logrotateDelegate: LogrotateDelegate, call: Call): Option<Error>
  {
    match call
    case ApplyJob(job) => jobApplier(job)
    case ApplyPackage(pkg) => packageApplier(pkg)
    case SetupLogrotate(groupName, basePath, size) => WrapLogrotateError(logrotateDelegate(groupName, basePath, size))
  }

  // ---------------------------------------------------------------------------
  // Properties of Apply

  /**
   * Jobs come first: the i-th call is a job call only for the i-th job, and
   * no job call follows a call of another kind.
   */
  lemma JobsAppliedInOrderFirst(jobApplier: JobApplier, packageApplier: PackageApplier, spec: ApplySpec)
    ensures var calls := ApplyCalls(jobApplier, packageApplier, spec);
      forall i :: 0 <= i < |calls| && calls[i].ApplyJob? ==> i < |spec.jobs| && calls[i] == ApplyJob(spec.jobs[i])
    ensures var calls := ApplyCalls(jobApplier, packageApplier, spec);
      forall i, k :: 0 <= i < k < |calls| && calls[k].ApplyJob? ==> calls[i].ApplyJob?
  {
  }

  /** A failing job ends the apply: its error is returned and nothing after it is called. */
  lemma JobFailureShortCircuits(jobApplier: JobApplier, packageApplier: PackageApplier,
                                logrotateDelegate: LogrotateDelegate, spec: ApplySpec, i: nat)
    requires i < |spec.jobs| && jobApplier(spec.jobs[i]).Some?
    requires forall k :: 0 <= k < i ==> jobApplier(spec.jobs[k]).None?
    ensures ApplyResult(jobApplier, packageApplier, logrotateDelegate, spec) == jobApplier(spec.jobs[i])
    ensures ApplyCalls(jobApplier, packageApplier, spec) == JobCalls(spec.jobs[..i + 1])
    ensures forall c :: c in ApplyCalls(jobApplier, packageApplier, spec) ==> c.ApplyJob?
  {
  }

  /**
   * Packages are applied only once every job succeeded, right after the
   * jobs, in the order of the spec.
   */
  lemma PackagesOnlyAfterAllJobs(jobApplier: JobApplier, packageApplier: PackageApplier, spec: ApplySpec)
    ensures var calls := ApplyCalls(jobApplier, packageApplier, spec);
      forall i :: 0 <= i < |calls| && calls[i].ApplyPackage? ==>
        && AllSucceed(jobApplier, spec.jobs)
        && |spec.jobs| <= i < |spec.jobs| + |spec.packages|
        && calls[i] == ApplyPackage(spec.packages[i - |spec.jobs|])
    ensures var calls := ApplyCalls(jobApplier, packageApplier, spec);
      AllSucceed(jobApplier, spec.jobs) ==> |spec.jobs| < |calls| && calls[..|spec.jobs|] == JobCalls(spec.jobs)
  {
  }

  /** A failing package ends the apply: its error is returned and logrotate is not set up. */
  lemma PackageFailureShortCircuits(jobApplier: JobApplier, packageApplier: PackageApplier,
                                    logrotateDelegate: LogrotateDelegate, spec: ApplySpec, p: nat)
    requires AllSucceed(jobApplier, spec.jobs)
    requires p < |spec.packages| && packageApplier(spec.packages[p]).Some?
    requires forall k :: 0 <= k < p ==> packageApplier(spec.packages[k]).None?
    ensures ApplyResult(jobApplier, packageApplier, logrotateDelegate, spec) == packageApplier(spec.packages[p])
    ensures ApplyCalls(jobApplier, packageApplier, spec) == JobCalls(spec.jobs) + PackageCalls(spec.packages[..p + 1])
    ensures forall c :: c in ApplyCalls(jobApplier, packageApplier, spec) ==> !c.SetupLogrotate?
  {
  }

  /**
   * Logrotate is set up exactly when every job and package succeeded, then
   * exactly once, as the last call, with the vcap user, the vcap base dir
   * and the spec's maximum log file size.
   */
  lemma LogrotateCalledOnceLast(jobApplier: JobApplier, packageApplier: PackageApplier, spec: ApplySpec)
    ensures var calls := ApplyCalls(jobApplier, packageApplier, spec);
      (exists i :: 0 <= i < |calls| && calls[i].SetupLogrotate?) <==>
        AllSucceed(jobApplier, spec.jobs) && AllSucceed(packageApplier, spec.packages)
    ensures var calls := ApplyCalls(jobApplier, packageApplier, spec);
      AllSucceed(jobApplier, spec.jobs) && AllSucceed(packageApplier, spec.packages) ==>
        && |calls| == |spec.jobs| + |spec.packages| + 1
        && calls[|calls| - 1] == LogrotateCall(spec)
        && forall i :: 0 <= i < |calls| - 1 ==> !calls[i].SetupLogrotate?
  {
    var calls := ApplyCalls(jobApplier, packageApplier, spec);
    if AllSucceed(jobApplier, spec.jobs) && AllSucceed(packageApplier, spec.packages) {
      assert calls[|calls| - 1].SetupLogrotate?;
    } else {
      forall i | 0 <= i < |calls| ensures !calls[i].SetupLogrotate? {
        var j := FirstFailure(jobApplier, spec.jobs);
        if j == |spec.jobs| {
          var p := FirstFailure(packageApplier, spec.packages);
          assert p < |spec.packages|;
          assert calls == JobCalls(spec.jobs) + PackageCalls(spec.packages[..p + 1]);
          if i < |spec.jobs| {
            assert calls[i] == ApplyJob(spec.jobs[i]);
          } else {
            assert calls[i] == ApplyPackage(spec.packages[i - |spec.jobs|]);
          }
        }
      }
    }
  }

  /** When every job and package succeeds, Apply makes all their calls, then the logrotate call, and returns its result. */
  lemma AllSucceedRunsLogrotate(jobApplier: JobApplier, packageApplier: PackageApplier,
                                logrotateDelegate: LogrotateDelegate, spec: ApplySpec)
    requires AllSucceed(jobApplier, spec.jobs) && AllSucceed(packageApplier, spec.packages)
    ensures ApplyResult(jobApplier, packageApplier, logrotateDelegate, spec) == LogrotateResult(logrotateDelegate, spec)
    ensures ApplyCalls(jobApplier, packageApplier, spec) ==
      JobCalls(spec.jobs) + PackageCalls(spec.packages) + [LogrotateCall(spec)]
  {
    FirstFailureIs(jobApplier, spec.jobs, |spec.jobs|);
    FirstFailureIs(packageApplier, spec.packages, |spec.packages|);
  }

  /** A logrotate failure is returned wrapped with "Logrotate setup failed". */
  lemma LogrotateFailureIsWrapped(jobApplier: JobApplier, packageApplier: PackageApplier,
                                  logrotateDelegate: LogrotateDelegate, spec: ApplySpec, e: Error)
    requires AllSucceed(jobApplier, spec.jobs) && AllSucceed(packageApplier, spec.packages)
    requires logrotateDelegate(VcapUsername, VcapBaseDir, spec.maxLogFileSize) == Some(e)
    ensures ApplyResult(jobApplier, packageApplier, logrotateDelegate, spec) == Some(Wrapped(e, LogrotateFailedMessage))
  {
  }

  /** Apply returns nil exactly when every job, every package and the logrotate setup succeed. */
  lemma ApplySucceedsIff(jobApplier: JobApplier, packageApplier: PackageApplier,
                         logrotateDelegate: LogrotateDelegate, spec: ApplySpec)
    ensures ApplyResult(jobApplier, packageApplier, logrotateDelegate, spec).None? <==>
      && AllSucceed(jobApplier, spec.jobs)
      && AllSucceed(packageApplier, spec.packages)
      && logrotateDelegate(VcapUsername, VcapBaseDir, spec.maxLogFileSize).None?
  {
  }

  /**
   * Apply stops at the first failing call: every call but the last
   * succeeded, and what Apply returns is the last call's answer.
   */
  lemma StopsAtFirstFailure(jobApplier: JobApplier, packageApplier: PackageApplier,
                            logrotateDelegate: LogrotateDelegate, spec: ApplySpec)
    ensures |ApplyCalls(jobApplier, packageApplier, spec)| > 0
    ensures var calls := ApplyCalls(jobApplier, packageApplier, spec);
      forall i :: 0 <= i < |calls| - 1 ==> Reported(jobApplier, packageApplier, logrotateDelegate, calls[i]).None?
    ensures var calls := ApplyCalls(jobApplier, packageApplier, spec);
      ApplyResult(jobApplier, packageApplier, logrotateDelegate, spec) ==
        Reported(jobApplier, packageApplier, logrotateDelegate, calls[|calls| - 1])
  {
  }

  /** The Go struct `concreteApplier`. Applying does not change it. */
  class ConcreteApplier {
    const jobApplier: JobApplier
    const packageApplier: PackageApplier
    const logrotateDelegate: LogrotateDelegate

    /** `NewConcreteApplier`. */
    constructor (jobApplier: JobApplier, packageApplier: PackageApplier, logrotateDelegate: LogrotateDelegate)
      ensures this.jobApplier == jobApplier
      ensures this.packageApplier == packageApplier
      ensures this.logrotateDelegate == logrotateDelegate
    {
      this.jobApplier := jobApplier;
      this.packageApplier := packageApplier;
      this.logrotateDelegate := logrotateDelegate;
    }

    /** `Apply`: returns the error and, as a ghost, the calls it made. */
    method Apply(spec: ApplySpec) returns (err: Option<Error>, ghost calls: seq<Call>)
      ensures err == ApplyResult(jobApplier, packageApplier, logrotateDelegate, spec)
      ensures calls == ApplyCalls(jobApplier, packageApplier, spec)
    {
      calls := [];
      for i := 0 to |spec.jobs|
        invariant forall k :: 0 <= k < i ==> jobApplier(spec.jobs[k]).None?
        invariant calls == JobCalls(spec.jobs[..i])
      {
        var job := spec.jobs[i];
        err := jobApplier(job);
        JobCallsExtend(spec.jobs, i);
        calls := calls + [ApplyJob(job)];
        if err.Some? {
          JobFailureShortCircuits(jobApplier, packageApplier, logrotateDelegate, spec, i);
          return;
        }
      }
      assert spec.jobs[..|spec.jobs|] == spec.jobs;
      ghost var jobCalls := calls;

      for i := 0 to |spec.packages|
        invariant forall k :: 0 <= k < i ==> packageApplier(spec.packages[k]).None?
        invariant calls == jobCalls + PackageCalls(spec.packages[..i])
      {
        var pkg := spec.packages[i];
        err := packageApplier(pkg);
        PackageCallsExtend(spec.packages, i);
        calls := calls + [ApplyPackage(pkg)];
        if err.Some? {
          PackageFailureShortCircuits(jobApplier, packageApplier, logrotateDelegate, spec, i);
          return;
        }
      }
      assert spec.packages[..|spec.packages|] == spec.packages;
      AllSucceedRunsLogrotate(jobApplier, packageApplier, logrotateDelegate, spec);

      ghost var logrotateCalls;
      err, logrotateCalls := SetUpLogrotate(spec);
      calls := calls + logrotateCalls;
    }

    /** `setUpLogrotate`: one delegate call with the vcap user, the vcap base dir and the spec's size. */
    method SetUpLogrotate(spec: ApplySpec) returns (err: Option<Error>, ghost calls: seq<Call>)
      ensures err == LogrotateResult(logrotateDelegate, spec)
      ensures calls == [LogrotateCall(spec)]
    {
      err := logrotateDelegate(VcapUsername, VcapBaseDir, spec.maxLogFileSize);
      calls := [LogrotateCall(spec)];
      if err.Some? {
        err := Some(Wrapped(err.value, LogrotateFailedMessage));
      }
    }
  }
}
