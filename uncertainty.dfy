/** Bootstrap of the infectious window period (iwp_bs and its parallel twin iwp_bs_par).
    The random draws are inputs: one sequence per resampled parameter, element i of each
    belonging to bootstrap replicate i. */
module Uncertainty {
  import opened Numerics
  import opened Detection
  import opened Window

  /** The resampled parameters, one sequence per parameter. */
  datatype Draws = Draws(doublingTime: seq<real>, k: seq<real>, lod50: seq<real>, volumeTransfused: seq<real>)

  /** Every parameter was drawn n times. */
  predicate DrawsHaveLength(d: Draws, n: nat) {
    |d.doublingTime| == n && |d.k| == n && |d.lod50| == n && |d.volumeTransfused| == n
  }

  /** The risk_days arguments of replicate i: the nominal ones with draw i of doubling time,
      volume, rate and lod50 substituted, everything else kept. */
  function DrawArgs(nominal: RiskArgs, d: Draws, i: nat): (a: RiskArgs)
    requires i < |d.doublingTime| && i < |d.k| && i < |d.lod50| && i < |d.volumeTransfused|
  {
    nominal.(doublingTime := d.doublingTime[i], volumeTransfused := d.volumeTransfused[i],
             k := d.k[i], lod50 := d.lod50[i])
  }

  /** No replicate divides by zero. */
  predicate DrawsInDomain(lib: Library, nominal: RiskArgs, d: Draws, n: nat)
    requires DrawsHaveLength(d, n)
  {
    forall i: nat :: i < n ==> InDomain(lib, DrawArgs(nominal, d, i))
  }

  /** Replicate i: risk days (default z and limits) for the arguments of draw i. */
  function Replicate(lib: Library, nominal: RiskArgs, d: Draws, n: nat, i: nat): real
    requires DrawsHaveLength(d, n) && DrawsInDomain(lib, nominal, d, n)
    requires CountsValid(nominal) && i < n
  {
    RiskDays(lib, DrawArgs(nominal, d, i), DefaultZ, DefaultLimits).value
  }

  /** The first m replicates in index order: the list the bootstrap builds. Element i comes from
      draw i of every parameter. */
  function BootstrapSamples(lib: Library, nominal: RiskArgs, d: Draws, n: nat, m: nat): (s: seq<real>)
    requires DrawsHaveLength(d, n) && DrawsInDomain(lib, nominal, d, n)
    requires CountsValid(nominal) && m <= n
    ensures |s| == m
    ensures forall i: nat :: i < m ==> s[i] == Replicate(lib, nominal, d, n, i)
  {
    if m == 0 then []
    else BootstrapSamples(lib, nominal, d, n, m - 1) + [Replicate(lib, nominal, d, n, m - 1)]
  }

  /** What iwp_bs and iwp_bs_par return: the point estimate, the bootstrap interval and the
      bootstrap list. */
  datatype IwpEstimate = IwpEstimate(pointEstimate: real, interval: (real, real), samples: seq<real>)

  /** iwp_bs. The point estimate comes first, so an invalid pool size or retest count is raised
      there, before any replicate. Otherwise the list holds the n replicates in index order and the
      interval is the alpha/2 and 1 - alpha/2 quantiles of that list. */
  method IwpBootstrap(lib: Library, nominal: RiskArgs, d: Draws, n: nat, alpha: real) returns (r: Result<IwpEstimate>)
    requires InDomain(lib, nominal)
    requires DrawsHaveLength(d, n) && DrawsInDomain(lib, nominal, d, n)
    ensures !CountsValid(nominal) ==> r.Err? && r.error == RiskDays(lib, nominal, DefaultZ, DefaultLimits).error
    ensures CountsValid(nominal) ==>
              var samples := BootstrapSamples(lib, nominal, d, n, n);
              r == Ok(IwpEstimate(RiskDays(lib, nominal, DefaultZ, DefaultLimits).value,
                                  Quantiles(lib, samples, alpha / 2.0, 1.0 - alpha / 2.0), samples))
  {
    var pointEstimate :- RiskDays(lib, nominal, DefaultZ, DefaultLimits);
    var iwp: seq<real> := [];
    var i := 0;
    while i < n
      invariant i <= n
      invariant iwp == BootstrapSamples(lib, nominal, d, n, i)
    {
      var rd := RiskDays(lib, DrawArgs(nominal, d, i), DefaultZ, DefaultLimits).value;
      iwp := iwp + [rd];
      i := i + 1;
    }
    var interval := Quantiles(lib, iwp, alpha / 2.0, 1.0 - alpha / 2.0);
    return Ok(IwpEstimate(pointEstimate, interval, iwp));
  }

  /** The worker results of iwp_bs_par can finish in any order: completion lists the task indices
      in the order the pool finished them, each of the n tasks exactly once. */
  predicate IsCompletionOrder(completion: seq<nat>, n: nat) {
    |completion| == n
    && (forall j: nat :: j < n ==> completion[j] < n)
    && (forall i: nat :: i < n ==> i in completion)
  }

  /** iwp_bs_par. Each replicate is submitted as an asynchronous task; tasks finish in the order
      given by completion and their results are filed under their task handle; r.get() then
      collects them in submission order. Whatever the completion order, the result is that of
      the serial iwp_bs on the same draws. */
  method IwpBootstrapParallel(lib: Library, nominal: RiskArgs, d: Draws, n: nat, alpha: real,
                              completion: seq<nat>) returns (r: Result<IwpEstimate>)
    requires InDomain(lib, nominal)
    requires DrawsHaveLength(d, n) && DrawsInDomain(lib, nominal, d, n)
    requires IsCompletionOrder(completion, n)
    ensures !CountsValid(nominal) ==> r.Err? && r.error == RiskDays(lib, nominal, DefaultZ, DefaultLimits).error
    ensures CountsValid(nominal) ==>
              var samples := BootstrapSamples(lib, nominal, d, n, n);
              r == Ok(IwpEstimate(RiskDays(lib, nominal, DefaultZ, DefaultLimits).value,
                                  Quantiles(lib, samples, alpha / 2.0, 1.0 - alpha / 2.0), samples))
  {
    var pointEstimate :- RiskDays(lib, nominal, DefaultZ, DefaultLimits);
    var finished := RunTasks(lib, nominal, d, n, completion);
    var iwp := CollectResults(lib, nominal, d, n, finished);
    var interval := Quantiles(lib, iwp, alpha / 2.0, 1.0 - alpha / 2.0);
    return Ok(IwpEstimate(pointEstimate, interval, iwp));
  }

  /** The worker pool of iwp_bs_par: tasks finish in completion order and each result is filed
      under its task handle. Every task ends up finished with its own replicate. */
  method RunTasks(lib: Library, nominal: RiskArgs, d: Draws, n: nat, completion: seq<nat>)
    returns (finished: map<nat, real>)
    requires CountsValid(nominal)
    requires DrawsHaveLength(d, n) && DrawsInDomain(lib, nominal, d, n)
    requires IsCompletionOrder(completion, n)
    ensures forall i: nat :: i < n ==> i in finished && finished[i] == Replicate(lib, nominal, d, n, i)
  {
    finished := map[];
    var j := 0;
    while j < n
      invariant j <= n
      invariant forall h :: h in finished <==> h in completion[..j]
      invariant forall h :: h in finished ==> h < n && finished[h] == Replicate(lib, nominal, d, n, h)
    {
      var task := completion[j];
      var rd := RiskDays(lib, DrawArgs(nominal, d, task), DefaultZ, DefaultLimits).value;
      finished := finished[task := rd];
      assert completion[..j + 1] == completion[..j] + [task];
      j := j + 1;
    }
    assert completion[..n] == completion;
  }

  /** The list comprehension over r.get(): results read back in submission order. */
  method CollectResults(lib: Library, nominal: RiskArgs, d: Draws, n: nat, finished: map<nat, real>)
    returns (iwp: seq<real>)
    requires CountsValid(nominal)
    requires DrawsHaveLength(d, n) && DrawsInDomain(lib, nominal, d, n)
    requires forall i: nat :: i < n ==> i in finished && finished[i] == Replicate(lib, nominal, d, n, i)
    ensures iwp == BootstrapSamples(lib, nominal, d, n, n)
  {
    iwp := [];
    var i := 0;
    while i < n
      invariant i <= n
      invariant iwp == BootstrapSamples(lib, nominal, d, n, i)
    {
      iwp := iwp + [finished[i]];
      i := i + 1;
    }
  }

  /** The serial and the parallel bootstrap return the same estimate, list order included. */
  method SerialMatchesParallel(lib: Library, nominal: RiskArgs, d: Draws, n: nat, alpha: real,
                               completion: seq<nat>) returns (serial: Result<IwpEstimate>, parallel: Result<IwpEstimate>)
    requires InDomain(lib, nominal)
    requires DrawsHaveLength(d, n) && DrawsInDomain(lib, nominal, d, n)
    requires IsCompletionOrder(completion, n)
    ensures serial == parallel
  {
    serial := IwpBootstrap(lib, nominal, d, n, alpha);
    parallel := IwpBootstrapParallel(lib, nominal, d, n, alpha, completion);
  }
}
