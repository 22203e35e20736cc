/** How long a full signing queue takes to drain. Every worker process claims a batch, waits for all of it and claims
    again, until the queue is empty; the jobs of a batch are of distinct documents, so a batch lasts as long as its
    longest job. */
module QueueDrain {
  /** ESCRI_QUEUE_MAX_GLOBAL, ESCRI_JOB_SECONDS_ESTIMATE, ESCRI_CONCURRENCY, GUNICORN_WORKERS and
      ESCRI_PENDING_TTL_MINUTES. */
  datatype Config = Config(maxGlobal: int, jobSeconds: real, concurrency: int, workers: int, ttlMinutes: int)

  function Max(a: int, b: int): int {
    if a >= b then a else b
  }

  function DrainMinutes(c: Config): real {
    (c.maxGlobal as real * c.jobSeconds) / Max(1, c.concurrency * c.workers) as real / 60.0
  }

  /** `check_escri_ttl_coherence`. */
  predicate Coherent(c: Config) {
    DrainMinutes(c) < c.ttlMinutes as real
  }

  function TtlSeconds(c: Config): real {
    c.ttlMinutes as real * 60.0
  }

  // --- Schedules ---

  /** One claimed batch: who claimed it, when, how many jobs, and how long the worker was busy with it. */
  datatype Batch = Batch(worker: nat, start: real, size: nat, took: real)

  function Claimed(batches: seq<Batch>): nat {
    if batches == [] then 0 else Claimed(batches[..|batches| - 1]) + batches[|batches| - 1].size
  }

  /** When the worker is free again; everybody starts free at 0. */
  function FreeAt(batches: seq<Batch>, w: nat): real {
    if batches == [] then 0.0
    else
      var last := batches[|batches| - 1];
      if last.worker == w then last.start + last.took else FreeAt(batches[..|batches| - 1], w)
  }

  /** The next batch goes to a worker that is free first, takes at most the estimate, and is cut short only by the
      end of the queue of n jobs. */
  predicate NextBatch(c: Config, n: nat, batches: seq<Batch>, b: Batch) {
    && b.worker < c.workers && b.start == FreeAt(batches, b.worker)
    && (forall v: nat | v < c.workers :: b.start <= FreeAt(batches, v))
    && Claimed(batches) < n && c.concurrency > 0
    && b.size == (if n - Claimed(batches) < c.concurrency then n - Claimed(batches) else c.concurrency)
    && 0.0 <= b.took <= c.jobSeconds
  }

  predicate Schedule(c: Config, n: nat, batches: seq<Batch>) {
    forall i | 0 <= i < |batches| :: NextBatch(c, n, batches[..i], batches[i])
  }

  /** Nobody has anything left to claim, or nobody claims. */
  predicate Finished(c: Config, n: nat, batches: seq<Batch>) {
    Claimed(batches) >= n || c.concurrency <= 0 || c.workers <= 0
  }

  // --- The worst start ---

  function CountOf(batches: seq<Batch>, w: nat): nat {
    if batches == [] then 0 else CountOf(batches[..|batches| - 1], w) + (if batches[|batches| - 1].worker == w then 1
      else 0)
  }

  function CountUpTo(batches: seq<Batch>, w: nat): nat {
    if w == 0 then 0 else CountUpTo(batches, w - 1) + CountOf(batches, w - 1)
  }

  lemma {:induction false} CountStep(batches: seq<Batch>, w: nat)
    requires batches != []
    ensures CountUpTo(batches, w) == CountUpTo(batches[..|batches| - 1], w) + (if batches[|batches| - 1].worker < w
        then 1 else 0)
  {
    if w > 0 {
      CountStep(batches, w - 1);
    }
  }

  lemma {:induction false} CountsAddUp(c: Config, n: nat, batches: seq<Batch>)
    requires Schedule(c, n, batches)
    ensures c.workers >= 0 ==> CountUpTo(batches, c.workers) == |batches|
    decreases |batches|
  {
    if batches != [] {
      var most := batches[..|batches| - 1];
      PrefixIsSchedule(c, n, batches, |batches| - 1);
      CountsAddUp(c, n, most);
      assert NextBatch(c, n, most, batches[|batches| - 1]);
      CountStep(batches, c.workers);
    } else if c.workers >= 0 {
      CountNone(c.workers);
    }
  }

  lemma {:induction false} CountNone(w: nat)
    ensures CountUpTo([], w) == 0
  {
    if w > 0 {
      CountNone(w - 1);
    }
  }

  lemma PrefixIsSchedule(c: Config, n: nat, batches: seq<Batch>, i: nat)
    requires Schedule(c, n, batches) && i <= |batches|
    ensures Schedule(c, n, batches[..i])
  {
    forall j | 0 <= j < i
      ensures NextBatch(c, n, batches[..i][..j], batches[..i][j])
    {
      assert batches[..i][..j] == batches[..j];
    }
  }

  /** k times x, by addition. */
  function Sum(k: nat, x: real): real {
    if k == 0 then 0.0 else Sum(k - 1, x) + x
  }

  function Jobs(k: nat, size: nat): nat {
    if k == 0 then 0 else Jobs(k - 1, size) + size
  }

  /** Division and remainder, by subtraction. */
  function Div(a: nat, b: nat): nat
    requires b > 0
  {
    if a < b then 0 else 1 + Div(a - b, b)
  }

  function Mod(a: nat, b: nat): (r: nat)
    requires b > 0
    ensures r < b
  {
    if a < b then a else Mod(a - b, b)
  }

  lemma {:induction false} DivBounds(a: nat, b: nat)
    requires b > 0
    ensures Jobs(Div(a, b), b) <= a < Jobs(Div(a, b) + 1, b)
  {
    if a >= b {
      DivBounds(a - b, b);
    }
  }

  lemma {:induction false} DivAtLeast(k: nat, a: nat, b: nat)
    requires b > 0 && Jobs(k, b) <= a
    ensures k <= Div(a, b)
  {
    if k > 0 {
      DivAtLeast(k - 1, a - b, b);
    }
  }

  lemma DivMonotone(a: nat, a': nat, b: nat)
    requires b > 0 && a <= a'
    ensures Div(a, b) <= Div(a', b)
  {
    DivBounds(a, b);
    DivAtLeast(Div(a, b), a', b);
  }

  lemma {:induction false} DivNext(a: nat, b: nat)
    requires b > 0
    ensures if Mod(a, b) == b - 1 then Div(a + 1, b) == Div(a, b) + 1 && Mod(a + 1, b) == 0
            else Div(a + 1, b) == Div(a, b) && Mod(a + 1, b) == Mod(a, b) + 1
  {
    if a >= b {
      DivNext(a - b, b);
    }
  }

  lemma {:induction false} SumIs(k: nat, x: real)
    ensures Sum(k, x) == k as real * x
  {
    if k > 0 {
      SumIs(k - 1, x);
      assert k as real == (k - 1) as real + 1.0;
      assert ((k - 1) as real + 1.0) * x == (k - 1) as real * x + x;
    }
  }

  lemma {:induction false} JobsIs(k: nat, size: nat)
    ensures Jobs(k, size) == k * size
  {
    if k > 0 {
      JobsIs(k - 1, size);
    }
  }

  lemma {:induction false} SumGrows(a: nat, b: nat, x: real)
    requires a <= b && x >= 0.0
    ensures Sum(a, x) <= Sum(b, x)
  {
    if a < b {
      SumGrows(a, b - 1, x);
    }
  }

  /** A worker is free once its batches, each at most the estimate long, are over. */
  lemma {:induction false} FreeBound(c: Config, n: nat, batches: seq<Batch>, w: nat)
    requires Schedule(c, n, batches) && c.jobSeconds >= 0.0
    ensures FreeAt(batches, w) <= Sum(CountOf(batches, w), c.jobSeconds)
    decreases |batches|
  {
    if batches != [] {
      var most, last := batches[..|batches| - 1], batches[|batches| - 1];
      PrefixIsSchedule(c, n, batches, |batches| - 1);
      FreeBound(c, n, most, w);
      NextStarts(c, n, most, last);
      assert last.worker == w ==>
        Sum(CountOf(most, w) + 1, c.jobSeconds) == Sum(CountOf(most, w), c.jobSeconds) + c.jobSeconds;
    }
  }

  lemma NextStarts(c: Config, n: nat, batches: seq<Batch>, b: Batch)
    requires NextBatch(c, n, batches, b)
    ensures b.start == FreeAt(batches, b.worker) && b.took <= c.jobSeconds && b.worker < c.workers && c.concurrency > 0
    ensures forall v: nat | v < c.workers :: b.start <= FreeAt(batches, v)
    ensures Claimed(batches) < n
  {
  }

  /** Among w workers that claimed fewer than w * (k + 1) batches, one claimed at most k. */
  lemma {:induction false} SomebodyClaimedFew(batches: seq<Batch>, w: nat, k: nat) returns (v: nat)
    requires CountUpTo(batches, w) < Jobs(w, k + 1)
    ensures v < w && CountOf(batches, v) <= k
    decreases w
  {
    if CountOf(batches, w - 1) <= k {
      v := w - 1;
    } else {
      v := SomebodyClaimedFew(batches, w - 1, k);
    }
  }

  /** While jobs remain every batch is full. */
  lemma {:induction false} FullBatches(c: Config, n: nat, batches: seq<Batch>)
    requires Schedule(c, n, batches)
    ensures Claimed(batches) <= n
    ensures Claimed(batches) < n && c.concurrency > 0 ==> Claimed(batches) == Jobs(|batches|, c.concurrency)
    decreases |batches|
  {
    if batches != [] {
      PrefixIsSchedule(c, n, batches, |batches| - 1);
      FullBatches(c, n, batches[..|batches| - 1]);
      assert NextBatch(c, n, batches[..|batches| - 1], batches[|batches| - 1]);
    }
  }

  /** The round, counted from 0, in which the last of n jobs is claimed when all batches take the full estimate. */
  function LastRound(c: Config, n: nat): nat
    requires c.concurrency > 0 && c.workers > 0 && n > 0
  {
    Div(Div(n - 1, c.concurrency), c.workers)
  }

  lemma RoundBound(i: nat, n: nat, concurrency: nat, workers: nat)
    requires concurrency > 0 && workers > 0 && Jobs(i, concurrency) < n
    ensures Div(i, workers) <= Div(Div(n - 1, concurrency), workers)
  {
    DivAtLeast(i, n - 1, concurrency);
    DivMonotone(i, Div(n - 1, concurrency), workers);
  }

  lemma BelowNextRound(i: nat, workers: nat)
    requires workers > 0
    ensures i < Jobs(workers, Div(i, workers) + 1)
  {
    DivBounds(i, workers);
    JobsIs(workers, Div(i, workers) + 1);
    JobsIs(Div(i, workers) + 1, workers);
  }

  /** No job of a queue of n starts after the last round. */
  lemma StartBound(c: Config, n: nat, batches: seq<Batch>, i: nat)
    requires Schedule(c, n, batches) && i < |batches| && c.jobSeconds >= 0.0
    ensures c.concurrency > 0 && c.workers > 0 && n > 0
    ensures batches[i].start <= Sum(LastRound(c, n), c.jobSeconds)
  {
    var before := batches[..i];
    NextStarts(c, n, before, batches[i]);
    PrefixIsSchedule(c, n, batches, i);
    FullBatches(c, n, before);
    SomebodyIsFree(c, n, before);
    RoundBound(i, n, c.concurrency, c.workers);
    SumGrows(Div(i, c.workers), LastRound(c, n), c.jobSeconds);
  }

  lemma SomebodyIsFree(c: Config, n: nat, batches: seq<Batch>)
    requires Schedule(c, n, batches) && c.workers > 0 && c.jobSeconds >= 0.0
    ensures exists v: nat :: v < c.workers && FreeAt(batches, v) <= Sum(Div(|batches|, c.workers), c.jobSeconds)
  {
    CountsAddUp(c, n, batches);
    BelowNextRound(|batches|, c.workers);
    var v := SomebodyClaimedFew(batches, c.workers, Div(|batches|, c.workers));
    FreeBound(c, n, batches, v);
    SumGrows(CountOf(batches, v), Div(|batches|, c.workers), c.jobSeconds);
  }

  // --- That start is reached ---

  /** Batch i when every batch takes the full estimate: worker i mod W, in round i div W. */
  function LockstepBatch(c: Config, n: nat, i: nat): Batch
    requires c.concurrency > 0 && c.workers > 0 && Jobs(i, c.concurrency) < n
  {
    Batch(Mod(i, c.workers), Sum(Div(i, c.workers), c.jobSeconds),
          if n - Jobs(i, c.concurrency) < c.concurrency then n - Jobs(i, c.concurrency)
            else c.concurrency, c.jobSeconds)
  }

  function Lockstep(c: Config, n: nat, k: nat): (batches: seq<Batch>)
    requires c.concurrency > 0 && c.workers > 0 && (k > 0 ==> Jobs(k - 1, c.concurrency) < n)
    ensures |batches| == k
  {
    if k == 0 then [] else Lockstep(c, n, k - 1) + [LockstepBatch(c, n, k - 1)]
  }

  lemma LockstepSplits(c: Config, n: nat, k: nat)
    requires c.concurrency > 0 && c.workers > 0 && k > 0 && Jobs(k - 1, c.concurrency) < n
    ensures Lockstep(c, n, k)[..k - 1] == Lockstep(c, n, k - 1)
        && Lockstep(c, n, k)[k - 1] == LockstepBatch(c, n, k - 1)
  {
  }

  /** How many of the first k lockstep batches are worker v's: the first k mod W workers are one round ahead. */
  function RoundsOf(k: nat, v: nat, workers: nat): nat
    requires workers > 0
  {
    Div(k, workers) + (if v < Mod(k, workers) then 1 else 0)
  }

  lemma RoundsStep(k: nat, v: nat, workers: nat)
    requires v < workers
    ensures RoundsOf(k + 1, v, workers) == if Mod(k, workers) == v then Div(k, workers) + 1 else RoundsOf(k, v, workers)
  {
    DivNext(k, workers);
  }

  lemma {:induction false} LockstepFree(c: Config, n: nat, k: nat, v: nat)
    requires c.concurrency > 0 && c.workers > 0 && (k > 0 ==> Jobs(k - 1, c.concurrency) < n) && v < c.workers
    ensures FreeAt(Lockstep(c, n, k), v) == Sum(RoundsOf(k, v, c.workers), c.jobSeconds)
  {
    if k > 0 {
      LockstepFree(c, n, k - 1, v);
      LockstepSplits(c, n, k);
      RoundsStep(k - 1, v, c.workers);
    }
  }

  lemma {:induction false} LockstepClaims(c: Config, n: nat, k: nat)
    requires c.concurrency > 0 && c.workers > 0 && (k > 0 ==> Jobs(k - 1, c.concurrency) < n)
    ensures Claimed(Lockstep(c, n, k)) == if Jobs(k, c.concurrency) <= n then Jobs(k, c.concurrency) else n
  {
    if k > 0 {
      LockstepClaims(c, n, k - 1);
      LockstepSplits(c, n, k);
    }
  }

  lemma LockstepGoesOn(c: Config, n: nat, k: nat)
    requires c.concurrency > 0 && c.workers > 0 && Jobs(k, c.concurrency) < n && c.jobSeconds >= 0.0
    requires k > 0 ==> Jobs(k - 1, c.concurrency) < n
    ensures NextBatch(c, n, Lockstep(c, n, k), LockstepBatch(c, n, k))
  {
    var batches := Lockstep(c, n, k);
    LockstepClaims(c, n, k);
    LockstepFree(c, n, k, Mod(k, c.workers));
    assert Claimed(batches) == Jobs(k, c.concurrency);
    assert FreeAt(batches, Mod(k, c.workers)) == LockstepBatch(c, n, k).start;
    LockstepWaitsForNobody(c, n, k);
  }

  lemma LockstepWaitsForNobody(c: Config, n: nat, k: nat)
    requires c.concurrency > 0 && c.workers > 0 && (k > 0 ==> Jobs(k - 1, c.concurrency) < n) && c.jobSeconds >= 0.0
    ensures forall v: nat | v < c.workers ::
              Sum(Div(k, c.workers), c.jobSeconds) <= FreeAt(Lockstep(c, n, k), v)
  {
    var batches := Lockstep(c, n, k);
    forall v: nat | v < c.workers
      ensures Sum(Div(k, c.workers), c.jobSeconds) <= FreeAt(batches, v)
    {
      LockstepFree(c, n, k, v);
      SumGrows(Div(k, c.workers), RoundsOf(k, v, c.workers), c.jobSeconds);
    }
  }

  lemma {:induction false} LockstepIsSchedule(c: Config, n: nat, k: nat)
    requires c.concurrency > 0 && c.workers > 0 && (k > 0 ==> Jobs(k - 1, c.concurrency) < n) && c.jobSeconds >= 0.0
    ensures Schedule(c, n, Lockstep(c, n, k))
  {
    if k > 0 {
      LockstepIsSchedule(c, n, k - 1);
      LockstepGoesOn(c, n, k - 1);
      ExtendSchedule(c, n, Lockstep(c, n, k - 1), LockstepBatch(c, n, k - 1));
    }
  }

  lemma ExtendSchedule(c: Config, n: nat, batches: seq<Batch>, b: Batch)
    requires Schedule(c, n, batches) && NextBatch(c, n, batches, b)
    ensures Schedule(c, n, batches + [b])
  {
    var longer := batches + [b];
    forall i | 0 <= i < |longer|
      ensures NextBatch(c, n, longer[..i], longer[i])
    {
      if i < |batches| {
        assert longer[..i] == batches[..i];
      } else {
        assert longer[..i] == batches;
      }
    }
  }

  // --- When a queue drains before it expires ---

  predicate AllInTime(c: Config, n: nat, batches: seq<Batch>) {
    Claimed(batches) == n && forall i | 0 <= i < |batches| :: batches[i].start < TtlSeconds(c)
  }

  /** Every finished run has claimed all n jobs, each before its time to live was over. */
  ghost predicate DrainsInTime(c: Config, n: nat) {
    forall batches: seq<Batch> | Schedule(c, n, batches) && Finished(c, n, batches) :: AllInTime(c, n, batches)
  }

  /** For a queue of n jobs the guarantee holds if and only if somebody claims and the last round begins within the
      time to live. */
  lemma DrainsExactly(c: Config, n: nat)
    requires n > 0 && c.jobSeconds >= 0.0
    ensures DrainsInTime(c, n) <==>
              c.concurrency > 0 && c.workers > 0 && Sum(LastRound(c, n), c.jobSeconds) < TtlSeconds(c)
  {
    if c.concurrency <= 0 || c.workers <= 0 {
      assert Schedule(c, n, []) && Finished(c, n, []) && !AllInTime(c, n, []);
    } else {
      if Sum(LastRound(c, n), c.jobSeconds) < TtlSeconds(c) {
        InTime(c, n);
      } else {
        LockstepIsLate(c, n);
      }
    }
  }

  lemma InTime(c: Config, n: nat)
    requires n > 0 && c.jobSeconds >= 0.0 && c.concurrency > 0 && c.workers > 0
        && Sum(LastRound(c, n), c.jobSeconds) < TtlSeconds(c)
    ensures DrainsInTime(c, n)
  {
    forall batches: seq<Batch> | Schedule(c, n, batches) && Finished(c, n, batches)
      ensures AllInTime(c, n, batches)
    {
      FullBatches(c, n, batches);
      forall i | 0 <= i < |batches|
        ensures batches[i].start < TtlSeconds(c)
      {
        StartBound(c, n, batches, i);
      }
    }
  }

  lemma LockstepIsLate(c: Config, n: nat)
    requires n > 0 && c.jobSeconds >= 0.0 && c.concurrency > 0 && c.workers > 0
    requires Sum(LastRound(c, n), c.jobSeconds) >= TtlSeconds(c)
    ensures !DrainsInTime(c, n)
  {
    var last := Div(n - 1, c.concurrency);
    DivBounds(n - 1, c.concurrency);
    LockstepIsSchedule(c, n, last + 1);
    LockstepClaims(c, n, last + 1);
    LockstepSplits(c, n, last + 1);
    var batches := Lockstep(c, n, last + 1);
    assert batches[last].start >= TtlSeconds(c);
    assert Schedule(c, n, batches) && Finished(c, n, batches) && !AllInTime(c, n, batches);
  }

  /** The configuration check is sound: with at least one worker and a concurrency of at least one, a coherent
      configuration drains every queue up to the global cap in time. */
  lemma CoherentDrains(c: Config, n: nat)
    requires 0 < n <= c.maxGlobal && c.jobSeconds >= 0.0 && Coherent(c) && c.concurrency > 0 && c.workers > 0
    ensures DrainsInTime(c, n)
  {
    LastRoundInTime(c, n, LastRound(c, n), c.concurrency * c.workers);
    DrainsExactly(c, n);
  }

  lemma LastRoundInTime(c: Config, n: nat, k: nat, size: int)
    requires 0 < n <= c.maxGlobal && c.jobSeconds >= 0.0 && Coherent(c) && c.concurrency > 0 && c.workers > 0
    requires k == LastRound(c, n) && size == c.concurrency * c.workers
    ensures Sum(k, c.jobSeconds) < TtlSeconds(c)
  {
    SumIs(k, c.jobSeconds);
    RoundsFit(n, c.concurrency, c.workers);
    CoherentMeans(c, size);
    EstimateCovers(c.maxGlobal, c.jobSeconds, size, k, TtlSeconds(c));
  }

  lemma CoherentMeans(c: Config, size: int)
    requires Coherent(c) && size == c.concurrency * c.workers && size >= 1
    ensures (c.maxGlobal as real * c.jobSeconds) / size as real < TtlSeconds(c)
  {
    var x := (c.maxGlobal as real * c.jobSeconds) / size as real;
    assert x / 60.0 < c.ttlMinutes as real;
  }

  lemma RoundsFit(n: nat, concurrency: nat, workers: nat)
    requires n > 0 && concurrency > 0 && workers > 0
    ensures concurrency * workers >= 1
    ensures Div(Div(n - 1, concurrency), workers) * (concurrency * workers) <= n
  {
    var q := Div(n - 1, concurrency);
    var k := Div(q, workers);
    DivBounds(n - 1, concurrency);
    JobsIs(q, concurrency);
    DivBounds(q, workers);
    JobsIs(k, workers);
    ProductFits(k, workers, q, concurrency, n);
  }

  lemma ProductFits(k: nat, workers: nat, q: nat, concurrency: nat, n: nat)
    requires k * workers <= q && q * concurrency < n && concurrency > 0 && workers > 0
    ensures concurrency * workers >= 1 && k * (concurrency * workers) <= n
  {
    assert k * workers * concurrency <= q * concurrency;
    assert k * workers * concurrency == k * (concurrency * workers);
  }

  lemma EstimateCovers(jobs: nat, seconds: real, size: nat, k: nat, ttl: real)
    requires size >= 1 && k * size <= jobs && seconds >= 0.0
    requires (jobs as real * seconds) / size as real < ttl
    ensures k as real * seconds < ttl
  {
    var y := k as real * seconds;
    SumGrows(k * size, jobs, seconds);
    SumIs(k * size, seconds);
    SumIs(jobs, seconds);
    assert (k * size) as real == k as real * size as real;
    assert y * size as real <= jobs as real * seconds;
    DivideReal(jobs as real * seconds, size as real, y);
  }

  lemma DivideReal(total: real, size: real, y: real)
    requires size >= 1.0 && y * size <= total
    ensures y <= total / size
  {
    assert y == y * size / size;
  }

  /** The estimate is tight: a full queue's last job can start, at the latest, less than the estimate and at most one
      job before it. */
  lemma EstimateIsTight(c: Config)
    requires c.maxGlobal > 0 && c.jobSeconds > 0.0 && c.concurrency > 0 && c.workers > 0
    ensures var latest, estimate := Sum(LastRound(c, c.maxGlobal), c.jobSeconds), DrainMinutes(c) * 60.0;
            latest < estimate <= latest + c.jobSeconds
  {
    var k, size := LastRound(c, c.maxGlobal), c.concurrency * c.workers;
    RoundsCover(c.maxGlobal, c.concurrency, c.workers, k, size);
    EstimateSeconds(c, size);
    Quotients(c.maxGlobal, c.jobSeconds, size, k, DrainMinutes(c) * 60.0);
  }

  lemma EstimateSeconds(c: Config, size: int)
    requires size >= 1 && size == c.concurrency * c.workers
    ensures DrainMinutes(c) * 60.0 * size as real == c.maxGlobal as real * c.jobSeconds
  {
    var x := (c.maxGlobal as real * c.jobSeconds) / size as real;
    assert DrainMinutes(c) == x / 60.0;
    assert x * size as real == c.maxGlobal as real * c.jobSeconds;
  }

  /** k full rounds do not hold n jobs, one more does. */
  lemma RoundsCover(n: nat, concurrency: nat, workers: nat, k: nat, size: nat)
    requires n > 0 && concurrency > 0 && workers > 0 && size == concurrency * workers
    requires k == Div(Div(n - 1, concurrency), workers)
    ensures size >= 1 && k * size < n <= (k + 1) * size
  {
    var q := Div(n - 1, concurrency);
    DivBounds(n - 1, concurrency);
    JobsIs(q, concurrency);
    JobsIs(q + 1, concurrency);
    DivBounds(q, workers);
    JobsIs(k, workers);
    JobsIs(k + 1, workers);
    ProductCovers(k, workers, q, concurrency, n);
  }

  lemma ProductCovers(k: nat, workers: nat, q: nat, concurrency: nat, n: nat)
    requires k * workers <= q < (k + 1) * workers && q * concurrency < n <= (q + 1) * concurrency
    requires concurrency > 0 && workers > 0
    ensures concurrency * workers >= 1 && k * (concurrency * workers) < n <= (k + 1) * (concurrency * workers)
  {
    TimesSize(k * workers, q, concurrency);
    TimesSize(q + 1, (k + 1) * workers, concurrency);
    Regroup(k, workers, concurrency);
    Regroup(k + 1, workers, concurrency);
    TimesSize(1, workers, concurrency);
  }

  lemma TimesSize(a: nat, b: nat, size: nat)
    requires a <= b
    ensures a * size <= b * size
  {
  }

  lemma Regroup(k: nat, workers: nat, concurrency: nat)
    ensures (k * workers) * concurrency == k * (concurrency * workers)
  {
  }

  lemma Quotients(jobs: nat, seconds: real, size: nat, k: nat, x: real)
    requires size >= 1 && k * size < jobs <= (k + 1) * size && seconds > 0.0
    requires x * size as real == jobs as real * seconds
    ensures Sum(k, seconds) < x <= Sum(k, seconds) + seconds
  {
    SumIs(k, seconds);
    SumIs(k + 1, seconds);
    assert (k * size) as real == k as real * size as real;
    assert ((k + 1) * size) as real == (k + 1) as real * size as real;
    Scales(k as real, size as real, jobs as real, seconds, x);
    ScalesUp((k + 1) as real, size as real, jobs as real, seconds, x);
  }

  lemma Scales(k: real, size: real, jobs: real, seconds: real, x: real)
    requires size > 0.0 && seconds > 0.0 && x * size == jobs * seconds && k * size < jobs
    ensures k * seconds < x
  {
    assert k * size * seconds < jobs * seconds;
    assert k * size * seconds == (k * seconds) * size;
  }

  lemma ScalesUp(k: real, size: real, jobs: real, seconds: real, x: real)
    requires size > 0.0 && seconds > 0.0 && x * size == jobs * seconds && jobs <= k * size
    ensures x <= k * seconds
  {
    assert jobs * seconds <= k * size * seconds;
    assert k * size * seconds == (k * seconds) * size;
  }

  /** And exactly when somebody claims: `max(1, ...)` lets the check pass configurations under which nothing is ever
      claimed. */
  lemma CheckIsSoundExactly(c: Config, n: nat)
    requires 0 < n <= c.maxGlobal && c.jobSeconds >= 0.0 && Coherent(c)
    ensures DrainsInTime(c, n) <==> c.concurrency > 0 && c.workers > 0
  {
    if c.concurrency > 0 && c.workers > 0 {
      CoherentDrains(c, n);
    } else {
      DrainsExactly(c, n);
    }
  }

  /** Two configurations the check passes although nothing is ever claimed: the defaults without concurrency, and
      without workers. */
  lemma CoherentButIdle()
    ensures Coherent(Config(150, 8.0, 0, 2, 30)) && !DrainsInTime(Config(150, 8.0, 0, 2, 30), 1)
    ensures Coherent(Config(150, 8.0, 2, 0, 30)) && !DrainsInTime(Config(150, 8.0, 2, 0, 30), 1)
  {
    CheckIsSoundExactly(Config(150, 8.0, 0, 2, 30), 1);
    CheckIsSoundExactly(Config(150, 8.0, 2, 0, 30), 1);
  }
}
