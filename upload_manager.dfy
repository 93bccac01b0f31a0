/** The legacy upload loop `processUpload`: a random number of attempts, each
    generating a file and uploading it, catching every failure so that the
    next attempt still runs, and deleting the file by the rules of the path
    taken. Generation and upload outcomes are parameters indexed by attempt. */
module UploadManager {
  import opened Outcomes
  import opened Random
  import opened Retry
  import opened UploadFeatures

  /** The configuration defines no `MAX_ATTEMPTS` setting. */
  const ShippedMaxAttempts: Option<nat> := None

  /** A JavaScript number used as the attempt count: finite, or NaN. */
  datatype Count = Finite(n: nat) | NaN

  /** The attempt count as written, `Math.floor(Math.random() *
      CONFIG.MAX_ATTEMPTS) + 1`: a missing setting makes the product, and so
      the count, NaN. */
  function AttemptsAsWritten(d: Draw, maxAttempts: Option<nat>): (a: Count)
    ensures maxAttempts.None? <==> a.NaN?
    ensures maxAttempts.Some? ==> a == Finite(Attempts(d, maxAttempts.value))
  {
    if maxAttempts.None? then NaN else Finite(Attempts(d, maxAttempts.value))
  }

  /** How many times `for (let i = 0; i < attempts; i++)` runs: `i < NaN` is
      false, so a NaN count runs no iteration. */
  function IterationCount(a: Count): nat
  {
    if a.NaN? then 0 else a.n
  }

  /** With the shipped configuration the loop never runs: no file is
      generated or uploaded, whatever the draw. */
  lemma ShippedConfigNeverUploads(d: Draw)
    ensures AttemptsAsWritten(d, ShippedMaxAttempts) == NaN
    ensures IterationCount(AttemptsAsWritten(d, ShippedMaxAttempts)) == 0
  {
  }

  /** The intended attempt count for a configured maximum: one more than a
      drawn index below the maximum, so between 1 and the maximum. */
  function Attempts(d: Draw, maxAttempts: nat): (a: nat)
    ensures 1 <= a
    ensures maxAttempts >= 1 ==> a <= maxAttempts
    ensures maxAttempts == 0 ==> a == 1
  {
    Index(d, maxAttempts) + 1
  }

  /** Every count between 1 and the maximum is drawn by some draw. */
  lemma AttemptsCover(maxAttempts: nat, k: nat)
    requires 1 <= k <= maxAttempts
    ensures Attempts(Fraction(k - 1, maxAttempts), maxAttempts) == k
  {
    IndexCovers(k - 1, maxAttempts);
  }

  /** The effects of the loop: the start of an attempt's generation, the
      storage upload, `deleteFile`, and the pause between attempts. */
  datatype Effect = Generate(iteration: nat) | UploadCall(path: string) | DeleteCall(path: string) | Delay(ms: nat)

  /** `txHash && typeof txHash === "string"`: a non-empty hash string. */
  predicate Hashed(reply: UploadReply)
  {
    TxHashOf(reply).Some? && TxHashOf(reply).value != ""
  }

  /** Iteration i of `attempts`: generate; on success upload; after an upload
      delete the file only when it returned a hash, and pause unless this is
      the last iteration; after a throw delete the file only when one was
      generated. */
  function Iteration(i: nat, attempts: nat, gen: Outcome<string>, up: Outcome<UploadReply>, delayMs: nat)
    : seq<Effect>
  {
    [Generate(i)] +
    match gen
    case Err(_) => []
    case Ok(path) =>
      [UploadCall(path)] +
      match up
      case Err(_) => (if path != "" then [DeleteCall(path)] else [])
      case Ok(reply) =>
        (if Hashed(reply) then [DeleteCall(path)] else []) + (if i < attempts - 1 then [Delay(delayMs)] else [])
  }

  /** The effects of the first k iterations of a loop of `attempts`. */
  function Iterations(attempts: nat, k: nat, gens: nat -> Outcome<string>, ups: nat -> Outcome<UploadReply>,
                      delayMs: nat): seq<Effect>
  {
    if k == 0 then [] else Iterations(attempts, k - 1, gens, ups, delayMs) + Iteration(k - 1, attempts, gens(k - 1), ups(k - 1), delayMs)
  }

  /** The iterations whose generation started, in order. */
  function Generations(log: seq<Effect>): (s: seq<nat>)
    ensures |s| <= |log|
  {
    if log == [] then [] else (if log[0].Generate? then [log[0].iteration] else []) + Generations(log[1..])
  }

  /** The paths deleted, in order. */
  function Deletions(log: seq<Effect>): (s: seq<string>)
    ensures |s| <= |log|
  {
    if log == [] then [] else (if log[0].DeleteCall? then [log[0].path] else []) + Deletions(log[1..])
  }

  /** The pauses, in order. */
  function Delays(log: seq<Effect>): (s: seq<nat>)
    ensures |s| <= |log|
  {
    if log == [] then [] else (if log[0].Delay? then [log[0].ms] else []) + Delays(log[1..])
  }

  lemma {:induction false} GenerationsAppend(a: seq<Effect>, b: seq<Effect>)
    ensures Generations(a + b) == Generations(a) + Generations(b)
  {
    if a == [] {
      assert a + b == b;
    } else {
      assert (a + b)[0] == a[0] && (a + b)[1..] == a[1..] + b;
      GenerationsAppend(a[1..], b);
    }
  }

  lemma {:induction false} DeletionsAppend(a: seq<Effect>, b: seq<Effect>)
    ensures Deletions(a + b) == Deletions(a) + Deletions(b)
  {
    if a == [] {
      assert a + b == b;
    } else {
      assert (a + b)[0] == a[0] && (a + b)[1..] == a[1..] + b;
      DeletionsAppend(a[1..], b);
    }
  }

  lemma {:induction false} DelaysAppend(a: seq<Effect>, b: seq<Effect>)
    ensures Delays(a + b) == Delays(a) + Delays(b)
  {
    if a == [] {
      assert a + b == b;
    } else {
      assert (a + b)[0] == a[0] && (a + b)[1..] == a[1..] + b;
      DelaysAppend(a[1..], b);
    }
  }

  /** Each view of a concatenation is the concatenation of the views. */
  lemma ViewsAppend(a: seq<Effect>, b: seq<Effect>)
    ensures Generations(a + b) == Generations(a) + Generations(b)
    ensures Deletions(a + b) == Deletions(a) + Deletions(b)
    ensures Delays(a + b) == Delays(a) + Delays(b)
  {
    GenerationsAppend(a, b);
    DeletionsAppend(a, b);
    DelaysAppend(a, b);
  }

  lemma ViewsOne(e: Effect)
    ensures Generations([e]) == if e.Generate? then [e.iteration] else []
    ensures Deletions([e]) == if e.DeleteCall? then [e.path] else []
    ensures Delays([e]) == if e.Delay? then [e.ms] else []
  {
    assert [e][1..] == [];
  }

  /** The rules of one iteration: it starts exactly one generation; it deletes
      the generated file at most once, on the failure path exactly when a
      file was generated and on the success path exactly when the upload
      returned a hash; it pauses only after a successful upload that is not
      the last iteration. */
  lemma IterationRules(i: nat, attempts: nat, gen: Outcome<string>, up: Outcome<UploadReply>, delayMs: nat)
    ensures var log := Iteration(i, attempts, gen, up, delayMs);
            && Generations(log) == [i]
            && (gen.Err? ==> Deletions(log) == [])
            && (gen.Ok? && up.Err? ==> Deletions(log) == if gen.value != "" then [gen.value] else [])
            && (gen.Ok? && up.Ok? ==> Deletions(log) == if Hashed(up.value) then [gen.value] else [])
            && Delays(log) == if gen.Ok? && up.Ok? && i + 1 < attempts then [delayMs] else []
  {
    var log := Iteration(i, attempts, gen, up, delayMs);
    ViewsOne(Generate(i));
    if gen.Ok? {
      var path := gen.value;
      var tail := if up.Err? then (if path != "" then [DeleteCall(path)] else [])
                  else (if Hashed(up.value) then [DeleteCall(path)] else [])
                       + (if i < attempts - 1 then [Delay(delayMs)] else []);
      assert log == [Generate(i)] + ([UploadCall(path)] + tail);
      ViewsOne(UploadCall(path));
      ViewsOne(DeleteCall(path));
      ViewsOne(Delay(delayMs));
      ViewsAppend([UploadCall(path)], tail);
      ViewsAppend([Generate(i)], [UploadCall(path)] + tail);
      if up.Ok? {
        var del := if Hashed(up.value) then [DeleteCall(path)] else [];
        var pause := if i < attempts - 1 then [Delay(delayMs)] else [];
        ViewsAppend(del, pause);
        assert Deletions([]) == [] && Delays([]) == [];
      } else {
        assert Delays([]) == [] && Deletions([]) == [];
      }
    } else {
      assert log == [Generate(i)];
    }
  }

  /** Every iteration runs, in order, whatever its predecessors did: a failure
      is caught inside the iteration. */
  lemma {:induction false} EveryIterationRuns(attempts: nat, k: nat, gens: nat -> Outcome<string>,
                                              ups: nat -> Outcome<UploadReply>, delayMs: nat)
    ensures Generations(Iterations(attempts, k, gens, ups, delayMs)) == Range(0, k)
  {
    if k > 0 {
      var front := Iterations(attempts, k - 1, gens, ups, delayMs);
      var last := Iteration(k - 1, attempts, gens(k - 1), ups(k - 1), delayMs);
      assert Iterations(attempts, k, gens, ups, delayMs) == front + last;
      EveryIterationRuns(attempts, k - 1, gens, ups, delayMs);
      GenerationsAppend(front, last);
      IterationGenerates(k - 1, attempts, gens(k - 1), ups(k - 1), delayMs);
      RangeSplit(0, k - 1);
    }
  }

  /** An iteration starts exactly one generation, its own. */
  lemma IterationGenerates(i: nat, attempts: nat, gen: Outcome<string>, up: Outcome<UploadReply>, delayMs: nat)
    ensures Generations(Iteration(i, attempts, gen, up, delayMs)) == [i]
  {
    var log := Iteration(i, attempts, gen, up, delayMs);
    assert log[0] == Generate(i);
    var rest := log[1..];
    assert forall e :: e in rest ==> !e.Generate?;
    NoGenerations(rest);
    assert log == [log[0]] + rest;
  }

  lemma {:induction false} NoGenerations(log: seq<Effect>)
    requires forall e :: e in log ==> !e.Generate?
    ensures Generations(log) == []
  {
    if log != [] {
      assert log[0] in log;
      assert forall e :: e in log[1..] ==> e in log;
      NoGenerations(log[1..]);
    }
  }

  /** No pause follows the last iteration, so a loop of `attempts` pauses at
      most `attempts - 1` times. */
  lemma {:induction false} DelaysBounded(attempts: nat, k: nat, gens: nat -> Outcome<string>,
                                         ups: nat -> Outcome<UploadReply>, delayMs: nat)
    requires k <= attempts
    ensures |Delays(Iterations(attempts, k, gens, ups, delayMs))| <= k
    ensures k == attempts && k >= 1 ==> |Delays(Iterations(attempts, k, gens, ups, delayMs))| <= k - 1
  {
    if k > 0 {
      var front := Iterations(attempts, k - 1, gens, ups, delayMs);
      ViewsAppend(front, Iteration(k - 1, attempts, gens(k - 1), ups(k - 1), delayMs));
      IterationRules(k - 1, attempts, gens(k - 1), ups(k - 1), delayMs);
      DelaysBounded(attempts, k - 1, gens, ups, delayMs);
    } else {
      assert Delays([]) == [];
    }
  }

  /** `processUpload` with the maximum configured: draws the attempt count,
      then runs every attempt; attempt i generates from `gens(i)` and uploads
      with `ups(i)`, and the pause between attempts lasts `delayMs`. */
  method ProcessUpload(d: Draw, maxAttempts: nat, delayMs: nat,
                       gens: nat -> Outcome<string>, ups: nat -> Outcome<UploadReply>)
    returns (attempts: nat, log: seq<Effect>)
    ensures attempts == Attempts(d, maxAttempts)
    ensures 1 <= attempts && (maxAttempts >= 1 ==> attempts <= maxAttempts)
    ensures log == Iterations(attempts, attempts, gens, ups, delayMs)
    ensures Generations(log) == Range(0, attempts)
    ensures |Delays(log)| < attempts
  {
    attempts := Attempts(d, maxAttempts);
    log := [];
    for i := 0 to attempts
      invariant log == Iterations(attempts, i, gens, ups, delayMs)
    {
      var outputPath: Option<string> := None;
      var step := [Generate(i)];
      var gen := gens(i);
      if gen.Ok? {
        outputPath := Some(gen.value);
        step := step + [UploadCall(gen.value)];
        var up := ups(i);
        if up.Ok? {
          if Hashed(up.value) {
            step := step + [DeleteCall(gen.value)];
          }
          if i < attempts - 1 {
            step := step + [Delay(delayMs)];
          }
        } else if outputPath.value != "" {
          step := step + [DeleteCall(outputPath.value)];
        }
      }
      log := log + step;
    }
    EveryIterationRuns(attempts, attempts, gens, ups, delayMs);
    DelaysBounded(attempts, attempts, gens, ups, delayMs);
  }
}
