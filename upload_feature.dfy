/** The file-upload feature: generate a temporary file, read its size, upload
    it, and delete it again on every path that generated it; plus the minimum
    balance preflight. The generator, `fs.stat`, the storage upload and
    `deleteFile` are collaborators whose outcomes are parameters. */
module UploadFeatures {
  import opened Outcomes
  import opened Text
  import opened Feature
  import Config

  const UploadFeatureName: string := "File Upload"

  /** What the storage upload returned: an array, whose first element is a
      transaction hash string or absent, or some other value. */
  datatype UploadReply = ArrayReply(first: Option<string>) | NotArray

  /** `const [txHash] = Array.isArray(tx) ? tx : [null]`. */
  function TxHashOf(reply: UploadReply): (h: Option<string>)
    ensures reply.NotArray? ==> h == None
    ensures reply.ArrayReply? ==> h == reply.first
  {
    match reply
    case ArrayReply(first) => first
    case NotArray => None
  }

  /** The filesystem and storage calls the feature makes, in order. */
  datatype FileCall = Stat(path: string) | Upload(path: string) | Delete(path: string)

  /** The paths handed to `deleteFile`, in order. */
  function Deleted(calls: seq<FileCall>): (paths: seq<string>)
    ensures |paths| <= |calls|
  {
    if calls == [] then []
    else (if calls[0].Delete? then [calls[0].path] else []) + Deleted(calls[1..])
  }

  /** The paths handed to the storage upload, in order. */
  function Uploaded(calls: seq<FileCall>): (paths: seq<string>)
    ensures |paths| <= |calls|
  {
    if calls == [] then []
    else (if calls[0].Upload? then [calls[0].path] else []) + Uploaded(calls[1..])
  }

  /** The cleanup `if (outputPath) deleteFile(outputPath)`: one deletion of a
      non-empty path, none of the empty one. */
  function Cleanup(path: string): (calls: seq<FileCall>)
    ensures Deleted(calls) == if path != "" then [path] else []
    ensures Uploaded(calls) == []
  {
    if path != "" then [Delete(path)] else []
  }

  /** The size in KB as `(size / 1024).toFixed(2)` shows it. */
  function FileSizeKB(size: nat): string
  {
    ToFixed(size, 1024, 2)
  }

  /** The size shows as whole kilobytes, a point and two digits, which read
      back as size / 1024 in hundredths, rounded half up. */
  lemma FileSizeKBReadsBack(size: nat)
    ensures var kb := FileSizeKB(size);
            && |kb| >= 4 && kb[|kb| - 3] == '.'
            && AllDigits(kb[..|kb| - 3]) && AllDigits(kb[|kb| - 2..])
            && var hundredths := ParseNat(kb[..|kb| - 3]) * 100 + ParseNat(kb[|kb| - 2..]);
               2 * 1024 * hundredths <= 200 * size + 1024 < 2 * 1024 * (hundredths + 1)
  {
    ToFixedReadsBack(size, 1024, 2);
  }

  /** `performAction`: the temporary file generated by `generate` is deleted
      exactly once whether the size read and the upload succeed or throw, and
      a failure is rethrown after that cleanup; a generation that throws
      propagates with nothing to delete. */
  method PerformAction(generate: Outcome<string>, stat: Outcome<nat>, upload: Outcome<UploadReply>)
    returns (r: Outcome<ActionResult>, calls: seq<FileCall>)
    ensures generate.Err? ==> r == Err(generate.error) && calls == []
    ensures generate.Ok? ==>
              var path := generate.value;
              && calls != [] && calls[0] == Stat(path)
              && Deleted(calls) == (if path != "" then [path] else [])
              && (path != "" ==> calls[|calls| - 1] == Delete(path))
              && Uploaded(calls) == (if stat.Ok? then [path] else [])
    ensures generate.Ok? && stat.Err? ==> r == Err(stat.error)
    ensures generate.Ok? && stat.Ok? && upload.Err? ==> r == Err(upload.error)
    ensures generate.Ok? && stat.Ok? && upload.Ok? ==>
              r == Ok(UploadResult(TxHashOf(upload.value), FileSizeKB(stat.value), generate.value))
  {
    if generate.Err? {
      return Err(generate.error), [];
    }
    var outputPath := generate.value;
    calls := [Stat(outputPath)];
    assert Deleted(calls) == [] && Uploaded(calls) == [];
    if stat.Err? {
      EffectsAppend(calls, Cleanup(outputPath));
      return Err(stat.error), calls + Cleanup(outputPath);
    }
    var fileSizeKB := FileSizeKB(stat.value);
    EffectsAppend(calls, [Upload(outputPath)]);
    calls := calls + [Upload(outputPath)];
    if upload.Err? {
      EffectsAppend(calls, Cleanup(outputPath));
      return Err(upload.error), calls + Cleanup(outputPath);
    }
    var txHash := TxHashOf(upload.value);
    EffectsAppend(calls, Cleanup(outputPath));
    calls := calls + Cleanup(outputPath);
    r := Ok(UploadResult(txHash, fileSizeKB, outputPath));
  }

  lemma {:induction false} EffectsAppend(a: seq<FileCall>, b: seq<FileCall>)
    ensures Deleted(a + b) == Deleted(a) + Deleted(b)
    ensures Uploaded(a + b) == Uploaded(a) + Uploaded(b)
  {
    if a == [] {
      assert a + b == b;
    } else {
      var d: seq<string> := if a[0].Delete? then [a[0].path] else [];
      var u: seq<string> := if a[0].Upload? then [a[0].path] else [];
      assert (a + b)[0] == a[0] && (a + b)[1..] == a[1..] + b;
      assert Deleted(a + b) == d + Deleted(a[1..] + b) && Uploaded(a + b) == u + Uploaded(a[1..] + b);
      EffectsAppend(a[1..], b);
      assert Deleted(a) == d + Deleted(a[1..]) && Uploaded(a) == u + Uploaded(a[1..]);
    }
  }

  /** The minimum native balance the preflight asks for, 0.001 0G in wei. */
  const MinUploadBalance: nat := 1_000_000_000_000_000

  function InsufficientBalance(balance: nat): string
  {
    "Insufficient balance: " + FormatUnits(balance, Config.TokenDecimals) + " " + Config.TokenSymbol
    + " (minimum: 0.001 " + Config.TokenSymbol + ")"
  }

  /** `preExecutionChecks`: passes exactly when the wallet holds at least
      0.001 0G, and otherwise fails showing the balance as ethers formats it. */
  function PreExecutionChecks(balance: nat): (r: Outcome<bool>)
    ensures r.Ok? <==> balance >= MinUploadBalance
    ensures r.Ok? ==> r.value
    ensures r.Err? ==> r.error == InsufficientBalance(balance)
  {
    if balance < MinUploadBalance then Err(InsufficientBalance(balance)) else Ok(true)
  }
}
