/**
 * The contract logic of the GraphChi PageRank operator: the shard count derived from the
 * input file size, the choice between sharding and reusing existing shards, the arity and
 * channel-type checks of `execute`, and how exceptions surface. The GraphChi engine and all
 * file-system calls are abstract: each is a step of the trace that may or may not throw.
 */
module GraphChiPageRank {
  import opened Wrappers
  import opened JavaInt

  /** The operator declares one input slot and one output slot. */
  const NumInputs: nat := 1
  const NumOutputs: nat := 1

  /** GraphChi's suggestion: roughly one shard per ten million bytes of edge list. */
  const BytesPerShard: int := 10 * 1000000

  /**
   * `2 + (int) fileSize / (10 * 1000000)`: the cast applies to the `long` file size before
   * the division, and the division truncates toward zero.
   */
  function NumShards(fileSize: int): (n: int)
    ensures -212 <= n <= 216
    ensures var q, k := LongToInt(fileSize), n - 2;
            && BytesPerShard * Abs(k) <= Abs(q) < BytesPerShard * (Abs(k) + 1)
            && (k == 0 || (k < 0 <==> q < 0))
  {
    2 + JavaDiv(LongToInt(fileSize), BytesPerShard)
  }

  /** Non-negative sizes that fit in an `int` need at least two shards, one more per ten million bytes. */
  lemma NumShardsOfIntSize(size: int)
    requires 0 <= size < TwoTo31
    ensures NumShards(size) >= 2
    ensures BytesPerShard * (NumShards(size) - 2) <= size < BytesPerShard * (NumShards(size) - 1)
  {
  }

  /** Exactly the sizes whose truncation lies strictly between minus and plus ten million get two shards. */
  lemma {:induction false} TwoShardsExactlyForSmallSizes(size: int)
    ensures NumShards(size) == 2 <==> -BytesPerShard < LongToInt(size) < BytesPerShard
  {
    var q := LongToInt(size);
    var d := JavaDiv(q, BytesPerShard);
    if -BytesPerShard < q < BytesPerShard {
      assert d == 0;
    } else if q >= BytesPerShard {
      assert d >= 1;
    } else {
      assert d <= -1;
    }
  }

  /** Sizes from 0 to 2^31 - 1 below ten million get two shards. */
  lemma SmallFilesGetTwoShards(size: int)
    requires 0 <= size < BytesPerShard
    ensures NumShards(size) == 2
  {
    TwoShardsExactlyForSmallSizes(size);
  }

  /** On sizes from 0 to 2^31 - 1 the shard count never decreases as the file grows. */
  lemma NumShardsMonotone(a: int, b: int)
    requires 0 <= a <= b < TwoTo31
    ensures NumShards(a) <= NumShards(b)
  {
    NumShardsOfIntSize(a);
    NumShardsOfIntSize(b);
  }

  /** The count depends only on the size modulo 2^32: the high bits of the `long` are discarded. */
  lemma NumShardsPeriodic(size: int)
    ensures NumShards(size + TwoTo32) == NumShards(size)
  {
    assert LongToInt(size + TwoTo32) == LongToInt(size);
  }

  /**
   * Because the cast precedes the division, a file of 2^31 bytes truncates to -2^31 and
   * yields -212 shards, and every size from 2^31 up to 2^32 - 10^7 yields fewer than two.
   */
  lemma CastBeforeDivideGoesNegative(size: int)
    requires TwoTo31 <= size <= TwoTo32 - BytesPerShard
    ensures NumShards(size) < 2
    ensures NumShards(TwoTo31) == -212
  {
    assert LongToInt(size) == size - TwoTo32;
    TwoShardsExactlyForSmallSizes(size);
    assert LongToInt(TwoTo31) == -TwoTo31;
  }

  /**
   * What a channel slot may hold: an HdfsFile (an instance of that class or of a subclass),
   * null, or a channel of another class. Only HdfsFile is supported here.
   */
  datatype ChannelKind = HdfsFile | NullChannel | OtherChannel(className: string)

  /** `getSupportedInputChannels(index)`: the singleton list of HdfsFile, whatever the index. */
  function SupportedInputChannels(index: int): (r: seq<ChannelKind>)
    ensures |r| == 1 && forall c :: c in r <==> c.HdfsFile?
  {
    [HdfsFile]
  }

  /** `getSupportedOutputChannels(index)`: the singleton list of HdfsFile, whatever the index. */
  function SupportedOutputChannels(index: int): (r: seq<ChannelKind>)
    ensures |r| == 1 && forall c :: c in r <==> c.HdfsFile?
  {
    [HdfsFile]
  }

  /**
   * The declared channel support against the casts in `execute`: the `(HdfsFile)` cast lets
   * through every supported channel and, besides those, only null; input and output support
   * agree at every index.
   */
  lemma SupportedChannelsMatchCasts(index: int, c: ChannelKind)
    ensures CastsToHdfsFile(c) <==> c in SupportedInputChannels(index) || c.NullChannel?
    ensures CastsToHdfsFile(c) <==> c in SupportedOutputChannels(index) || c.NullChannel?
    ensures SupportedInputChannels(index) == SupportedOutputChannels(0)
  {
  }

  /** Java's reference cast `(HdfsFile) c`: it succeeds on an HdfsFile and on null. */
  predicate CastsToHdfsFile(c: ChannelKind) {
    c.HdfsFile? || c.NullChannel?
  }

  /** The underlying I/O failure an IOException carries. */
  datatype IOFailure = IOFailure(message: string)

  /** The throwables the operator can raise or let through. */
  datatype Thrown =
    | IOException(failure: IOFailure)
    | UncheckedIOException(cause: IOFailure)
    | RheemException(message: string, ioCause: IOFailure)
    | AssertionError
    | ClassCastException
    | NullPointerException
    | OtherRuntimeException(className: string)

  /** The external calls `runGraphChi` makes, in program order. */
  datatype Call =
    | OpenInputFileSystem
    | CreateGraphName
    | GetFileSize
    | Shard(numShards: int)
    | RunEngine(numShards: int)
    | OpenOutputFileSystem
    | WriteOutput

  /**
   * The environment of one run: the file size the input file system reports, whether the
   * intervals file exists for a shard count, and which throwable, if any, each call raises.
   * A per-vertex IOException of the output callback appears as WriteOutput raising
   * UncheckedIOException, which is how the callback rethrows it.
   */
  datatype Env = Env(fileSize: int, intervalsExist: int -> bool, raises: Call -> Option<Thrown>)

  /** The calls of a run in which nothing throws: sharding only when no intervals file exists. */
  function PlannedCalls(env: Env): (r: seq<Call>)
    ensures |r| == 6 || |r| == 7
    ensures r[0] == OpenInputFileSystem && r[|r| - 1] == WriteOutput
  {
    var n := NumShards(env.fileSize);
    [OpenInputFileSystem, CreateGraphName, GetFileSize]
    + (if env.intervalsExist(n) then [] else [Shard(n)])
    + [RunEngine(n), OpenOutputFileSystem, WriteOutput]
  }

  /** The prefix of `calls` up to and including the first call that raises. */
  function UpToFirstRaise(calls: seq<Call>, raises: Call -> Option<Thrown>): (r: seq<Call>)
    ensures calls != [] ==> r != []
  {
    if calls == [] then []
    else if raises(calls[0]).Some? then [calls[0]]
    else [calls[0]] + UpToFirstRaise(calls[1..], raises)
  }

  /**
   * What escapes `runGraphChi` when `call` raises `e`: the output block catches an
   * UncheckedIOException and rethrows its IOException cause; everything else propagates
   * unchanged.
   */
  function Surfaced(call: Call, e: Thrown): (r: Thrown)
    ensures call == WriteOutput && e.UncheckedIOException? ==> r == IOException(e.cause)
    ensures call != WriteOutput || !e.UncheckedIOException? ==> r == e
  {
    if call == WriteOutput && e.UncheckedIOException? then IOException(e.cause) else e
  }

  /** The calls `runGraphChi` makes and the throwable it ends with, if any. */
  function RunOutcome(env: Env): (Option<Thrown>, seq<Call>) {
    var trace := UpToFirstRaise(PlannedCalls(env), env.raises);
    var last := trace[|trace| - 1];
    (if env.raises(last).Some? then Some(Surfaced(last, env.raises(last).value)) else None, trace)
  }

  /**
   * `runGraphChi` on an abstract environment: it computes the shard count, shards only when
   * the intervals file for that count is missing, runs the engine with that count and
   * writes the output, stopping at the first call that throws.
   */
  method RunGraphChi(env: Env) returns (thrown: Option<Thrown>, trace: seq<Call>)
    ensures (thrown, trace) == RunOutcome(env)
  {
    var numShards := NumShards(env.fileSize);
    ghost var planned := PlannedCalls(env);
    PlannedCallsAt(env);

    trace := [OpenInputFileSystem];
    assert trace == planned[..1];
    CallOutcome(env, 0);
    if env.raises(OpenInputFileSystem).Some? {
      return Some(env.raises(OpenInputFileSystem).value), trace;
    }
    trace := trace + [CreateGraphName];
    CallOutcome(env, 1);
    if env.raises(CreateGraphName).Some? {
      return Some(env.raises(CreateGraphName).value), trace;
    }
    trace := trace + [GetFileSize];
    CallOutcome(env, 2);
    if env.raises(GetFileSize).Some? {
      return Some(env.raises(GetFileSize).value), trace;
    }
    if !env.intervalsExist(numShards) {
      trace := trace + [Shard(numShards)];
      CallOutcome(env, 3);
      if env.raises(Shard(numShards)).Some? {
        return Some(env.raises(Shard(numShards)).value), trace;
      }
    }
    ghost var k := |trace|;
    assert trace == planned[..k] && k == |planned| - 3;
    trace := trace + [RunEngine(numShards)];
    CallOutcome(env, k);
    if env.raises(RunEngine(numShards)).Some? {
      return Some(env.raises(RunEngine(numShards)).value), trace;
    }
    trace := trace + [OpenOutputFileSystem];
    CallOutcome(env, k + 1);
    if env.raises(OpenOutputFileSystem).Some? {
      return Some(env.raises(OpenOutputFileSystem).value), trace;
    }
    trace := trace + [WriteOutput];
    CallOutcome(env, k + 2);
    match env.raises(WriteOutput)
    case None =>
      RunOutcomeWithoutRaise(env);
      assert trace == planned[..|planned|] == planned;
      thrown := None;
    case Some(e) =>
      thrown := Some(Surfaced(WriteOutput, e));
  }

  /** The planned calls, position by position. */
  lemma PlannedCallsAt(env: Env)
    ensures var planned, n := PlannedCalls(env), NumShards(env.fileSize);
            && |planned| == (if env.intervalsExist(n) then 6 else 7)
            && planned[0] == OpenInputFileSystem && planned[1] == CreateGraphName && planned[2] == GetFileSize
            && (!env.intervalsExist(n) ==> planned[3] == Shard(n))
            && planned[|planned| - 3] == RunEngine(n)
            && planned[|planned| - 2] == OpenOutputFileSystem
            && planned[|planned| - 1] == WriteOutput
  {
  }

  /** No call before position `k` of the plan raises. */
  ghost predicate NoneRaisedBefore(env: Env, k: nat) {
    forall j :: 0 <= j < k && j < |PlannedCalls(env)| ==> env.raises(PlannedCalls(env)[j]).None?
  }

  /**
   * Call `k` of the plan, reached without a raise: the run stops there with what that raise
   * surfaces as when it raises, and goes on past it otherwise.
   */
  lemma CallOutcome(env: Env, k: nat)
    requires k < |PlannedCalls(env)| && NoneRaisedBefore(env, k)
    ensures var planned, c := PlannedCalls(env), PlannedCalls(env)[k];
            && planned[..k + 1] == planned[..k] + [c]
            && (env.raises(c).Some? ==> RunOutcome(env) == (Some(Surfaced(c, env.raises(c).value)), planned[..k + 1]))
            && (env.raises(c).None? ==> NoneRaisedBefore(env, k + 1))
  {
    var planned := PlannedCalls(env);
    var c := planned[k];
    assert planned[..k + 1] == planned[..k] + [c];
    if env.raises(c).Some? {
      SkipsNonRaising(planned, k, env.raises);
      assert planned[k..][0] == c;
      var trace := UpToFirstRaise(planned, env.raises);
      assert trace == planned[..k + 1] && trace[|trace| - 1] == c;
    }
  }

  /** When no planned call raises, the run makes every planned call and throws nothing. */
  lemma RunOutcomeWithoutRaise(env: Env)
    requires NoneRaisedBefore(env, |PlannedCalls(env)|)
    ensures RunOutcome(env) == (None, PlannedCalls(env))
  {
    var planned := PlannedCalls(env);
    var n := |planned|;
    SkipsNonRaising(planned, n, env.raises);
    assert planned[n..] == [] && planned[..n] == planned;
    assert UpToFirstRaise(planned[n..], env.raises) == [];
    var trace := UpToFirstRaise(planned, env.raises);
    assert trace == planned;
    assert env.raises(planned[n - 1]).None?;
  }

  /** A run that gets past the first `i` calls without a raise has made exactly those calls. */
  lemma {:induction false} SkipsNonRaising(calls: seq<Call>, i: nat, raises: Call -> Option<Thrown>)
    requires i <= |calls|
    requires forall j :: 0 <= j < i ==> raises(calls[j]).None?
    ensures UpToFirstRaise(calls, raises) == calls[..i] + UpToFirstRaise(calls[i..], raises)
  {
    if i > 0 {
      var tail := calls[1..];
      assert raises(calls[0]).None?;
      forall j | 0 <= j < i - 1 ensures raises(tail[j]).None? {
        assert tail[j] == calls[j + 1];
      }
      SkipsNonRaising(tail, i - 1, raises);
      assert tail[i - 1..] == calls[i..];
      assert calls[..i] == [calls[0]] + tail[..i - 1];
    }
  }

  /**
   * The run stops at the first raising call: every call it makes before the last one
   * returned normally, and it stops short of the plan only at a call that raised.
   */
  lemma {:induction false} UpToFirstRaiseStops(calls: seq<Call>, raises: Call -> Option<Thrown>)
    ensures var r := UpToFirstRaise(calls, raises);
            && r <= calls
            && (forall i :: 0 <= i < |r| - 1 ==> raises(r[i]).None?)
            && (|r| < |calls| ==> raises(r[|r| - 1]).Some?)
  {
    if calls != [] && raises(calls[0]).None? {
      var tail := UpToFirstRaise(calls[1..], raises);
      UpToFirstRaiseStops(calls[1..], raises);
      assert UpToFirstRaise(calls, raises) == [calls[0]] + tail;
      assert forall i :: 1 <= i < |tail| + 1 ==> ([calls[0]] + tail)[i] == tail[i - 1];
    }
  }

  /**
   * Sharding happens exactly when the intervals file for the computed shard count is
   * missing, and the sharder and the engine are both given that count; a run that got past
   * the file-size call shards exactly in that case.
   */
  lemma ShardsExactlyWhenIntervalsMissing(env: Env)
    ensures var n := NumShards(env.fileSize);
            && (forall k :: Shard(k) in PlannedCalls(env) ==> k == n && !env.intervalsExist(n))
            && (!env.intervalsExist(n) ==> Shard(n) in PlannedCalls(env))
            && (forall k :: RunEngine(k) in PlannedCalls(env) ==> k == n)
            && RunEngine(n) in PlannedCalls(env)
    ensures var n, trace := NumShards(env.fileSize), RunOutcome(env).1;
            && (forall k :: Shard(k) in trace ==> k == n && !env.intervalsExist(n))
            && (forall k :: RunEngine(k) in trace ==> k == n)
            && (|trace| > 3 ==> (Shard(n) in trace <==> !env.intervalsExist(n)))
  {
    var n := NumShards(env.fileSize);
    var planned := PlannedCalls(env);
    var trace := RunOutcome(env).1;
    UpToFirstRaiseStops(planned, env.raises);
    assert forall c :: c in trace ==> c in planned;
    if |trace| > 3 && !env.intervalsExist(n) {
      assert trace[3] == planned[3] == Shard(n);
    }
  }

  /** How `execute` rethrows what escapes `runGraphChi`: an IOException becomes a RheemException wrapping it. */
  function Wrapped(description: string, thrown: Option<Thrown>): (r: Option<Thrown>)
    ensures r.None? <==> thrown.None?
    ensures r.Some? ==> !r.value.IOException?
    ensures thrown.Some? && !thrown.value.IOException? ==> r == thrown
  {
    match thrown
    case Some(IOException(failure)) => Some(RheemException("Running " + description + " failed.", failure))
    case _ => thrown
  }

  /**
   * The environment `runGraphChi` meets for the given channels. A null channel is first
   * dereferenced by `getSinglePath()`, inside the call that opens its file system, which
   * then raises NullPointerException.
   */
  function EnvFor(env: Env, input: ChannelKind, output: ChannelKind): (r: Env)
    ensures r.fileSize == env.fileSize && r.intervalsExist == env.intervalsExist
    ensures input.NullChannel? ==> r.raises(OpenInputFileSystem) == Some(NullPointerException)
    ensures output.NullChannel? ==> r.raises(OpenOutputFileSystem) == Some(NullPointerException)
    ensures forall c :: (c == OpenInputFileSystem ==> !input.NullChannel?) && (c == OpenOutputFileSystem ==> !output.NullChannel?)
                        ==> r.raises(c) == env.raises(c)
    ensures !input.NullChannel? && !output.NullChannel? ==> r == env
  {
    if !input.NullChannel? && !output.NullChannel? then env
    else
      env.(raises := (c: Call) =>
        if (c == OpenInputFileSystem && input.NullChannel?) || (c == OpenOutputFileSystem && output.NullChannel?)
        then Some(NullPointerException)
        else env.raises(c))
  }

  /**
   * `execute(inputChannels, outputChannels)`, with assertions enabled: the arity checks, the
   * two `(HdfsFile)` casts, then `runGraphChi`, whose IOException is wrapped into a
   * RheemException; the trace lists the external calls made.
   */
  method Execute(inputs: seq<ChannelKind>, outputs: seq<ChannelKind>, env: Env, description: string)
    returns (thrown: Option<Thrown>, trace: seq<Call>)
    ensures |inputs| != NumInputs || |outputs| != NumOutputs ==> thrown == Some(AssertionError) && trace == []
    ensures |inputs| == NumInputs && |outputs| == NumOutputs && !(CastsToHdfsFile(inputs[0]) && CastsToHdfsFile(outputs[0]))
            ==> thrown == Some(ClassCastException) && trace == []
    ensures |inputs| == NumInputs && |outputs| == NumOutputs && CastsToHdfsFile(inputs[0]) && CastsToHdfsFile(outputs[0])
            ==> var run := RunOutcome(EnvFor(env, inputs[0], outputs[0]));
                trace == run.1 && thrown == Wrapped(description, run.0)
    ensures |inputs| == NumInputs && |outputs| == NumOutputs && inputs[0].HdfsFile? && outputs[0].HdfsFile?
            ==> trace == RunOutcome(env).1 && thrown == Wrapped(description, RunOutcome(env).0)
  {
    if |inputs| != NumInputs || |outputs| != NumOutputs {
      return Some(AssertionError), [];
    }
    if !CastsToHdfsFile(inputs[0]) || !CastsToHdfsFile(outputs[0]) {
      return Some(ClassCastException), [];
    }
    var runThrown;
    runThrown, trace := RunGraphChi(EnvFor(env, inputs[0], outputs[0]));
    thrown := Wrapped(description, runThrown);
  }

  /** A null input channel fails `runGraphChi` with NullPointerException before anything else happens. */
  lemma NullInputFailsFirst(env: Env, output: ChannelKind)
    ensures RunOutcome(EnvFor(env, NullChannel, output)) == (Some(NullPointerException), [OpenInputFileSystem])
  {
    var e := EnvFor(env, NullChannel, output);
    PlannedCallsAt(e);
    CallOutcome(e, 0);
    assert PlannedCalls(e)[..1] == [OpenInputFileSystem];
  }

  /**
   * A null output channel, with a non-null input, makes the run fail before the output is
   * written: it stops at the first raising call, at the latest when opening the output file
   * system, and the output write is never made.
   */
  lemma {:induction false} NullOutputFailsBeforeWrite(env: Env, input: ChannelKind)
    requires !input.NullChannel?
    ensures var (thrown, trace) := RunOutcome(EnvFor(env, input, NullChannel));
            && thrown.Some?
            && WriteOutput !in trace
            && (forall i :: 0 <= i < |trace| - 1 ==> env.raises(trace[i]).None?)
  {
    var e := EnvFor(env, input, NullChannel);
    var planned := PlannedCalls(e);
    var trace := UpToFirstRaise(planned, e.raises);
    PlannedCallsAt(e);
    UpToFirstRaiseStops(planned, e.raises);
    var n := |planned|;
    assert |trace| < n;
    assert WriteOutput !in trace by {
      forall i | 0 <= i < |trace| ensures trace[i] != WriteOutput {
        assert trace[i] == planned[i];
        assert i < n - 1;
      }
    }
    forall i | 0 <= i < |trace| - 1 ensures env.raises(trace[i]).None? {
      assert trace[i] == planned[i];
      assert e.raises(trace[i]).None?;
    }
  }

  /**
   * No IOException escapes `execute`: one raised by any call of the run, including the
   * per-vertex writes of the output callback that reach the operator as an
   * UncheckedIOException, surfaces as a RheemException carrying the same failure; other
   * throwables, including an UncheckedIOException outside the output block, propagate as
   * they are.
   */
  lemma IOFailuresSurfaceWrapped(env: Env, description: string)
    ensures var (thrown, trace) := RunOutcome(env);
            var last := trace[|trace| - 1];
            var message := "Running " + description + " failed.";
            && (Wrapped(description, thrown).Some? <==> env.raises(last).Some?)
            && (forall f :: env.raises(last) == Some(IOException(f))
                  ==> Wrapped(description, thrown) == Some(RheemException(message, f)))
            && (forall f :: last == WriteOutput && env.raises(last) == Some(UncheckedIOException(f))
                  ==> Wrapped(description, thrown) == Some(RheemException(message, f)))
            && (last != WriteOutput && env.raises(last).Some? && !env.raises(last).value.IOException?
                ==> Wrapped(description, thrown) == env.raises(last))
  {
  }
}
