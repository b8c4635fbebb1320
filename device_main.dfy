/**
 * The C device template resources/digitaltwin/ansic/visualstudio/connectionstring/main.c:
 * the portable `sleep_ms` and the argument and initialisation checks of
 * `main` before its endless run-and-sleep loop.
 */
module DeviceMain {
  import opened Wrappers

  /** C's `/` on `int`, which truncates toward zero. */
  function CDiv(a: int, b: int): (q: int)
    requires b > 0
    ensures a >= 0 ==> q == a / b
    ensures q * b + CRem(a, b) == a
  {
    if a >= 0 then a / b else -((-a) / b)
  }

  /** C's `%` on `int`: its sign follows the dividend. */
  function CRem(a: int, b: int): (r: int)
    requires b > 0
    ensures -b < r < b
    ensures a >= 0 ==> 0 <= r
    ensures a <= 0 ==> r <= 0
  {
    if a >= 0 then a % b else -((-a) % b)
  }

  /** A `struct timespec`. */
  datatype Timespec = Timespec(tv_sec: int, tv_nsec: int)

  /**
   * The POSIX branch of `sleep_ms`: whole seconds and the remaining
   * milliseconds as nanoseconds. The two fields together are the requested
   * time, and the nanoseconds stay under one second.
   */
  function SleepTimespec(milliseconds: int): (ts: Timespec)
    ensures ts.tv_sec * 1000 + ts.tv_nsec / 1000000 == milliseconds
    ensures ts.tv_nsec % 1000000 == 0
    ensures -1000000000 < ts.tv_nsec < 1000000000
    ensures milliseconds >= 0 ==> 0 <= ts.tv_nsec && 0 <= ts.tv_sec
  {
    var rem := CRem(milliseconds, 1000);
    var ns := rem * 1000000;
    assert ns / 1000000 == rem;
    Timespec(CDiv(milliseconds, 1000), ns)
  }

  /** The three preprocessor branches of `sleep_ms`. */
  datatype Platform = Windows | Posix | OtherUnix

  /** The system call `sleep_ms` makes. */
  datatype SleepCall = Sleep(ms: int) | Nanosleep(ts: Timespec) | Usleep(us: int)

  /**
   * `sleep_ms` on each platform: every branch asks for the same duration,
   * in the unit its system call takes.
   */
  function SleepMs(platform: Platform, milliseconds: int): (call: SleepCall)
    ensures call.Sleep? <==> platform == Windows
    ensures call.Sleep? ==> call.ms == milliseconds
    ensures call.Nanosleep? ==> call.ts.tv_sec * 1000 + call.ts.tv_nsec / 1000000 == milliseconds
    ensures call.Usleep? ==> call.us / 1000 == milliseconds && call.us % 1000 == 0
  {
    match platform
    case Windows => Sleep(milliseconds)
    case Posix => Nanosleep(SleepTimespec(milliseconds))
    case OtherUnix => Usleep(milliseconds * 1000)
  }

  /** What `main` does, in order. */
  datatype Call = LogError(message: string) | Initialize(connectionString: string) | Run | SleepFor(ms: int)

  /** The first `rounds` turns of the endless loop: run, then sleep 100 ms. */
  function LoopCalls(rounds: nat): (r: seq<Call>)
    ensures |r| == 2 * rounds
    ensures forall i :: 0 <= i < |r| ==> r[i] == if i % 2 == 0 then Run else SleepFor(100)
  {
    if rounds == 0 then [] else LoopCalls(rounds - 1) + [Run, SleepFor(100)]
  }

  /** The messages `main` logs before it returns 1. */
  const UsageMessage := "USAGE: {PROJECT_NAME} [IoTHub device connection string]"
  const InitializeFailedMessage := "Failed to initialize the application."

  /**
   * `main` with the device library's answers as parameters: `args` is
   * `argv` (its length is `argc`), `initResult` what
   * `pnp_device_initialize` returns. The loop never ends, so the method
   * runs `rounds` turns of it and reports no exit code.
   */
  method RunMain(args: seq<string>, initResult: int, rounds: nat) returns (exitCode: Option<int>, calls: seq<Call>)
    ensures |args| != 2 ==> exitCode == Some(1) && calls == [LogError(UsageMessage)]
    ensures |args| == 2 ==> |calls| >= 1 && calls[0] == Initialize(args[1])
    ensures |args| == 2 && initResult != 0 ==> exitCode == Some(1) && calls == [Initialize(args[1]), LogError(InitializeFailedMessage)]
    ensures |args| == 2 && initResult == 0 ==> exitCode.None? && calls == [Initialize(args[1])] + LoopCalls(rounds)
  {
    if |args| != 2 {
      return Some(1), [LogError(UsageMessage)];
    }
    calls := [Initialize(args[1])];
    if initResult != 0 {
      return Some(1), calls + [LogError(InitializeFailedMessage)];
    }
    var i := 0;
    while i < rounds
      invariant 0 <= i <= rounds
      invariant calls == [Initialize(args[1])] + LoopCalls(i)
    {
      calls := calls + [Run, SleepFor(100)];
      i := i + 1;
    }
    exitCode := None;
  }
}
