/**
 * pkg/host/session.go readPump over the real objects: one goroutine moves each chunk read from the
 * PTY into the ring, through the monitor, and onto the durable log, so all three stay on one axis.
 */
module SessionPump {
  import opened Bytes
  import opened RingBuffer
  import opened CommandMonitor
  import opened SessionLog

  datatype ReadError = NoError | DeadlineExceeded | EndOfStream

  /**
   * One return of ptmx.Read: the clock, the bytes, and the error; whether the log file then fails;
   * and whether a pause has been asked for by the time the error is looked at.
   */
  datatype PtyRead = PtyRead(ms: int, data: seq<byte>, err: ReadError, logFails: bool, paused: bool)

  datatype Left = StillReading | Paused | Ended

  /** All the bytes of these reads. */
  function AllData(rs: seq<PtyRead>): seq<byte> {
    if rs == [] then [] else AllData(rs[..|rs| - 1]) + rs[|rs| - 1].data
  }

  /** What the log is given for a read: one record, stamped when it came, if it gave bytes. */
  function LogCall(r: PtyRead): seq<Call> { if r.data == [] then [] else [Call(r.ms, r.data)] }

  function LogCalls(rs: seq<PtyRead>): seq<Call> {
    if rs == [] then [] else LogCalls(rs[..|rs| - 1]) + LogCall(rs[|rs| - 1])
  }

  /** The file refused one of these reads' bytes. */
  predicate LogFailed(rs: seq<PtyRead>) { exists i :: 0 <= i < |rs| && rs[i].data != [] && rs[i].logFails }

  class Session {
    const ring: Ring
    const mon: Monitor
    const logw: SessionLogWriter?
    var logBroken: bool
    var exited: bool
    var readerDone: bool
    /** Everything the PTY gave, and the part of it the log was not given. */
    ghost var output: seq<byte>
    ghost var unlogged: seq<byte>

    /** Ring, marks and log describe one and the same output. */
    ghost predicate Valid()
      reads this, ring, ring.buf, mon, logw
    {
      && ring.Valid() && Mirrors(ring.Abs(), ring.buf.Length, output)
      && mon.State() == Fed(Blank, output).0 && mon.emitted == Fed(Blank, output).1
      && (logw != null ==> logw.Valid() && CallData(logw.calls) + unlogged == output)
      && (logw != null && !logBroken && !exited ==> unlogged == [] && !logw.closed)
    }

    constructor (capBytes: nat, withLog: bool, startMs: int)
      requires capBytes > 0
      ensures Valid() && output == [] && !exited && !readerDone && !logBroken
      ensures ring.buf.Length == capBytes && (logw != null <==> withLog)
      ensures fresh(ring) && fresh(ring.buf) && fresh(mon) && (logw != null ==> fresh(logw) && logw.startMs == startMs)
    {
      var r := new Ring(capBytes);
      var m := new Monitor();
      var w: SessionLogWriter? := null;
      if withLog {
        w := new SessionLogWriter(startMs);
      }
      ring, mon, logw := r, m, w;
      logBroken, exited, readerDone := false, false, false;
      output, unlogged := [], [];
    }

    /** The first failed append ends the log for good; `logFails` says whether the file refuses this one. */
    method AppendLog(ms: int, p: seq<byte>, logFails: bool, ghost was: seq<byte>)
      requires output == was + p
      requires logw != null ==> logw.Valid() && CallData(logw.calls) + unlogged == was
      requires logw != null && !logBroken ==> unlogged == [] && !logw.closed
      modifies this`logBroken, this`unlogged, logw
      ensures logBroken == (old(logBroken) || (logw != null && logFails))
      ensures logw != null ==> logw.Valid() && CallData(logw.calls) + unlogged == output
      ensures logw != null && !logBroken ==> unlogged == [] && !logw.closed
      ensures logw != null && !logBroken ==> logw.calls == old(logw.calls) + [Call(ms, p)]
    {
      if logw == null || logBroken {
        unlogged := unlogged + p;
        return;
      }
      ghost var calls := logw.calls;
      var ok := false;
      if !logFails {
        ok := logw.Append(ms, p);
        assert logw.calls[..|logw.calls| - 1] == calls;
        assert CallData(logw.calls) + [] == CallData(calls) + [] + p;
      }
      if !ok {
        logBroken := true;
        unlogged := unlogged + p;
      }
    }

    /** The body of the loop for a read that gave bytes. */
    method TakeIn(ms: int, p: seq<byte>, logFails: bool)
      requires Valid() && !exited
      modifies this`output, this`logBroken, this`unlogged, ring, ring.buf, mon, logw
      ensures Valid() && output == old(output) + p
      ensures logBroken == (old(logBroken) || (logw != null && logFails))
      ensures logw != null && !logBroken ==> logw.calls == old(logw.calls) + [Call(ms, p)]
    {
      WrittenMirrors(ring.Abs(), ring.buf.Length, output, p);
      FedConcat(Blank, output, p);
      ring.Write(p);
      mon.Feed(p);
      ghost var was := output;
      output := output + p;
      AppendLog(ms, p, logFails, was);
    }

    /** finish: the exit becomes visible, and only then is the log closed. */
    method Finish()
      requires Valid()
      modifies this`exited, logw
      ensures Valid() && exited && (logw != null ==> logw.calls == old(logw.calls))
    {
      exited := true;
      if logw != null {
        logw.Close();
      }
    }

    /** The bytes of a read, if it gave any. */
    method TakeAny(read: PtyRead)
      requires Valid() && !exited
      modifies this`output, this`logBroken, this`unlogged, ring, ring.buf, mon, logw
      ensures Valid() && output == old(output) + read.data
      ensures logBroken == (old(logBroken) || (logw != null && read.data != [] && read.logFails))
      ensures logw != null && !logBroken ==> Calls() == old(Calls()) + LogCall(read)
    {
      assert output + [] == output && Calls() + [] == Calls();
      if |read.data| > 0 {
        TakeIn(read.ms, read.data, read.logFails);
      }
    }

    /** One turn of the loop. */
    method OneRead(read: PtyRead) returns (left: Left)
      requires Valid() && !exited && !readerDone
      modifies this`output, this`logBroken, this`unlogged, this`exited, this`readerDone, ring, ring.buf, mon, logw
      ensures Valid() && output == old(output) + read.data
      ensures left.StillReading? <==> read.err.NoError?
      ensures left.Paused? <==> read.paused && read.err.DeadlineExceeded?
      ensures exited == left.Ended? && readerDone == !left.StillReading?
      ensures logBroken == (old(logBroken) || (logw != null && read.data != [] && read.logFails))
      ensures logw != null && !logBroken ==> Calls() == old(Calls()) + LogCall(read)
    {
      TakeAny(read);
      if read.err.NoError? {
        return StillReading;
      }
      readerDone := true;
      if read.paused && read.err.DeadlineExceeded? {
        return Paused;
      }
      Finish();
      return Ended;
    }

    /**
     * readPump over the reads the PTY answers, of which it makes n: all, if none of them fails, and
     * otherwise up to the first that fails, whose bytes still count. It pauses if that is a deadline
     * while a pause is asked for, and finishes the session on any other error. Every byte taken from
     * the PTY is in the ring, the marks and the log together, the exit shows only after the last of
     * them, and the log has one record for each read with bytes, until it fails.
     */
    method ReadPump(got: seq<PtyRead>) returns (left: Left, ghost n: nat)
      requires Valid() && !exited && !readerDone
      modifies this`output, this`logBroken, this`unlogged, this`exited, this`readerDone, ring, ring.buf, mon, logw
      ensures n <= |got| && Made(got, n, left)
      ensures exited == left.Ended? && readerDone == !left.StillReading?
      ensures Valid() && output == old(output) + AllData(got[..n])
      ensures logw != null ==> Logged(old(Calls()), old(logBroken), got[..n], Calls(), logBroken)
    {
      ghost var was, calls, broken := output, Calls(), logBroken;
      NothingYet(was, calls, broken, got);
      var i := 0;
      left := StillReading;
      while i < |got| && left.StillReading?
        invariant 0 <= i <= |got| && SoFar(got, i, left, was, calls, broken)
        decreases |got| - i
      {
        left := ReadAt(got, i, was, calls, broken);
        i := i + 1;
      }
      n := i;
      AllMade(got, i, left);
    }

    ghost function Calls(): seq<Call>
      reads this, logw
    {
      if logw == null then [] else logw.calls
    }

    /** Where ReadPump's loop is after i reads. */
    ghost predicate SoFar(got: seq<PtyRead>, i: nat, left: Left, was: seq<byte>, calls: seq<Call>, broken: bool)
      reads this, ring, ring.buf, mon, logw
      requires i <= |got|
    {
      && Valid() && MadeSoFar(got, i, left) && exited == left.Ended? && readerDone == !left.StillReading?
      && output == was + AllData(got[..i])
      && (logw != null ==> Logged(calls, broken, got[..i], Calls(), logBroken))
    }

    method ReadAt(got: seq<PtyRead>, i: nat, ghost was: seq<byte>, ghost calls: seq<Call>, ghost broken: bool)
      returns (left: Left)
      requires i < |got| && SoFar(got, i, StillReading, was, calls, broken)
      modifies this`output, this`logBroken, this`unlogged, this`exited, this`readerDone, ring, ring.buf, mon, logw
      ensures SoFar(got, i + 1, left, was, calls, broken)
    {
      ghost var before, brokenBefore := Calls(), logBroken;
      NextRead(got, i, was);
      left := OneRead(got[i]);
      OneMoreMade(got, i, left);
      if logw != null {
        NextLogged(calls, broken, got, i, before, brokenBefore, Calls(), logBroken);
      }
    }
  }

  /**
   * The pump has left in this way after n reads: still reading if and only if none fails, all of them
   * made; and else with the first that fails, paused if and only if that is a deadline in a pause.
   */
  ghost predicate Made(got: seq<PtyRead>, n: nat, left: Left)
    requires n <= |got|
  {
    && (forall i :: 0 <= i < n - 1 ==> got[i].err.NoError?)
    && (left.StillReading? <==> forall i :: 0 <= i < |got| ==> got[i].err.NoError?)
    && (left.StillReading? ==> n == |got|)
    && (!left.StillReading? ==> n > 0 && !got[n - 1].err.NoError?)
    && (!left.StillReading? ==> (left.Paused? <==> got[n - 1].paused && got[n - 1].err.DeadlineExceeded?))
  }

  /** In the loop, with reads still to come. */
  ghost predicate MadeSoFar(got: seq<PtyRead>, n: nat, left: Left)
    requires n <= |got|
  {
    && (forall i :: 0 <= i < n - 1 ==> got[i].err.NoError?)
    && (if n == 0 then left.StillReading?
        else
          && (left.StillReading? <==> got[n - 1].err.NoError?)
          && (left.Paused? <==> got[n - 1].paused && got[n - 1].err.DeadlineExceeded?))
  }

  /** The log held `calls`, and holds `now` after these reads: a record for each with bytes, unless it has failed. */
  ghost predicate Logged(calls: seq<Call>, broken: bool, rs: seq<PtyRead>, now: seq<Call>, brokenNow: bool) {
    (brokenNow <==> broken || LogFailed(rs)) && (!brokenNow ==> now == calls + LogCalls(rs))
  }

  lemma OneMoreMade(got: seq<PtyRead>, i: nat, left: Left)
    requires i < |got| && MadeSoFar(got, i, StillReading)
    requires left.StillReading? <==> got[i].err.NoError?
    requires left.Paused? <==> got[i].paused && got[i].err.DeadlineExceeded?
    ensures MadeSoFar(got, i + 1, left)
  {
  }

  lemma AllMade(got: seq<PtyRead>, n: nat, left: Left)
    requires n <= |got| && MadeSoFar(got, n, left) && (n == |got| || !left.StillReading?)
    ensures Made(got, n, left)
  {
  }

  lemma NothingYet(was: seq<byte>, calls: seq<Call>, broken: bool, got: seq<PtyRead>)
    ensures was == was + AllData(got[..0]) && Logged(calls, broken, got[..0], calls, broken)
  {
    assert calls + [] == calls;
  }

  lemma NextRead(got: seq<PtyRead>, i: nat, was: seq<byte>)
    requires i < |got|
    ensures was + AllData(got[..i + 1]) == was + AllData(got[..i]) + got[i].data
  {
    assert got[..i + 1][..i] == got[..i];
  }

  lemma NextLogged(calls: seq<Call>, broken: bool, got: seq<PtyRead>, i: nat, before: seq<Call>, brokenBefore: bool,
                   now: seq<Call>, brokenNow: bool)
    requires i < |got| && Logged(calls, broken, got[..i], before, brokenBefore)
    requires brokenNow == (brokenBefore || (got[i].data != [] && got[i].logFails))
    requires !brokenNow ==> now == before + LogCall(got[i])
    ensures Logged(calls, broken, got[..i + 1], now, brokenNow)
  {
    assert got[..i + 1][..i] == got[..i];
    OneMoreFails(got, i);
    assert (calls + LogCalls(got[..i])) + LogCall(got[i]) == calls + (LogCalls(got[..i]) + LogCall(got[i]));
  }

  lemma OneMoreFails(got: seq<PtyRead>, i: nat)
    requires i < |got|
    ensures LogFailed(got[..i + 1]) <==> LogFailed(got[..i]) || (got[i].data != [] && got[i].logFails)
  {
    assert forall j :: 0 <= j < i ==> got[..i + 1][j] == got[..i][j];
    assert got[..i + 1][i] == got[i];
  }

  /**
   * So a log read back at any cut, and then the ring from where it ends, is all the output exactly
   * while the ring reaches back that far.
   */
  lemma LogAndRingAreTheOutput(s: Session, n: nat)
    requires s.Valid() && s.logw != null
    requires ClockOk(s.logw.startMs) && CallsOk(s.logw.calls)
    requires |Header(s.logw.startMs)| <= n <= |s.logw.file|
    ensures var r := Read(s.logw.file[..n]);
      && r.Records? && DataOf(r.recs) <= s.output
      && (DataOf(r.recs) + ReplayOf(s.ring.Abs(), |DataOf(r.recs)|).data == s.output
          <==> s.ring.Abs().Oldest() <= |DataOf(r.recs)|)
  {
    StitchWholeIffRetained(s.logw.startMs, s.logw.calls, s.unlogged, n, s.ring.Abs(), s.ring.buf.Length);
  }
}
