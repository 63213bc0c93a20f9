/**
 * The background download worker and the progress state it shares with the
 * render loop (the output text behind a mutex, the `done` and `success`
 * flags), as a sequential abstraction: every write the worker makes is one
 * atomic step, and the two stream readers' lines reach the text in one
 * arrival order that is an input of the model.
 */
module Worker {
  import opened RustText

  /** What the render loop can read of the shared state at one instant. */
  datatype Progress = Progress(output: string, done: bool, success: bool)

  /** The shared state as `App::new` creates it: no text, both flags false. */
  const Fresh: Progress := Progress("", false, false)

  /** One atomic write of the worker: a locked append, or a store to one flag. */
  datatype Step = Append(text: string) | StoreSuccess(ok: bool) | StoreDone

  function Apply(p: Progress, step: Step): Progress {
    match step
    case Append(text) => p.(output := p.output + text)
    case StoreSuccess(ok) => p.(success := ok)
    case StoreDone => p.(done := true)
  }

  /** The state after the steps, in order. */
  function Replay(p: Progress, steps: seq<Step>): Progress {
    if steps == [] then p
    else Apply(Replay(p, steps[..|steps| - 1]), steps[|steps| - 1])
  }

  lemma {:induction false} ReplayAppend(p: Progress, a: seq<Step>, b: seq<Step>)
    ensures Replay(p, a + b) == Replay(Replay(p, a), b)
    decreases |b|
  {
    if b == [] {
      assert a + b == a;
    } else {
      var init := b[..|b| - 1];
      assert (a + b)[..|a + b| - 1] == a + init;
      ReplayAppend(p, a, init);
    }
  }

  lemma ReplaySnoc(p: Progress, steps: seq<Step>, step: Step)
    ensures Replay(p, steps + [step]) == Apply(Replay(p, steps), step)
  {
    assert (steps + [step])[..|steps|] == steps;
  }

  /** One line as `BufRead::lines` hands it over: its text, or a read error the reader skips. */
  datatype LineRead = Line(text: string) | ReadError

  datatype Stream = Stdout | Stderr

  /** A line read from one of the child's two output streams. */
  datatype Arrival = Arrival(stream: Stream, read: LineRead)

  /** How the child ended: with an exit code, or killed by a signal. */
  datatype ExitStatus = Code(code: int) | Signalled(signal: int)

  datatype WaitResult = Exited(status: ExitStatus) | WaitFailed

  /**
   * One run of the external downloader: either it could not be started (with the
   * system's error text), or it ran, its lines arrived in the given order, and
   * waiting for it gave the given result.
   */
  datatype Launch = SpawnFailed(reason: string) | Spawned(arrivals: seq<Arrival>, wait: WaitResult)

  const SpawnFailurePrefix: string := "Failed to spawn: "

  /**
   * `wait().unwrap_or_default().success()`: exit code 0 succeeds, and so does a
   * failed wait, because the default exit status is the successful one.
   */
  predicate ExitSucceeded(w: WaitResult) {
    match w
    case Exited(status) => status == Code(0)
    case WaitFailed => true
  }

  /** Whether the worker will report success. */
  predicate LaunchSucceeded(launch: Launch) {
    launch.Spawned? && ExitSucceeded(launch.wait)
  }

  /** The line one arrival delivers: none for a read error. */
  function LineOf(a: Arrival): seq<string> {
    if a.read.Line? then [a.read.text] else []
  }

  /** The locked append one arrival causes: the line and its line feed under one lock. */
  function DrainStep(a: Arrival): seq<Step> {
    if a.read.Line? then [Append(a.read.text + "\n")] else []
  }

  /** The lines the two readers deliver, in arrival order; read errors are skipped. */
  function ReadLines(arrivals: seq<Arrival>): seq<string> {
    if arrivals == [] then []
    else ReadLines(arrivals[..|arrivals| - 1]) + LineOf(arrivals[|arrivals| - 1])
  }

  /** The locked appends of the readers, in arrival order. */
  function DrainSteps(arrivals: seq<Arrival>): seq<Step> {
    if arrivals == [] then []
    else DrainSteps(arrivals[..|arrivals| - 1]) + DrainStep(arrivals[|arrivals| - 1])
  }

  lemma ArrivalSnoc(arrivals: seq<Arrival>, a: Arrival)
    ensures ReadLines(arrivals + [a]) == ReadLines(arrivals) + LineOf(a)
    ensures DrainSteps(arrivals + [a]) == DrainSteps(arrivals) + DrainStep(a)
  {
    assert (arrivals + [a])[..|arrivals|] == arrivals;
  }

  /** Every write of the worker, in order; the `done` store closes both paths. */
  function WorkerSteps(launch: Launch): seq<Step> {
    match launch
    case SpawnFailed(reason) =>
      [Append(SpawnFailurePrefix + reason), StoreSuccess(false), StoreDone]
    case Spawned(arrivals, wait) =>
      DrainSteps(arrivals) + [StoreSuccess(ExitSucceeded(wait)), StoreDone]
  }

  /** The shared state once the worker has finished. */
  function Final(launch: Launch): Progress {
    Replay(Fresh, WorkerSteps(launch))
  }

  predicate AppendsOnly(steps: seq<Step>) {
    forall k :: 0 <= k < |steps| ==> steps[k].Append?
  }

  /** Appends only extend the text and leave both flags alone. */
  lemma {:induction false} ReplayAppends(p: Progress, steps: seq<Step>)
    requires AppendsOnly(steps)
    ensures Replay(p, steps).done == p.done && Replay(p, steps).success == p.success
    ensures p.output <= Replay(p, steps).output
    decreases |steps|
  {
    if steps != [] {
      ReplayAppends(p, steps[..|steps| - 1]);
    }
  }

  lemma {:induction false} DrainStepsAreAppends(arrivals: seq<Arrival>)
    ensures AppendsOnly(DrainSteps(arrivals))
    decreases |arrivals|
  {
    if arrivals != [] {
      DrainStepsAreAppends(arrivals[..|arrivals| - 1]);
    }
  }

  /** The append of one arrival adds its framed line, if any. */
  lemma DrainStepOutput(q: Progress, a: Arrival)
    ensures Replay(q, DrainStep(a)) == q.(output := q.output + Framed(LineOf(a)))
  {
    if a.read.Line? {
      ReplaySnoc(q, [], Append(a.read.text + "\n"));
      assert [] + [Append(a.read.text + "\n")] == DrainStep(a);
      FramedSnoc([], a.read.text);
      assert [] + [a.read.text] == LineOf(a);
    } else {
      assert Framed(LineOf(a)) == "";
      assert q.output + "" == q.output;
    }
  }

  lemma FramedAppendLineOf(lines: seq<string>, a: Arrival)
    ensures Framed(lines + LineOf(a)) == Framed(lines) + Framed(LineOf(a))
  {
    if a.read.Line? {
      FramedSnoc(lines, a.read.text);
      FramedSnoc([], a.read.text);
      assert [] + [a.read.text] == LineOf(a);
    } else {
      assert lines + LineOf(a) == lines;
    }
  }

  lemma DrainUnfold(arrivals: seq<Arrival>)
    requires arrivals != []
    ensures var init, last := arrivals[..|arrivals| - 1], arrivals[|arrivals| - 1];
      DrainSteps(arrivals) == DrainSteps(init) + DrainStep(last)
      && ReadLines(arrivals) == ReadLines(init) + LineOf(last)
  {
  }

  /** The text after draining: the earlier text, then every delivered line and its line feed. */
  lemma {:induction false} DrainText(p: Progress, arrivals: seq<Arrival>)
    ensures Replay(p, DrainSteps(arrivals)).output == p.output + Framed(ReadLines(arrivals))
    decreases |arrivals|
  {
    if arrivals != [] {
      var init, last := arrivals[..|arrivals| - 1], arrivals[|arrivals| - 1];
      var q := Replay(p, DrainSteps(init));
      var before, added := Framed(ReadLines(init)), Framed(LineOf(last));
      assert q.output == p.output + before by {
        DrainText(p, init);
      }
      assert Replay(p, DrainSteps(arrivals)) == Replay(q, DrainStep(last)) by {
        DrainUnfold(arrivals);
        ReplayAppend(p, DrainSteps(init), DrainStep(last));
      }
      assert Replay(q, DrainStep(last)).output == q.output + added by {
        DrainStepOutput(q, last);
      }
      assert Framed(ReadLines(arrivals)) == before + added by {
        DrainUnfold(arrivals);
        FramedAppendLineOf(ReadLines(init), last);
      }
      assert p.output + before + added == p.output + (before + added);
    }
  }

  /** Draining adds exactly the delivered lines, each followed by a line feed, and changes neither flag. */
  lemma DrainOutput(p: Progress, arrivals: seq<Arrival>)
    ensures Replay(p, DrainSteps(arrivals)) == p.(output := p.output + Framed(ReadLines(arrivals)))
  {
    DrainText(p, arrivals);
    DrainStepsAreAppends(arrivals);
    ReplayAppends(p, DrainSteps(arrivals));
  }

  /** The appends of a run, before the two flag stores. */
  function Writes(launch: Launch): seq<Step> {
    match launch
    case SpawnFailed(reason) => [Append(SpawnFailurePrefix + reason)]
    case Spawned(arrivals, _) => DrainSteps(arrivals)
  }

  lemma WorkerStepsShape(launch: Launch)
    ensures WorkerSteps(launch) == Writes(launch) + [StoreSuccess(LaunchSucceeded(launch)), StoreDone]
    ensures AppendsOnly(Writes(launch))
  {
    if launch.Spawned? {
      DrainStepsAreAppends(launch.arrivals);
    }
  }

  /** The run ends with the writes done, then `success`, then `done`. */
  lemma FinalAfterWrites(launch: Launch)
    ensures Final(launch) == Replay(Fresh, Writes(launch)).(success := LaunchSucceeded(launch), done := true)
  {
    WorkerStepsShape(launch);
    var writes := Writes(launch);
    var ok := LaunchSucceeded(launch);
    assert WorkerSteps(launch) == (writes + [StoreSuccess(ok)]) + [StoreDone];
    ReplaySnoc(Fresh, writes + [StoreSuccess(ok)], StoreDone);
    ReplaySnoc(Fresh, writes, StoreSuccess(ok));
  }

  /**
   * The final state: finished in every case; on a spawn failure the message has
   * no line feed and success is false; otherwise the text is the delivered lines
   * and success is the exit check.
   */
  lemma WorkerOutcome(launch: Launch)
    ensures Final(launch).done
    ensures Final(launch).success == LaunchSucceeded(launch)
    ensures launch.SpawnFailed? ==> Final(launch).output == SpawnFailurePrefix + launch.reason
    ensures launch.Spawned? ==> Final(launch).output == Framed(ReadLines(launch.arrivals))
  {
    FinalAfterWrites(launch);
    match launch
    case SpawnFailed(reason) =>
      ReplaySnoc(Fresh, [], Append(SpawnFailurePrefix + reason));
      assert [] + [Append(SpawnFailurePrefix + reason)] == Writes(launch);
    case Spawned(arrivals, _) =>
      DrainOutput(Fresh, arrivals);
  }

  /**
   * `done` is published by the last write and by no earlier one: a reader that
   * sees `done` sees the whole text and the final `success` flag; until then the
   * text it sees is a prefix of the final text.
   */
  lemma DonePublishedLast(launch: Launch, k: nat)
    requires k <= |WorkerSteps(launch)|
    ensures Replay(Fresh, WorkerSteps(launch)[..k]).done <==> k == |WorkerSteps(launch)|
    ensures Replay(Fresh, WorkerSteps(launch)[..k]).done ==> Replay(Fresh, WorkerSteps(launch)[..k]) == Final(launch)
    ensures Replay(Fresh, WorkerSteps(launch)[..k]).output <= Final(launch).output
  {
    var steps := WorkerSteps(launch);
    var writes := Writes(launch);
    var ok := LaunchSucceeded(launch);
    WorkerStepsShape(launch);
    FinalAfterWrites(launch);
    ReplayAppends(Fresh, writes);
    if k <= |writes| {
      assert steps[..k] == writes[..k];
      WritesPrefix(writes, k);
    } else if k == |writes| + 1 {
      assert steps[..k] == writes + [StoreSuccess(ok)];
      ReplaySnoc(Fresh, writes, StoreSuccess(ok));
    } else {
      assert steps[..k] == steps;
    }
  }

  /** Part way through the appends the flags are still clear and the text is a prefix of the full one. */
  lemma WritesPrefix(writes: seq<Step>, k: nat)
    requires AppendsOnly(writes)
    requires k <= |writes|
    ensures !Replay(Fresh, writes[..k]).done
    ensures Replay(Fresh, writes[..k]).output <= Replay(Fresh, writes).output
  {
    var head, rest := writes[..k], writes[k..];
    assert writes == head + rest;
    assert AppendsOnly(head) by {
      forall j | 0 <= j < |head| ensures head[j].Append? {
        assert head[j] == writes[j];
      }
    }
    assert AppendsOnly(rest) by {
      forall j | 0 <= j < |rest| ensures rest[j].Append? {
        assert rest[j] == writes[k + j];
      }
    }
    ReplayAppends(Fresh, head);
    ReplayAppend(Fresh, head, rest);
    ReplayAppends(Replay(Fresh, head), rest);
  }

  /**
   * At every arrival boundary the text splits back into exactly the lines
   * delivered so far, provided the lines are plain: readers never show a torn line.
   */
  lemma DrainSnapshotsAreWholeLines(arrivals: seq<Arrival>, j: nat)
    requires j <= |arrivals|
    requires forall k :: 0 <= k < |ReadLines(arrivals[..j])| ==> PlainLine(ReadLines(arrivals[..j])[k])
    ensures Lines(Replay(Fresh, DrainSteps(arrivals[..j])).output) == ReadLines(arrivals[..j])
  {
    DrainOutput(Fresh, arrivals[..j]);
    assert Fresh.output + Framed(ReadLines(arrivals[..j])) == Framed(ReadLines(arrivals[..j]));
    LinesOfFramed(ReadLines(arrivals[..j]));
  }

  /** One more arrival: its line and line feed are appended, or nothing for a read error. */
  lemma DrainOneMore(arrivals: seq<Arrival>, i: nat)
    requires i < |arrivals|
    ensures var q := Replay(Fresh, DrainSteps(arrivals[..i]));
      Replay(Fresh, DrainSteps(arrivals[..i + 1]))
        == if arrivals[i].read.Line? then q.(output := q.output + arrivals[i].read.text + "\n") else q
  {
    var a := arrivals[i];
    assert arrivals[..i + 1] == arrivals[..i] + [a];
    ArrivalSnoc(arrivals[..i], a);
    ReplayAppend(Fresh, DrainSteps(arrivals[..i]), DrainStep(a));
    var q := Replay(Fresh, DrainSteps(arrivals[..i]));
    if a.read.Line? {
      ReplaySnoc(q, [], Append(a.read.text + "\n"));
      assert [] + [Append(a.read.text + "\n")] == DrainStep(a);
    } else {
      assert DrainStep(a) == [];
    }
  }

  /**
   * The reader loop: every line that reads without error is appended, followed
   * by a line feed, under one lock acquisition.
   */
  method Drain(arrivals: seq<Arrival>) returns (p: Progress)
    ensures p == Replay(Fresh, DrainSteps(arrivals))
    ensures p == Fresh.(output := Framed(ReadLines(arrivals)))
  {
    p := Fresh;
    var i := 0;
    while i < |arrivals|
      invariant 0 <= i <= |arrivals|
      invariant p == Replay(Fresh, DrainSteps(arrivals[..i]))
    {
      DrainOneMore(arrivals, i);
      var read := arrivals[i].read;
      if read.Line? {
        p := p.(output := p.output + read.text + "\n");
      }
      i := i + 1;
    }
    assert arrivals[..i] == arrivals;
    DrainOutput(Fresh, arrivals);
    assert Fresh.output + Framed(ReadLines(arrivals)) == Framed(ReadLines(arrivals));
  }

  /**
   * The worker thread, run to completion: on a spawn failure one message is
   * appended; otherwise the readers drain both streams; then success is stored,
   * then `done`.
   */
  method RunWorker(launch: Launch) returns (p: Progress)
    ensures p == Final(launch)
    ensures p.done && p.success == LaunchSucceeded(launch)
  {
    match launch {
      case SpawnFailed(reason) =>
        p := Fresh;
        p := p.(output := p.output + SpawnFailurePrefix + reason);
        ReplaySnoc(Fresh, [], Append(SpawnFailurePrefix + reason));
        assert [] + [Append(SpawnFailurePrefix + reason)] == Writes(launch);
        p := p.(success := false);
      case Spawned(arrivals, wait) =>
        p := Drain(arrivals);
        p := p.(success := ExitSucceeded(wait));
    }
    p := p.(done := true);
    FinalAfterWrites(launch);
  }
}
