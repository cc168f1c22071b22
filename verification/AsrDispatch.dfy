/** The dispatch of audio segments to the speech recogniser: a bounded number of requests in flight, results taken in
    whatever order they arrive, and no further requests once one has come back with a refusal. */
module AsrDispatch {
  import opened Common

  datatype Answer = Arrearage | Quota | Reject | Text(text: string)

  predicate Blank(text: string) {
    forall c <- text :: Space(c)
  }

  /** An empty text or an error report is not a transcript. */
  predicate Usable(a: Answer) {
    a.Text? && a.text != "" && !("ERR:" <= a.text)
  }

  predicate Stops(a: Answer) {
    !a.Text?
  }

  datatype Event = Start(segment: nat) | Finish(segment: nat)

  function Starts(trace: seq<Event>): seq<nat> {
    if trace == [] then []
    else
      var n := |trace| - 1;
      if trace[n].Start? then Starts(trace[..n]) + [trace[n].segment] else Starts(trace[..n])
  }

  /** The requests in flight after these events. */
  function InFlight(trace: seq<Event>): set<nat> {
    if trace == [] then {}
    else
      var n := |trace| - 1;
      if trace[n].Start? then InFlight(trace[..n]) + {trace[n].segment} else InFlight(trace[..n]) - {trace[n].segment}
  }

  ghost predicate Bounded(trace: seq<Event>, workers: nat) {
    forall n :: 0 <= n <= |trace| ==> |InFlight(trace[..n])| <= workers
  }

  /** Nothing is started after a refusal has been taken in. */
  ghost predicate StopsInTime(trace: seq<Event>, answer: nat -> Answer) {
    forall i, j :: 0 <= i < j < |trace| && trace[i].Finish? && Stops(answer(trace[i].segment)) ==> !trace[j].Start?
  }

  ghost predicate Quiet(trace: seq<Event>, answer: nat -> Answer) {
    forall i :: 0 <= i < |trace| ==> trace[i].Finish? ==> !Stops(answer(trace[i].segment))
  }

  function Finished(trace: seq<Event>): set<nat> {
    set e <- trace | e.Finish? :: e.segment
  }

  lemma OneMore(trace: seq<Event>, e: Event)
    ensures Starts(trace + [e]) == Starts(trace) + if e.Start? then [e.segment] else []
    ensures InFlight(trace + [e]) == if e.Start? then InFlight(trace) + {e.segment} else InFlight(trace) - {e.segment}
    ensures Finished(trace + [e]) == Finished(trace) + if e.Finish? then {e.segment} else {}
  {
    assert (trace + [e])[..|trace|] == trace;
    assert forall x :: x in trace + [e] <==> x in trace || x == e;
  }

  lemma BoundedGrows(trace: seq<Event>, e: Event, workers: nat)
    requires Bounded(trace, workers) && |InFlight(trace + [e])| <= workers
    ensures Bounded(trace + [e], workers)
  {
    forall n | 0 <= n <= |trace + [e]| ensures |InFlight((trace + [e])[..n])| <= workers {
      if n <= |trace| { assert (trace + [e])[..n] == trace[..n]; } else { assert (trace + [e])[..n] == trace + [e]; }
    }
  }

  ghost predicate Ascends(todo: seq<nat>) {
    forall i, j :: 0 <= i < j < |todo| ==> todo[i] < todo[j]
  }

  /** The segments that still lack a transcript, in order. */
  function Todo(texts: seq<string>): (r: seq<nat>)
    ensures forall k: nat :: k in r <==> k < |texts| && Blank(texts[k])
    ensures Ascends(r)
  {
    if texts == [] then []
    else
      var n := |texts| - 1;
      var rest := Todo(texts[..n]);
      assert Ascends(rest + [n]) by {
        forall i | 0 <= i < |rest| ensures rest[i] < n { assert rest[i] in rest; }
      }
      if Blank(texts[n]) then rest + [n] else rest
  }

  /** A segment's text once its answer has been taken in. */
  function Heard(before: string, a: Answer): string {
    if Usable(a) then a.text else before
  }

  datatype Flags = Flags(quotaStop: bool, arrearageStop: bool, rejected: bool)

  predicate Stopped(flags: Flags) {
    flags.quotaStop || flags.rejected
  }

  /** The flags record which refusals have been taken in. */
  ghost predicate FlagsOk(flags: Flags, finished: set<nat>, answer: nat -> Answer) {
    && (flags.rejected <==> exists i <- finished :: answer(i).Reject?)
    && (flags.arrearageStop <==> exists i <- finished :: answer(i).Arrearage?)
    && (flags.quotaStop <==> exists i <- finished :: answer(i).Arrearage? || answer(i).Quota?)
  }

  lemma UnstoppedIsQuiet(flags: Flags, trace: seq<Event>, answer: nat -> Answer)
    requires FlagsOk(flags, Finished(trace), answer) && !Stopped(flags)
    ensures Quiet(trace, answer)
  {
    forall i | 0 <= i < |trace| && trace[i].Finish? ensures !Stops(answer(trace[i].segment)) {
      assert trace[i] in trace && trace[i].segment in Finished(trace);
    }
  }

  /** The dispatcher's state against what has happened. */
  ghost predicate TraceOk(trace: seq<Event>, todo: seq<nat>, next: nat, futures: set<nat>, workers: nat,
                          answer: nat -> Answer)
  {
    && next <= |todo| && Starts(trace) == todo[..next] && InFlight(trace) == futures
    && Bounded(trace, workers) && StopsInTime(trace, answer)
    && futures !! Finished(trace) && (forall i :: i in todo[..next] <==> i in futures || i in Finished(trace))
  }

  lemma StartKeepsTrace(trace: seq<Event>, todo: seq<nat>, next: nat, futures: set<nat>, workers: nat,
                        answer: nat -> Answer)
    requires TraceOk(trace, todo, next, futures, workers, answer) && Ascends(todo)
    requires next < |todo| && |futures| < workers && Quiet(trace, answer)
    ensures TraceOk(trace + [Start(todo[next])], todo, next + 1, futures + {todo[next]}, workers, answer)
    ensures todo[next] !in futures
    ensures Finished(trace + [Start(todo[next])]) == Finished(trace)
  {
    StartKeepsSets(trace, todo, next, futures);
    StartKeepsBounds(trace, futures, workers, answer, todo[next]);
    hide Starts, InFlight, Finished, Bounded, StopsInTime, Quiet, Ascends;
  }

  lemma StartKeepsSets(trace: seq<Event>, todo: seq<nat>, next: nat, futures: set<nat>)
    requires Ascends(todo) && next < |todo| && futures !! Finished(trace) && Starts(trace) == todo[..next]
    requires forall k :: k in todo[..next] <==> k in futures || k in Finished(trace)
    ensures var longer := trace + [Start(todo[next])];
            && todo[next] !in futures && Finished(longer) == Finished(trace)
            && Starts(longer) == todo[..next + 1] && (futures + {todo[next]}) !! Finished(longer)
            && forall k :: k in todo[..next + 1] <==> k in futures + {todo[next]} || k in Finished(longer)
  {
    OneMore(trace, Start(todo[next]));
    NextIsNew(todo, next);
    hide Starts, InFlight, Finished, Ascends;
  }

  lemma StartKeepsBounds(trace: seq<Event>, futures: set<nat>, workers: nat, answer: nat -> Answer, i: nat)
    requires InFlight(trace) == futures && |futures| < workers && Bounded(trace, workers) && Quiet(trace, answer)
    ensures InFlight(trace + [Start(i)]) == futures + {i}
    ensures Bounded(trace + [Start(i)], workers) && StopsInTime(trace + [Start(i)], answer)
  {
    OneMore(trace, Start(i));
    hide InFlight, Quiet, StopsInTime;
    BoundedGrows(trace, Start(i), workers);
    QuietStartsInTime(trace, Start(i), answer);
  }

  lemma NextIsNew(todo: seq<nat>, next: nat)
    requires Ascends(todo) && next < |todo|
    ensures todo[next] !in todo[..next] && todo[..next + 1] == todo[..next] + [todo[next]]
    ensures forall i :: i in todo[..next + 1] <==> i in todo[..next] || i == todo[next]
  {
  }

  lemma QuietStartsInTime(trace: seq<Event>, e: Event, answer: nat -> Answer)
    requires Quiet(trace, answer) && e.Start?
    ensures StopsInTime(trace + [e], answer)
  {
    var longer := trace + [e];
    forall i | 0 <= i < |longer| && longer[i].Finish? ensures !Stops(answer(longer[i].segment)) {
      assert longer[i] == trace[i];
    }
  }

  lemma FinishKeepsTrace(trace: seq<Event>, todo: seq<nat>, next: nat, futures: set<nat>, workers: nat,
                         answer: nat -> Answer, i: nat)
    requires TraceOk(trace, todo, next, futures, workers, answer) && i in futures
    ensures TraceOk(trace + [Finish(i)], todo, next, futures - {i}, workers, answer)
    ensures Finished(trace + [Finish(i)]) == Finished(trace) + {i}
  {
    FinishKeepsBounds(trace, futures, workers, answer, i);
    FinishKeepsSets(trace, todo, next, futures, i);
    hide Starts, InFlight, Finished, Bounded, StopsInTime;
  }

  lemma FinishKeepsSets(trace: seq<Event>, todo: seq<nat>, next: nat, futures: set<nat>, i: nat)
    requires i in futures && next <= |todo| && futures !! Finished(trace)
    requires forall k :: k in todo[..next] <==> k in futures || k in Finished(trace)
    ensures Starts(trace + [Finish(i)]) == Starts(trace)
    ensures Finished(trace + [Finish(i)]) == Finished(trace) + {i} && (futures - {i}) !! Finished(trace + [Finish(i)])
    ensures forall k :: k in todo[..next] <==> k in futures - {i} || k in Finished(trace + [Finish(i)])
  {
    OneMore(trace, Finish(i));
    hide Starts, InFlight, Finished;
  }

  lemma FinishKeepsBounds(trace: seq<Event>, futures: set<nat>, workers: nat, answer: nat -> Answer, i: nat)
    requires InFlight(trace) == futures && i in futures && Bounded(trace, workers) && StopsInTime(trace, answer)
    ensures InFlight(trace + [Finish(i)]) == futures - {i}
    ensures Bounded(trace + [Finish(i)], workers) && StopsInTime(trace + [Finish(i)], answer)
  {
    OneMore(trace, Finish(i));
    assert trace[..|trace|] == trace && |futures - {i}| < |futures|;
    hide InFlight;
    BoundedGrows(trace, Finish(i), workers);
    FinishStopsInTime(trace, answer, i);
  }

  lemma FinishStopsInTime(trace: seq<Event>, answer: nat -> Answer, k: nat)
    requires StopsInTime(trace, answer)
    ensures StopsInTime(trace + [Finish(k)], answer)
  {
    var longer := trace + [Finish(k)];
    forall i, j | 0 <= i < j < |longer| && longer[i].Finish? && Stops(answer(longer[i].segment))
      ensures !longer[j].Start?
    {
      assert longer[i] == trace[i];
    }
  }

  /** Starts requests while there are free slots and no refusal has been taken in. */
  method FillSlots(todo: seq<nat>, start: nat, busy: set<nat>, workers: nat, flags: Flags, answer: nat -> Answer,
                   ghost past: seq<Event>) returns (next: nat, futures: set<nat>, ghost trace: seq<Event>)
    requires TraceOk(past, todo, start, busy, workers, answer) && Ascends(todo)
    requires FlagsOk(flags, Finished(past), answer) && start <= |todo|
    ensures next <= |todo| && TraceOk(trace, todo, next, futures, workers, answer)
    ensures Finished(trace) == Finished(past)
    ensures next == |todo| || |futures| >= workers || Stopped(flags)
    ensures next - |futures| == start - |busy|
  {
    hide TraceOk, FlagsOk, Quiet, Ascends, Finished, Stopped;
    next, futures, trace := start, busy, past;
    while |futures| < workers && !Stopped(flags) && next < |todo|
      invariant next <= |todo| && TraceOk(trace, todo, next, futures, workers, answer)
      invariant Finished(trace) == Finished(past) && next - |futures| == start - |busy|
    {
      UnstoppedIsQuiet(flags, trace, answer);
      StartKeepsTrace(trace, todo, next, futures, workers, answer);
      futures := futures + {todo[next]};
      trace := trace + [Start(todo[next])];
      next := next + 1;
    }
  }

  function Noted(flags: Flags, a: Answer): Flags {
    match a
    case Arrearage => flags.(arrearageStop := true, quotaStop := true)
    case Quota => flags.(quotaStop := true)
    case Reject => flags.(rejected := true)
    case Text(_) => flags
  }

  lemma NotedKeepsFlags(flags: Flags, finished: set<nat>, answer: nat -> Answer, i: nat)
    requires FlagsOk(flags, finished, answer)
    ensures FlagsOk(Noted(flags, answer(i)), finished + {i}, answer)
  {
    var more := finished + {i};
    assert i in more;
    assert forall k <- more :: k in finished || k == i;
  }

  /** The texts after the answers for `finished` have been taken in. */
  ghost predicate TextsOk(texts: seq<string>, before: seq<string>, finished: set<nat>, answer: nat -> Answer) {
    |texts| == |before| && forall i :: 0 <= i < |before| ==>
      texts[i] == if i in finished then Heard(before[i], answer(i)) else before[i]
  }

  /** Takes in one answer. */
  method TakeIn(texts: array<string>, i: nat, flags: Flags, answer: nat -> Answer, ghost before: seq<string>,
                ghost finished: set<nat>) returns (flags': Flags)
    requires i < texts.Length && i !in finished
    requires TextsOk(texts[..], before, finished, answer) && FlagsOk(flags, finished, answer)
    modifies texts
    ensures TextsOk(texts[..], before, finished + {i}, answer) && FlagsOk(flags', finished + {i}, answer)
  {
    NotedKeepsFlags(flags, finished, answer, i);
    flags' := flags;
    match answer(i)
    case Arrearage => flags' := flags'.(arrearageStop := true, quotaStop := true);
    case Quota => flags' := flags'.(quotaStop := true);
    case Reject => flags' := flags'.(rejected := true);
    case Text(text) => if text != "" && !("ERR:" <= text) { texts[i] := text; }
  }

  /** Takes in the answers of all requests that have completed, in any order. */
  method TakeInAll(texts: array<string>, completed: set<nat>, busy: set<nat>, flags0: Flags, todo: seq<nat>, next: nat,
                   workers: nat, answer: nat -> Answer, ghost before: seq<string>, ghost past: seq<Event>)
    returns (futures: set<nat>, flags: Flags, ghost trace: seq<Event>)
    requires completed <= busy && todo == Todo(before) && |before| == texts.Length
    requires TraceOk(past, todo, next, busy, workers, answer) && FlagsOk(flags0, Finished(past), answer)
    requires TextsOk(texts[..], before, Finished(past), answer)
    modifies texts
    ensures futures == busy - completed
    ensures TraceOk(trace, todo, next, futures, workers, answer) && FlagsOk(flags, Finished(trace), answer)
    ensures TextsOk(texts[..], before, Finished(trace), answer)
  {
    hide FlagsOk, TextsOk, Bounded, StopsInTime;
    var left := completed;
    futures, flags, trace := busy, flags0, past;
    while left != {}
      invariant left <= completed && futures == busy - (completed - left)
      invariant TraceOk(trace, todo, next, futures, workers, answer) && FlagsOk(flags, Finished(trace), answer)
      invariant TextsOk(texts[..], before, Finished(trace), answer)
      decreases left
    {
      var i := AnyOf(left);
      assert i in todo[..next] && i in todo;
      FinishKeepsTrace(trace, todo, next, futures, workers, answer, i);
      flags := TakeIn(texts, i, flags, answer, before, Finished(trace));
      futures, left := futures - {i}, left - {i};
      trace := trace + [Finish(i)];
    }
  }

  /** Keeps the slots filled until nothing is in flight. */
  method DispatchAll(texts: array<string>, workers: nat, answer: nat -> Answer)
    returns (flags: Flags, ghost trace: seq<Event>, ghost next: nat)
    requires 0 < workers
    modifies texts
    ensures FlagsOk(flags, Finished(trace), answer) && TextsOk(texts[..], old(texts[..]), Finished(trace), answer)
    ensures TraceOk(trace, Todo(old(texts[..])), next, {}, workers, answer)
    ensures Stopped(flags) || next == |Todo(old(texts[..]))|
  {
    hide FlagsOk, TextsOk, TraceOk, Stopped;
    ghost var before := texts[..];
    var todo := Todo(texts[..]);
    flags, trace := Flags(false, false, false), [];
    NothingYet(before, todo, workers, answer);
    var n, futures;
    n, futures, trace := FillSlots(todo, 0, {}, workers, flags, answer, trace);
    while futures != {}
      invariant TraceOk(trace, todo, n, futures, workers, answer) && FlagsOk(flags, Finished(trace), answer)
      invariant TextsOk(texts[..], before, Finished(trace), answer)
      invariant n <= |todo| && (n == |todo| || |futures| >= workers || Stopped(flags))
      decreases |todo| - n + |futures|
    {
      var completed := SomeCompleted(futures);
      ghost var unfinished := |todo| - n + |futures|;
      SubsetIsSmaller(futures - completed, futures);
      futures, flags, trace := TakeInAll(texts, completed, futures, flags, todo, n, workers, answer, before, trace);
      n, futures, trace := FillSlots(todo, n, futures, workers, flags, answer, trace);
    }
    next := n;
  }

  lemma NothingYet(before: seq<string>, todo: seq<nat>, workers: nat, answer: nat -> Answer)
    ensures TraceOk([], todo, 0, {}, workers, answer) && FlagsOk(Flags(false, false, false), Finished([]), answer)
    ensures TextsOk(before, before, Finished([]), answer)
  {
  }

  /** Transcribes the segments that lack a transcript and decides whether the file may be offered to annotators.

      Whatever order the answers come in, each such segment is requested at most once and in order, never more than
      `workers` are in flight, and none is requested after a refusal has been taken in. Without a refusal all of them are
      requested, and the texts depend on the answers alone. The file is eligible exactly when no refusal came and every
      segment has a transcript. */
  method Transcribe(texts: array<string>, workers: nat, hasKey: bool, answer: nat -> Answer)
    returns (flags: Flags, eligible: bool, ghost trace: seq<Event>)
    requires 0 < workers
    modifies texts
    ensures var todo := Todo(old(texts[..]));
            && Starts(trace) <= todo && InFlight(trace) == {}
            && Bounded(trace, workers) && StopsInTime(trace, answer)
            && (forall i :: i in Starts(trace) <==> i in Finished(trace))
            && (hasKey && !Stopped(flags) ==> Starts(trace) == todo)
    ensures TextsOk(texts[..], old(texts[..]), Finished(trace), answer)
    ensures hasKey ==> FlagsOk(flags, Finished(trace), answer)
    ensures eligible <==> hasKey && !Stopped(flags) && forall i :: 0 <= i < texts.Length ==> !Blank(texts[i])
    ensures Outcome(old(texts[..]), texts[..], hasKey, eligible, trace, answer)
  {
    ghost var todo, next := Todo(texts[..]), 0;
    flags, trace := Flags(true, false, false), [];
    if hasKey {
      flags, trace, next := DispatchAll(texts, workers, answer);
    } else {
      NothingYet(texts[..], todo, workers, answer);
    }
    assert next == |todo| ==> todo[..next] == todo;
    hide TextsOk, FlagsOk, Todo, Starts, InFlight, Finished, Bounded, StopsInTime;
    var complete := AllTranscribed(texts);
    eligible := !Stopped(flags) && complete;
    OutcomeIs(old(texts[..]), texts[..], hasKey, flags, eligible, trace, answer);
  }

  /** Something is said in the text. */
  ghost predicate Said(text: string) {
    exists c <- text :: c !in {' ', '\t', '\n', '\r'}
  }

  /** Only segments that said nothing were asked for, and none after an answer that is a refusal. A segment has the answer's
      text if that is neither empty nor an error report, and its old one otherwise. The file may be offered exactly if no
      answer was a refusal and every segment says something. */
  ghost predicate Outcome(before: seq<string>, after: seq<string>, hasKey: bool, eligible: bool, trace: seq<Event>,
                          answer: nat -> Answer)
  {
    && |after| == |before|
    && (forall k <- Starts(trace) :: k < |before| && !Said(before[k]))
    && (forall i, j :: 0 <= i < j < |trace| && trace[i].Finish? && trace[j].Start? ==> answer(trace[i].segment).Text?)
    && (forall k :: 0 <= k < |before| ==>
          var heard := k in Starts(trace) && answer(k).Text? && answer(k).text != "" && !("ERR:" <= answer(k).text);
          after[k] == if heard then answer(k).text else before[k])
    && (eligible <==> hasKey && (forall k <- Starts(trace) :: answer(k).Text?) && forall text <- after :: Said(text))
  }

  lemma OutcomeIs(before: seq<string>, after: seq<string>, hasKey: bool, flags: Flags, eligible: bool, trace: seq<Event>,
                  answer: nat -> Answer)
    requires Starts(trace) <= Todo(before) && forall k :: k in Starts(trace) <==> k in Finished(trace)
    requires StopsInTime(trace, answer) && TextsOk(after, before, Finished(trace), answer)
    requires hasKey ==> FlagsOk(flags, Finished(trace), answer)
    requires eligible <==> hasKey && !Stopped(flags) && forall i :: 0 <= i < |after| ==> !Blank(after[i])
    ensures Outcome(before, after, hasKey, eligible, trace, answer)
  {
    forall text: string ensures Blank(text) <==> !Said(text) {}
    forall k | k in Starts(trace) ensures k < |before| && !Said(before[k]) { assert k in Todo(before); }
    assert hasKey ==> (Stopped(flags) <==> exists k <- Finished(trace) :: !answer(k).Text?);
    hide Starts, Finished, Todo, Said, Blank, FlagsOk;
  }

  method AllTranscribed(texts: array<string>) returns (complete: bool)
    ensures complete <==> forall i :: 0 <= i < texts.Length ==> !Blank(texts[i])
  {
    complete := true;
    for i := 0 to texts.Length
      invariant complete <==> forall j :: 0 <= j < i ==> !Blank(texts[j])
    {
      if Blank(texts[i]) { complete := false; }
    }
  }

  /** Any non-empty part of the requests in flight may complete next. */
  method SomeCompleted(futures: set<nat>) returns (completed: set<nat>)
    requires futures != {}
    ensures completed != {} && completed <= futures
  {
    var i := AnyOf(futures);
    completed := {i};
    var rest := futures - {i};
    while *
      invariant i in completed && completed <= futures && rest <= futures
      decreases rest
    {
      if rest == {} { break; }
      var j := AnyOf(rest);
      completed, rest := completed + {j}, rest - {j};
    }
  }
}
