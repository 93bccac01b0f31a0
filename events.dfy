/** The observable effects of the retry executor and of the feature template:
    invocations of the retried operation, notifications handed to the notifier,
    and waits. A run is described by the sequence of its events. */
module Events {
  import opened Notifier

  datatype Event =
    | Invoke(attempt: nat)
    | Notify(notice: Notice)
    | Sleep(ms: nat)

  /** The attempt numbers of the invocations, in order. */
  function Invocations(log: seq<Event>): (s: seq<nat>)
    ensures |s| <= |log|
  {
    if log == [] then []
    else (if log[0].Invoke? then [log[0].attempt] else []) + Invocations(log[1..])
  }

  /** The notices handed to the notifier, in order. */
  function Notices(log: seq<Event>): (s: seq<Notice>)
    ensures |s| <= |log|
  {
    if log == [] then []
    else (if log[0].Notify? then [log[0].notice] else []) + Notices(log[1..])
  }

  /** The durations of the waits, in order. */
  function Sleeps(log: seq<Event>): (s: seq<nat>)
    ensures |s| <= |log|
  {
    if log == [] then []
    else (if log[0].Sleep? then [log[0].ms] else []) + Sleeps(log[1..])
  }

  /** The views of a one-event log. */
  lemma Single(e: Event)
    ensures Invocations([e]) == if e.Invoke? then [e.attempt] else []
    ensures Notices([e]) == if e.Notify? then [e.notice] else []
    ensures Sleeps([e]) == if e.Sleep? then [e.ms] else []
  {
    assert [e][1..] == [];
  }

  lemma {:induction false} InvocationsAppend(a: seq<Event>, b: seq<Event>)
    ensures Invocations(a + b) == Invocations(a) + Invocations(b)
  {
    if a == [] {
      assert a + b == b;
    } else {
      assert (a + b)[0] == a[0] && (a + b)[1..] == a[1..] + b;
      var head := if a[0].Invoke? then [a[0].attempt] else [];
      assert Invocations(a + b) == head + Invocations(a[1..] + b);
      InvocationsAppend(a[1..], b);
      assert Invocations(a) == head + Invocations(a[1..]);
    }
  }

  lemma {:induction false} NoticesAppend(a: seq<Event>, b: seq<Event>)
    ensures Notices(a + b) == Notices(a) + Notices(b)
  {
    if a == [] {
      assert a + b == b;
    } else {
      assert (a + b)[0] == a[0] && (a + b)[1..] == a[1..] + b;
      var head := if a[0].Notify? then [a[0].notice] else [];
      assert Notices(a + b) == head + Notices(a[1..] + b);
      NoticesAppend(a[1..], b);
      assert Notices(a) == head + Notices(a[1..]);
    }
  }

  lemma {:induction false} SleepsAppend(a: seq<Event>, b: seq<Event>)
    ensures Sleeps(a + b) == Sleeps(a) + Sleeps(b)
  {
    if a == [] {
      assert a + b == b;
    } else {
      assert (a + b)[0] == a[0] && (a + b)[1..] == a[1..] + b;
      var head := if a[0].Sleep? then [a[0].ms] else [];
      assert Sleeps(a + b) == head + Sleeps(a[1..] + b);
      SleepsAppend(a[1..], b);
      assert Sleeps(a) == head + Sleeps(a[1..]);
    }
  }

  /** The three views of a log split it without loss: every event is an
      invocation, a notice or a wait. */
  lemma {:induction false} ViewsPartition(log: seq<Event>)
    ensures |Invocations(log)| + |Notices(log)| + |Sleeps(log)| == |log|
  {
    if log != [] {
      ViewsPartition(log[1..]);
    }
  }
}
