/** Each participant's prompt queue (`play_sound` in client.js).

    A participant hears one prompt at a time. `play_sound` appends a prompt
    to the participant's queue and asks the backend to play it only when
    the queue was empty; when the backend reports that a playback finished,
    the head is dropped and the new head, if any, is played. The queue is
    thus an Idle/Playing machine: empty means idle, otherwise its head is
    the prompt playing. Here "finished" is an explicit input. */
module Playback {
  import opened Wrappers

  /** What is played: `sound:<name>` or `number:<n>` (the number is read out). */
  datatype Media = Sound(name: string) | Number(n: int)

  /** A queue after a step, with the prompt the step starts playing, if any. */
  datatype Queued = Queued(queue: seq<Media>, start: Option<Media>)

  /** The prompt playing on a queue: its head, or nothing when idle. */
  function Playing(queue: seq<Media>): seq<Media> {
    if queue == [] then [] else [queue[0]]
  }

  /** `play_sound`: push to the tail; play only if nothing was playing. */
  function Enqueue(queue: seq<Media>, m: Media): (r: Queued)
    ensures r.queue == queue + [m]
    ensures r.start.Some? <==> |r.queue| == 1
    ensures r.start.Some? ==> r.start.value == m
    ensures Playing(r.queue) == Playing(queue) + (if r.start.Some? then [m] else [])
  {
    Queued(queue + [m], if queue == [] then Some(m) else None)
  }

  /** `onPlaybackFinished`: drop the head, then play the new head if any.
      On an empty queue `shift` finds nothing and nothing else happens. */
  function Finish(queue: seq<Media>): (r: Queued)
    ensures queue == [] ==> r == Queued([], None)
    ensures queue != [] ==> queue == [queue[0]] + r.queue
    ensures r.start.Some? <==> r.queue != []
    ensures r.start.Some? ==> r.start.value == r.queue[0]
  {
    if queue == [] then Queued([], None)
    else
      var rest := queue[1..];
      Queued(rest, if rest == [] then None else Some(rest[0]))
  }

  /** What a queue can be told: a new prompt, or that the current one ended. */
  datatype Signal = Push(media: Media) | Finished

  /** The queue after some signals, every prompt started so far and every
      prompt completed so far, each in order. */
  datatype Trace = Trace(queue: seq<Media>, started: seq<Media>, completed: seq<Media>)

  /** One signal applied to a trace. */
  function Apply(t: Trace, x: Signal): Trace {
    match x
    case Push(m) =>
      var q := Enqueue(t.queue, m);
      Trace(q.queue, t.started + OptionToSeq(q.start), t.completed)
    case Finished =>
      var q := Finish(t.queue);
      Trace(q.queue, t.started + OptionToSeq(q.start), t.completed + Playing(t.queue))
  }

  /** Feed `signals` to an empty queue, in order. */
  function Run(signals: seq<Signal>): Trace {
    if signals == [] then Trace([], [], [])
    else Apply(Run(signals[..|signals| - 1]), signals[|signals| - 1])
  }

  /** Running one more signal applies it to the trace so far. */
  lemma RunSnoc(signals: seq<Signal>, x: Signal)
    ensures Run(signals + [x]) == Apply(Run(signals), x)
  {
    assert (signals + [x])[..|signals|] == signals;
  }

  function OptionToSeq(o: Option<Media>): seq<Media> {
    if o.Some? then [o.value] else []
  }

  /** The prompts pushed by `signals`, in order. */
  function Pushed(signals: seq<Signal>): seq<Media> {
    if signals == [] then []
    else
      Pushed(signals[..|signals| - 1]) + (if signals[|signals| - 1].Push? then [signals[|signals| - 1].media] else [])
  }

  /** Prompts complete in the order they were pushed, what is still queued
      is the rest of them, and what has started is exactly what has
      completed plus at most the one prompt playing now. */
  lemma {:induction false} RunIsFifo(signals: seq<Signal>)
    ensures Run(signals).completed + Run(signals).queue == Pushed(signals)
    ensures Run(signals).started == Run(signals).completed + Playing(Run(signals).queue)
  {
    if signals != [] {
      var init := signals[..|signals| - 1];
      RunIsFifo(init);
      var t := Run(init);
      match signals[|signals| - 1]
      case Push(m) =>
        PushKeepsFifo(t, m);
      case Finished =>
        FinishKeepsFifo(t);
    }
  }

  /** One push keeps the two relations of `RunIsFifo`. */
  lemma PushKeepsFifo(t: Trace, m: Media)
    requires t.started == t.completed + Playing(t.queue)
    ensures var q := Enqueue(t.queue, m);
      && t.completed + q.queue == (t.completed + t.queue) + [m]
      && t.started + OptionToSeq(q.start) == t.completed + Playing(q.queue)
  {
    var q := Enqueue(t.queue, m);
    assert t.completed + (t.queue + [m]) == (t.completed + t.queue) + [m];
  }

  /** One "finished" keeps the two relations of `RunIsFifo`. */
  lemma FinishKeepsFifo(t: Trace)
    requires t.started == t.completed + Playing(t.queue)
    ensures var q := Finish(t.queue);
      && (t.completed + Playing(t.queue)) + q.queue == t.completed + t.queue
      && t.started + OptionToSeq(q.start) == (t.completed + Playing(t.queue)) + Playing(q.queue)
  {
    if t.queue != [] {
      assert t.queue == [t.queue[0]] + t.queue[1..];
    }
  }

  /** Three prompts pushed back to back: only the first starts at once,
      and each later one starts when its predecessor finishes. */
  lemma ThreePromptsPlayInTurn(a: Media, b: Media, c: Media)
    ensures Run([Push(a), Push(b), Push(c)]).started == [a]
    ensures Run([Push(a), Push(b), Push(c), Finished]).started == [a, b]
    ensures Run([Push(a), Push(b), Push(c), Finished, Finished]).started == [a, b, c]
    ensures Run([Push(a), Push(b), Push(c), Finished, Finished, Finished]) == Trace([], [a, b, c], [a, b, c])
  {
    var s3 := [Push(a), Push(b), Push(c)];
    ThreePushes(a, b, c);
    RunSnoc(s3, Finished);
    assert [a, b, c][1..] == [b, c];
    assert Run(s3 + [Finished]) == Trace([b, c], [a, b], [a]);
    RunSnoc(s3 + [Finished], Finished);
    assert [b, c][1..] == [c];
    assert Run(s3 + [Finished] + [Finished]) == Trace([c], [a, b, c], [a, b]);
    RunSnoc(s3 + [Finished] + [Finished], Finished);
    assert Run(s3 + [Finished] + [Finished] + [Finished]) == Trace([], [a, b, c], [a, b, c]);
    assert s3 + [Finished] == [Push(a), Push(b), Push(c), Finished];
    assert s3 + [Finished] + [Finished] == [Push(a), Push(b), Push(c), Finished, Finished];
    assert s3 + [Finished] + [Finished] + [Finished] == [Push(a), Push(b), Push(c), Finished, Finished, Finished];
  }

  /** Three pushes into an idle queue: all are queued, only the first starts. */
  lemma ThreePushes(a: Media, b: Media, c: Media)
    ensures Run([Push(a), Push(b), Push(c)]) == Trace([a, b, c], [a], [])
  {
    RunSnoc([], Push(a));
    assert [] + [Push(a)] == [Push(a)];
    RunSnoc([Push(a)], Push(b));
    assert [Push(a)] + [Push(b)] == [Push(a), Push(b)];
    RunSnoc([Push(a), Push(b)], Push(c));
    assert [Push(a), Push(b)] + [Push(c)] == [Push(a), Push(b), Push(c)];
  }
}
