/**
 * What one write of a user's outbound pump puts on the wire: the frame it
 * dequeued, then every frame that was already queued at that moment, each
 * preceded by a newline.
 */
module Outbound {
  /** The buffer size of a user's outbound queue. */
  const QueueCapacity := 256

  /** A piece of one network write: a newline separator or one encoded frame. */
  datatype Chunk<F> = Newline | Frame(frame: F)

  /** The outcome of one step of the outbound pump. */
  datatype Write<F> =
    | Batch(chunks: seq<Chunk<F>>)  // one network write holding one or more frames
    | CloseFrame                    // the queue was closed and drained: send a close frame
    | Waiting                       // nothing queued: the pump blocks

  /** The chunks of a write that starts with `head` and attaches each of `rest`. */
  function Coalesce<F>(head: F, rest: seq<F>): (out: seq<Chunk<F>>)
    ensures |out| == 2 * |rest| + 1
    ensures out[0] == Frame(head)
    ensures forall i :: 0 <= i < |rest| ==> out[2 * i + 1] == Newline && out[2 * i + 2] == Frame(rest[i])
  {
    if rest == [] then [Frame(head)]
    else Coalesce(head, rest[..|rest| - 1]) + [Newline, Frame(rest[|rest| - 1])]
  }

  /** The frames of a write, read back by dropping the newline separators. */
  function Frames<F>(out: seq<Chunk<F>>): seq<F>
  {
    if out == [] then []
    else Frames(out[..|out| - 1]) + (match out[|out| - 1] case Frame(f) => [f] case Newline => [])
  }

  /** Splitting a coalesced write at its newlines gives back the frames, in queue order. */
  lemma {:induction false} FramesOfCoalesce<F>(head: F, rest: seq<F>)
    ensures Frames(Coalesce(head, rest)) == [head] + rest
  {
    if rest != [] {
      var init := rest[..|rest| - 1];
      var c := Coalesce(head, init);
      FramesOfCoalesce(head, init);
      assert c + [Newline, Frame(rest[|rest| - 1])] == (c + [Newline]) + [Frame(rest[|rest| - 1])];
      assert (c + [Newline])[..|c|] == c;
      assert [head] + rest == ([head] + init) + [rest[|rest| - 1]];
    }
  }
}
