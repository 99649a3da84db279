/** The scripted channel that stands in for the SSH transport: what each
    poll of an interactive shell delivers, whether it has closed, and what
    the clock reads at the poll's time-out check. */
module Transport {
  import opened Text
  import opened Sanitiser

  /** One pass of a polling loop: the chunks `recv` hands over while
      `recv_ready()` holds, whether the channel reads as closed, and the
      clock at the time-out check. */
  datatype Poll = Poll(chunks: seq<string>, closed: bool, now: int)

  /** The poll at index `i` of a finite script. Past the end the channel
      stays open and silent and the clock reads past `deadline`, so every
      polling loop ends. */
  function PollAt(polls: seq<Poll>, i: nat, deadline: int): (p: Poll)
    ensures i < |polls| ==> p == polls[i]
    ensures i >= |polls| ==> p.chunks == [] && !p.closed && p.now > deadline
  {
    if i < |polls| then polls[i] else Poll([], false, deadline + 1)
  }

  /** The chunks received, back to back. */
  function Joined(chunks: seq<string>): string {
    if |chunks| == 0 then "" else Joined(chunks[..|chunks| - 1]) + chunks[|chunks| - 1]
  }

  /** The chunks received, each sanitised on its own, back to back. */
  function Cleaned(chunks: seq<string>): string {
    if |chunks| == 0 then "" else Cleaned(chunks[..|chunks| - 1]) + StripAnsi(chunks[|chunks| - 1])
  }

  /** One more chunk extends both. */
  lemma {:induction false} Appended(chunks: seq<string>, j: nat)
    requires j < |chunks|
    ensures Joined(chunks[..j + 1]) == Joined(chunks[..j]) + chunks[j]
    ensures Cleaned(chunks[..j + 1]) == Cleaned(chunks[..j]) + StripAnsi(chunks[j])
  {
    assert chunks[..j + 1][..j] == chunks[..j];
  }

  /** The chunks of one drain, back to back and sanitised one by one. */
  method Gather(chunks: seq<string>) returns (got: string, clean: string)
    ensures got == Joined(chunks) && clean == Cleaned(chunks)
  {
    got, clean := "", "";
    for j := 0 to |chunks|
      invariant got == Joined(chunks[..j]) && clean == Cleaned(chunks[..j])
    {
      Appended(chunks, j);
      got := got + chunks[j];
      clean := clean + StripAnsi(chunks[j]);
    }
    assert chunks[..|chunks|] == chunks;
  }

  /** Sanitising chunk by chunk differs from sanitising what was received:
      a control sequence split across two chunks survives. */
  lemma {:induction false} CleanedIsNotStripped()
    ensures Cleaned(["\U{1b}[", "0m"]) != StripAnsi(Joined(["\U{1b}[", "0m"]))
  {
    var cs := ["\U{1b}[", "0m"];
    assert cs[..1] == ["\U{1b}["];
    assert cs[..1][..0] == [];
    StripAnsiChunked();
  }
}
