/** A vendor SDK's streaming response, seen from the outside: the fragments
    it yields in arrival order (each one's text may be null), and optionally
    the point at which enumerating it throws. */
module Streams {
  import opened Wrappers

  /** Enumeration throws `message` once `after` fragments have been
      yielded. */
  datatype Fault = Fault(after: nat, message: string)

  datatype Stream = Stream(fragments: seq<Option<string>>, failure: Option<Fault>)

  /** `chunk.Content ?? ""` and `chunk.Text ?? ""`. */
  function TextOf(f: Option<string>): string
  {
    f.GetOr("")
  }

  /** Asking for fragment `i` (or for the end, at `i == |fragments|`)
      throws. */
  predicate FailsAt(s: Stream, i: nat)
  {
    s.failure.Some? && s.failure.value.after == i
  }

  /** No request for fragments `0 .. i - 1` threw. */
  predicate FineBefore(s: Stream, i: nat)
  {
    s.failure.None? || s.failure.value.after >= i
  }

  /** The stream throws before it is exhausted. A failure point beyond the
      last fragment is never reached. */
  predicate Throws(s: Stream)
  {
    s.failure.Some? && s.failure.value.after <= |s.fragments|
  }

  /** The fragments a consumer receives before the stream ends or throws. */
  function Delivered(s: Stream): (fs: seq<Option<string>>)
    ensures fs <= s.fragments
    ensures |fs| < |s.fragments| ==> Throws(s)
  {
    if Throws(s) then s.fragments[..s.failure.value.after] else s.fragments
  }

  /** The message of the exception that ends the stream, if any. */
  function Thrown(s: Stream): Option<string>
  {
    if Throws(s) then Some(s.failure.value.message) else None
  }

  /** All fragment texts one after another, null counted as "". */
  function Concat(fs: seq<Option<string>>): string
  {
    if fs == [] then "" else TextOf(fs[0]) + Concat(fs[1..])
  }

  /** Strings one after another. */
  function Join(ts: seq<string>): string
  {
    if ts == [] then "" else ts[0] + Join(ts[1..])
  }

  /** The texts of the fragments that are neither null nor empty, in arrival
      order. Dropping the empty ones loses no text. */
  function NonEmptyTexts(fs: seq<Option<string>>): (ts: seq<string>)
    ensures |ts| <= |fs|
    ensures forall i :: 0 <= i < |ts| ==> ts[i] != ""
    ensures Join(ts) == Concat(fs)
  {
    if fs == [] then []
    else if TextOf(fs[0]) == "" then NonEmptyTexts(fs[1..])
    else [TextOf(fs[0])] + NonEmptyTexts(fs[1..])
  }

  lemma {:induction false} ConcatSnoc(fs: seq<Option<string>>, f: Option<string>)
    ensures Concat(fs + [f]) == Concat(fs) + TextOf(f)
  {
    if fs == [] {
      assert fs + [f] == [f];
    } else {
      assert (fs + [f])[1..] == fs[1..] + [f];
      ConcatSnoc(fs[1..], f);
    }
  }

  lemma {:induction false} NonEmptySnoc(fs: seq<Option<string>>, f: Option<string>)
    ensures NonEmptyTexts(fs + [f]) ==
      NonEmptyTexts(fs) + (if TextOf(f) == "" then [] else [TextOf(f)])
  {
    if fs == [] {
      assert fs + [f] == [f];
    } else {
      assert (fs + [f])[1..] == fs[1..] + [f];
      NonEmptySnoc(fs[1..], f);
    }
  }

  /** A stream whose fragments all carry text is forwarded whole. */
  lemma {:induction false} NonEmptyKeepsText(fs: seq<Option<string>>)
    requires forall i :: 0 <= i < |fs| ==> fs[i].Some? && fs[i].value != ""
    ensures |NonEmptyTexts(fs)| == |fs|
    ensures forall i :: 0 <= i < |fs| ==> NonEmptyTexts(fs)[i] == fs[i].value
  {
    if fs != [] {
      NonEmptyKeepsText(fs[1..]);
    }
  }
}
