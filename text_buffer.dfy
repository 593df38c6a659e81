/**
 * The TextBuffer class of src/textBuffer.ts: the current text and the time it
 * was last set. The clock that `new Date()` reads is a parameter of Set.
 */
module TextBuffer {
  import opened Wrappers

  /** A point in time, as a Date's time value in milliseconds. */
  type Instant = int

  /** What get() returns. */
  datatype Snapshot = Snapshot(text: string, lastUpdated: Option<Instant>)

  class TextBuffer {
    var currentText: string
    var lastUpdated: Option<Instant>

    constructor ()
      ensures currentText == "" && lastUpdated == None
    {
      currentText := "";
      lastUpdated := None;
    }

    /** Stores `text` and stamps it with the current time `now`. */
    method Set(text: string, now: Instant)
      modifies this
      ensures currentText == text && lastUpdated == Some(now)
    {
      currentText := text;
      lastUpdated := Some(now);
    }

    method Get() returns (s: Snapshot)
      ensures s.text == currentText && s.lastUpdated == lastUpdated
    {
      s := Snapshot(currentText, lastUpdated);
    }

    /** Forgets the text and its time stamp, whatever they were. */
    method Clear()
      modifies this
      ensures currentText == "" && lastUpdated == None
    {
      currentText := "";
      lastUpdated := None;
    }

    method IsEmpty() returns (empty: bool)
      ensures empty <==> currentText == ""
    {
      empty := currentText == "";
    }

    /** The time stamp, present exactly when the buffer has one (its ISO-8601 text is not modelled). */
    method GetLastUpdatedFormatted() returns (r: Option<Instant>)
      ensures r.None? <==> lastUpdated.None?
      ensures r.Some? ==> r == lastUpdated
    {
      if lastUpdated.None? {
        return None;
      }
      r := lastUpdated;
    }
  }

  /** A fresh buffer is empty and has no time stamp. */
  method FreshBufferIsEmpty() returns (s: Snapshot, empty: bool)
    ensures s == Snapshot("", None) && empty
  {
    var b := new TextBuffer();
    s := b.Get();
    empty := b.IsEmpty();
  }

  /** After Set(t), get() returns t with a time stamp; setting "" leaves the buffer empty yet stamped. */
  method SetThenGet(t: string, now: Instant) returns (s: Snapshot, empty: bool, stamp: Option<Instant>)
    ensures s == Snapshot(t, Some(now))
    ensures empty <==> t == ""
    ensures stamp == Some(now)
  {
    var b := new TextBuffer();
    b.Set(t, now);
    s := b.Get();
    empty := b.IsEmpty();
    stamp := b.GetLastUpdatedFormatted();
  }

  /** Clearing twice leaves the same state as clearing once: empty, no time stamp. */
  method ClearTwice(t: string, now: Instant) returns (once: Snapshot, twice: Snapshot, empty: bool)
    ensures once == twice == Snapshot("", None)
    ensures empty
  {
    var b := new TextBuffer();
    b.Set(t, now);
    b.Clear();
    once := b.Get();
    b.Clear();
    twice := b.Get();
    empty := b.IsEmpty();
  }
}
