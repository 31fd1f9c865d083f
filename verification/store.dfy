/** Persistence of the settings and the mailbox: the coalescing writers
    (`writeSettings`, `writeMessages`), pending-mail delivery on join and
    the empty default for a store file that cannot be read. */
module Store {
  import opened Options
  import opened Text
  import Elapsed

  /** The state of one writer. `writing` and `pending` are the closure's two
      flags. The blob in memory is at version `latest` (every request follows
      one change to it), `inFlight` is the version the current write carries,
      `saved` the version last written to disk and `writes` counts the writes
      started. */
  datatype WriterState = WriterState(writing: bool, pending: bool, latest: nat,
                                     inFlight: nat, saved: nat, writes: nat)

  const Idle := WriterState(false, false, 0, 0, 0, 0)

  /** A change to the blob followed by a call to the writer: during a write
      it only marks a pending write, otherwise it starts a write of the
      current version. */
  function Requested(s: WriterState): (t: WriterState)
    ensures t.latest == s.latest + 1 && t.saved == s.saved && t.writing
    ensures s.writing ==> t == s.(pending := true, latest := s.latest + 1)
    ensures !s.writing ==> t.writes == s.writes + 1 && t.inFlight == t.latest && t.pending == s.pending
  {
    if s.writing then s.(pending := true, latest := s.latest + 1)
    else s.(writing := true, latest := s.latest + 1, inFlight := s.latest + 1, writes := s.writes + 1)
  }

  /** The completion callback as intended: the in-flight version reaches
      disk, `writing` is cleared, and a pending mark is cleared and turned
      into exactly one new write of the version current at that time. */
  function Finished(s: WriterState): (t: WriterState)
    requires s.writing
    ensures t.saved == s.inFlight && t.latest == s.latest && !t.pending
    ensures t.writing <==> s.pending
    ensures t.writes == s.writes + (if s.pending then 1 else 0)
    ensures s.pending ==> t.inFlight == s.latest
  {
    var done := s.(writing := false, saved := s.inFlight);
    if s.pending then done.(pending := false, writing := true, inFlight := s.latest, writes := s.writes + 1)
    else done
  }

  /** The completion callback as written: it clears both flags, but the
      re-issue is a call through an unbound `this`, so no new write starts. */
  function FinishedAsWritten(s: WriterState): (t: WriterState)
    requires s.writing
    ensures !t.writing && !t.pending && t.saved == s.inFlight
    ensures t.writes == s.writes && t.latest == s.latest
  {
    s.(writing := false, pending := false, saved := s.inFlight)
  }

  /** The writer is coherent: nothing is pending while idle, an idle writer
      has the latest version on disk, and a write with nothing pending
      carries the latest version. */
  predicate Coherent(s: WriterState) {
    s.inFlight <= s.latest
    && (!s.writing ==> !s.pending && s.saved == s.latest)
    && (s.writing && !s.pending ==> s.inFlight == s.latest)
  }

  lemma IdleCoherent()
    ensures Coherent(Idle)
  {
  }

  lemma RequestKeepsCoherent(s: WriterState)
    requires Coherent(s)
    ensures Coherent(Requested(s))
  {
  }

  lemma FinishKeepsCoherent(s: WriterState)
    requires Coherent(s) && s.writing
    ensures Coherent(Finished(s))
  {
  }

  /** `n` requests in a row. */
  function Requests(s: WriterState, n: nat): (t: WriterState)
    decreases n
  {
    if n == 0 then s else Requests(Requested(s), n - 1)
  }

  /** Completions until the writer is idle: at most two are needed. */
  function Settle(s: WriterState): WriterState {
    if !s.writing then s
    else
      var u := Finished(s);
      if u.writing then Finished(u) else u
  }

  /** Requests made during a write start no write: they only set the
      pending mark and advance the version. */
  lemma {:induction false} RequestsWhileWriting(s: WriterState, n: nat)
    requires s.writing
    ensures Requests(s, n) == s.(pending := s.pending || n > 0, latest := s.latest + n)
    decreases n
  {
    if n > 0 {
      RequestsWhileWriting(Requested(s), n - 1);
    }
  }

  /** A burst of `n` requests on an idle writer starts one write and at
      most one trailing write, however large `n` is, and once the writes
      complete the disk holds the last version. */
  lemma BurstCoalesces(s: WriterState, n: nat)
    requires Coherent(s) && !s.writing && n >= 1
    ensures Settle(Requests(s, n)).writes == s.writes + (if n == 1 then 1 else 2)
    ensures !Settle(Requests(s, n)).writing
    ensures Settle(Requests(s, n)).saved == s.latest + n
  {
    var first := Requested(s);
    RequestsWhileWriting(first, n - 1);
    assert Requests(s, n) == Requests(first, n - 1);
  }

  /** As written, two requests in a row leave the second version unsaved
      once the writer is idle again. */
  lemma TrailingWriteLost()
    ensures var t := FinishedAsWritten(Requested(Requested(Idle)));
      !t.writing && t.saved == 1 && t.latest == 2 && t.writes == 1
  {
  }

  /** One blob's writer (`writeSettings` or `writeMessages`). */
  class Writer {
    var writing: bool
    var pending: bool
    var latest: nat
    var inFlight: nat
    var saved: nat
    var writes: nat

    function State(): WriterState
      reads this
    {
      WriterState(writing, pending, latest, inFlight, saved, writes)
    }

    constructor ()
      ensures State() == Idle
    {
      writing, pending, latest, inFlight, saved, writes := false, false, 0, 0, 0, 0;
    }

    /** A call to the writer after a change to its blob. */
    method Request()
      modifies this
      ensures State() == Requested(old(State()))
    {
      latest := latest + 1;
      if writing {
        pending := true;
        return;
      }
      writing := true;
      inFlight := latest;
      writes := writes + 1;
    }

    /** The disk write of the in-flight version completes. */
    method Finish()
      requires writing
      modifies this
      ensures State() == Finished(old(State()))
    {
      saved := inFlight;
      writing := false;
      if pending {
        pending := false;
        writing := true;
        inFlight := latest;
        writes := writes + 1;
      }
    }
  }

  /** One stored message: sender, time sent and text. */
  datatype Mail = Mail(from: string, time: int, text: string)

  /** `getTimeAgo` with the clock reading `now`, as a function of the time
      a message was sent. */
  function AgoText(now: int): int -> string {
    t => Elapsed.TimeAgo(now, t)
  }

  /** The line sent to a user for one stored message; `ago` renders the
      time it was sent. */
  function MailLine(userId: string, ago: int -> string, m: Mail): string {
    "/pm " + userId + ", " + (ago(m.time) + " ago, " + m.from + " said: " + m.text)
  }

  /** A mail line is a private message to the user that ends with the
      sender's text. */
  lemma MailLineShape(userId: string, ago: int -> string, m: Mail)
    ensures StartsWith(MailLine(userId, ago, m), "/pm " + userId + ", ")
    ensures EndsWith(MailLine(userId, ago, m), " said: " + m.text)
  {
    var head := "/pm " + userId + ", ";
    var middle := ago(m.time) + " ago, " + m.from;
    var tail := " said: " + m.text;
    var r := MailLine(userId, ago, m);
    assert r == head + (middle + tail);
    assert r[..|head|] == head;
    assert r[|r| - |tail|..] == tail;
  }

  function MailLines(userId: string, ago: int -> string, mail: seq<Mail>): (r: seq<string>)
    ensures |r| == |mail|
  {
    if mail == [] then [] else [MailLine(userId, ago, mail[0])] + MailLines(userId, ago, mail[1..])
  }

  /** The store read at start-up: a file that is missing, unparsable or not
      an object gives the empty store. */
  function Loaded<V>(parsed: Option<map<string, V>>): (r: map<string, V>)
    ensures parsed.None? ==> r == map[]
    ensures parsed.Some? ==> r == parsed.value
  {
    match parsed
    case None => map[]
    case Some(m) => m
  }

  /** `messages`: each user's pending mail, and its writer. */
  class Mailbox {
    var messages: map<string, seq<Mail>>
    const writer: Writer

    constructor (loaded: Option<map<string, seq<Mail>>>, w: Writer)
      ensures messages == Loaded(loaded) && writer == w
    {
      messages := Loaded(loaded);
      writer := w;
    }

    /** A user joins a room: every stored message is sent to them in order,
        their entry is deleted and a write requested; with no entry nothing
        happens. An entry holding no message still counts as mail. */
    method DeliverOnJoin(userId: string, now: int) returns (lines: seq<string>)
      modifies this, writer
      ensures userId in old(messages) ==>
        lines == MailLines(userId, AgoText(now), old(messages)[userId])
        && messages == old(messages) - {userId}
        && writer.State() == Requested(old(writer.State()))
      ensures userId !in old(messages) ==>
        lines == [] && messages == old(messages) && writer.State() == old(writer.State())
    {
      lines := [];
      if userId !in messages {
        return;
      }
      lines := MailFor(userId, AgoText(now), messages[userId]);
      messages := messages - {userId};
      writer.Request();
    }
  }

  /** The loop over a user's stored messages. */
  method MailFor(userId: string, ago: int -> string, mail: seq<Mail>) returns (lines: seq<string>)
    ensures lines == MailLines(userId, ago, mail)
  {
    lines := [];
    var i := 0;
    while i < |mail|
      invariant 0 <= i <= |mail|
      invariant lines + MailLines(userId, ago, mail[i..]) == MailLines(userId, ago, mail)
    {
      assert mail[i..][1..] == mail[i + 1..];
      lines := lines + [MailLine(userId, ago, mail[i])];
      i := i + 1;
    }
  }

  /** One line per stored message, in the order they were stored. */
  lemma {:induction false} MailLinesAt(userId: string, ago: int -> string, mail: seq<Mail>, i: nat)
    requires i < |mail|
    ensures MailLines(userId, ago, mail)[i] == MailLine(userId, ago, mail[i])
  {
    if i > 0 {
      MailLinesAt(userId, ago, mail[1..], i - 1);
    }
  }
}
