/** The lock file of the atomic-append lock: a growing log of 16-byte messages.
    A message is addressed here by its index; its byte offset is RECORD times the index,
    and the byte offset of an interest message is the ticket ("unique id") of its owner. */
module LockLog {

  datatype Code = Unlock | HaveLock | Rescind | Interest | Nominate

  datatype Message = Message(code: Code, timestamp: nat, uniqueid: nat)

  const RECORD: nat := 16          // sizeof(message_t)
  const WINDOW: nat := 256         // messages per read
  const STALE_AFTER: nat := 20     // seconds
  const OFF_T: nat := 0x1_0000_0000_0000_0000   // off_t and size_t wrap here
  const NONE: nat := OFF_T - 1     // (off_t) -1

  /** What a hole-punched message reads back as: sixteen zero bytes, and unlock is code 0. */
  const ZERO := Message(Unlock, 0, 0)

  predicate Stale(m: Message, now: nat) {
    m.timestamp == 0 || (m.timestamp < now && now - m.timestamp > STALE_AFTER)
  }

  predicate IsRelease(m: Message) {
    m.code.Unlock? || m.code.Rescind?
  }

  /** The message at e speaks for ticket index t: its interest, a nomination or a claim of the lock. */
  predicate Claims(h: seq<Message>, e: nat, t: nat) {
    e < |h|
    && (if h[e].code.Interest? then e == t
        else (h[e].code.Nominate? || h[e].code.HaveLock?) && h[e].uniqueid == RECORD * t)
  }

  ghost predicate Released(h: seq<Message>, uniqueid: nat) {
    exists j :: 0 <= j < |h| && IsRelease(h[j]) && h[j].uniqueid == uniqueid
  }

  /** Ticket index t has registered its interest and has not yet unlocked or rescinded. */
  ghost predicate Live(h: seq<Message>, t: nat) {
    t < |h| && h[t].code.Interest? && !Released(h, RECORD * t)
  }

  ghost predicate NoneLiveBelow(h: seq<Message>, m: nat) {
    forall t: nat :: t < m ==> !Live(h, t)
  }

  /** Between its havelock message and its unlock message. */
  ghost predicate Holds(h: seq<Message>, t: nat) {
    !Released(h, RECORD * t)
    && exists i :: 0 <= i < |h| && h[i].code.HaveLock? && h[i].uniqueid == RECORD * t
  }

  /** Every message but an interest names an earlier interest, and nothing speaks for a ticket
      at or after the message releasing it. */
  ghost predicate Orderly(h: seq<Message>) {
    && (forall i :: 0 <= i < |h| && !h[i].code.Interest? ==>
          h[i].uniqueid % RECORD == 0 && h[i].uniqueid / RECORD < i
          && h[h[i].uniqueid / RECORD].code.Interest?)
    && (forall i: nat, j: nat, t: nat :: 0 <= j < |h| && Claims(h, i, t) && IsRelease(h[j]) && h[j].uniqueid == RECORD * t ==> i < j)
  }

  /** What a reader of the file sees of the history h: some messages have been punched out. */
  ghost predicate Punched(v: seq<Message>, h: seq<Message>) {
    |v| >= |h| && forall i :: 0 <= i < |h| ==> v[i] == h[i] || v[i] == ZERO
  }

  lemma ClaimIsAfterInterest(h: seq<Message>, e: nat, t: nat)
    requires Orderly(h) && Claims(h, e, t)
    ensures t <= e && h[t].code.Interest?
  {
  }

  lemma ReleasedByPrefix(h: seq<Message>, n: nat, uniqueid: nat)
    requires n <= |h| && Released(h[..n], uniqueid)
    ensures Released(h, uniqueid)
  {
    var j :| 0 <= j < n && IsRelease(h[..n][j]) && h[..n][j].uniqueid == uniqueid;
    assert IsRelease(h[j]) && h[j].uniqueid == uniqueid;
  }

  lemma OrderlyPrefix(h: seq<Message>, n: nat)
    requires n <= |h| && Orderly(h)
    ensures Orderly(h[..n])
  {
    var p := h[..n];
    forall i: nat, j: nat, t: nat | 0 <= j < |p| && Claims(p, i, t) && IsRelease(p[j]) && p[j].uniqueid == RECORD * t
      ensures i < j
    {
      assert Claims(h, i, t) && IsRelease(h[j]);
    }
  }
}
