/**
 What the queue is for, without slots, heads or caches: an append-only log, the positions whose payload
 is readable, and one cursor per consumer.
 */
module TicketLog {
  import opened Bytes

  type Item = seq<Byte>

  /** A consumer is out, or it joined at one position of the log and has read up to another. */
  datatype Cursor = Out | In(join: nat, pos: nat)

  datatype Ledger = Ledger(log: seq<Item>, published: set<nat>, cursors: seq<Cursor>)

  datatype Event =
    | Appended(item: Item)
    | Readable(p: nat)
    | Delivered(c: nat, item: Item)
    | FoundEmpty(c: nat)
    | FoundInactive(c: nat)
    | Joined(c: nat, pos: nat)
    | Left(c: nat)
    | Internal

  predicate AllReadable(a: Ledger) {
    forall p :: 0 <= p < |a.log| ==> p in a.published
  }

  predicate ReadableBelow(a: Ledger, pos: nat) {
    forall p :: 0 <= p < pos ==> p in a.published
  }

  /** The steps of a log of the given capacity: a consumer may join at any readable position that is within it. */
  predicate Follows(size: nat, a: Ledger, e: Event, a': Ledger) {
    match e
    case Appended(item) =>
      && (forall c :: 0 <= c < |a.cursors| && a.cursors[c].In? ==> |a.log| < a.cursors[c].pos + size)
      && a' == a.(log := a.log + [item])
    case Readable(p) => p < |a.log| && p !in a.published && a' == a.(published := a.published + {p})
    case Delivered(c, item) =>
      && c < |a.cursors| && a.cursors[c].In?
      && var pos := a.cursors[c].pos;
         && pos < |a.log| && pos in a.published && item == a.log[pos]
         && a' == a.(cursors := a.cursors[c := a.cursors[c].(pos := pos + 1)])
    case FoundEmpty(c) =>
      c < |a.cursors| && a.cursors[c].In? && a.cursors[c].pos !in a.published && a' == a
    case FoundInactive(c) => c < |a.cursors| && a.cursors[c].Out? && a' == a
    case Joined(c, pos) =>
      && c < |a.cursors| && a.cursors[c].Out? && pos <= |a.log| <= pos + size && ReadableBelow(a, pos)
      && a' == a.(cursors := a.cursors[c := In(pos, pos)])
    case Left(c) => c < |a.cursors| && a' == a.(cursors := a.cursors[c := Out])
    case Internal => a' == a
  }

  predicate Empty(a: Ledger) {
    a.log == [] && a.published == {} && forall c :: 0 <= c < |a.cursors| ==> a.cursors[c].Out?
  }

  /** What consumer c has received since it last joined. */
  function Stream(events: seq<Event>, c: nat): seq<Item> {
    if events == [] then []
    else
      var before := Stream(events[..|events| - 1], c);
      match events[|events| - 1]
      case Joined(d, pos) => if c == d then [] else before
      case Delivered(d, item) => if c == d then before + [item] else before
      case _ => before
  }

  ghost predicate IsHistory(size: nat, ledgers: seq<Ledger>, events: seq<Event>) {
    && |ledgers| == |events| + 1
    && Empty(ledgers[0])
    && forall i :: 0 <= i < |events| ==> Follows(size, ledgers[i], events[i], ledgers[i + 1])
  }

  /** Nothing is lost, duplicated, reordered or torn: the stream is the log from the join to the cursor. */
  lemma {:induction false} StreamIsLog(size: nat, ledgers: seq<Ledger>, events: seq<Event>, c: nat)
    requires IsHistory(size, ledgers, events)
    requires c < |ledgers[|events|].cursors| && ledgers[|events|].cursors[c].In?
    ensures var last := ledgers[|events|];
            && last.cursors[c].join <= last.cursors[c].pos <= |last.log|
            && Stream(events, c) == last.log[last.cursors[c].join..last.cursors[c].pos]
  {
    if events != [] {
      var n := |events| - 1;
      var a, e, a' := ledgers[n], events[n], ledgers[n + 1];
      assert Follows(size, a, e, a');
      if a.cursors[c].In? {
        assert IsHistory(size, ledgers[..n + 1], events[..n]);
        StreamIsLog(size, ledgers[..n + 1], events[..n], c);
      }
    }
  }
}
