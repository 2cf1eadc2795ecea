/** What one channel-data line contributes: counts, bounds, order and the odd trailing character. */
module BmsEvents {
  import opened Text
  import opened ChartModel
  import opened BmsParser

  /** Slots are inside their measure: measure <= position < measure + 1. */
  lemma PositionBounds(measure: int, i: nat, n: nat)
    requires i < n
    ensures measure as real <= Position(measure, i, n) < measure as real + 1.0
  {
    var q := (i as real) / (n as real);
    assert q * (n as real) == i as real;
    assert 0.0 <= q;
  }

  /** Later slots of the same measure lie strictly later. */
  lemma PositionIncreasing(measure: int, i: nat, j: nat, n: nat)
    requires i < j < n
    ensures Position(measure, i, n) < Position(measure, j, n)
  {
    var p := (i as real) / (n as real);
    var q := (j as real) / (n as real);
    assert p * (n as real) == i as real;
    assert q * (n as real) == j as real;
    assert (q - p) * (n as real) == (j - i) as real;
  }

  /** The token indices below `k` that are not the empty slot "00". */
  function NoteSlots(data: string, k: nat): set<nat>
    requires k <= |data| / 2
  {
    set i: nat | i < k && Token(data, i) != "00"
  }

  /** Event `e` is the one slot `i` of `data` produces. */
  predicate SlotEvent(measure: int, data: string, i: nat, e: BeatData)
    requires i < |data| / 2
  {
    Token(data, i) != "00" && e == BeatData(Position(measure, i, |data| / 2), Token(data, i))
  }

  /** Every event of the first `k` tokens comes from a non-"00" slot below `k`. */
  lemma {:induction false} EventsSound(measure: int, data: string, k: nat)
    requires k <= |data| / 2
    ensures forall e :: e in EventsUpTo(measure, data, k) ==>
      exists i :: 0 <= i < k && SlotEvent(measure, data, i, e)
  {
    if k > 0 {
      EventsSound(measure, data, k - 1);
      var prev := EventsUpTo(measure, data, k - 1);
      forall e | e in EventsUpTo(measure, data, k)
        ensures exists i :: 0 <= i < k && SlotEvent(measure, data, i, e)
      {
        if e in prev {
          var i :| 0 <= i < k - 1 && SlotEvent(measure, data, i, e);
        } else {
          assert SlotEvent(measure, data, k - 1, e);
        }
      }
    }
  }

  /** Every non-"00" slot below `k` produces its event. */
  lemma {:induction false} EventsComplete(measure: int, data: string, k: nat)
    requires k <= |data| / 2
    ensures forall i :: 0 <= i < k && Token(data, i) != "00" ==>
      BeatData(Position(measure, i, |data| / 2), Token(data, i)) in EventsUpTo(measure, data, k)
  {
    if k > 0 {
      EventsComplete(measure, data, k - 1);
    }
  }

  lemma NoteSlotsStep(data: string, k: nat)
    requires 0 < k <= |data| / 2
    ensures Token(data, k - 1) != "00" ==> |NoteSlots(data, k)| == |NoteSlots(data, k - 1)| + 1
    ensures Token(data, k - 1) == "00" ==> NoteSlots(data, k) == NoteSlots(data, k - 1)
  {
    var before := NoteSlots(data, k - 1);
    assert k - 1 !in before;
    if Token(data, k - 1) != "00" {
      forall i: nat
        ensures i in NoteSlots(data, k) <==> i in before + {k - 1}
      {
        if i < k - 1 {
          assert i in NoteSlots(data, k) <==> Token(data, i) != "00";
        }
      }
      assert NoteSlots(data, k) == before + {k - 1};
    }
  }

  /** There are exactly as many events as non-"00" slots, so at most `k`. */
  lemma {:induction false} EventsCount(measure: int, data: string, k: nat)
    requires k <= |data| / 2
    ensures |EventsUpTo(measure, data, k)| == |NoteSlots(data, k)| <= k
  {
    if k > 0 {
      EventsCount(measure, data, k - 1);
      NoteSlotsStep(data, k);
    }
  }

  /** Event positions strictly increase along `ev`. */
  predicate Increasing(ev: seq<BeatData>) {
    forall a, b :: 0 <= a < b < |ev| ==> ev[a].measure < ev[b].measure
  }

  lemma AppendIncreasing(prev: seq<BeatData>, x: BeatData)
    requires Increasing(prev)
    requires forall e :: e in prev ==> e.measure < x.measure
    ensures Increasing(prev + [x])
  {
    var ev := prev + [x];
    forall a, b | 0 <= a < b < |ev|
      ensures ev[a].measure < ev[b].measure
    {
      assert ev[a] == prev[a];
      if b < |prev| {
        assert ev[b] == prev[b];
      } else {
        assert prev[a] in prev;
      }
    }
  }

  /** Events are notes that lie inside the line's measure. */
  lemma {:induction false} EventsInMeasure(measure: int, data: string, k: nat)
    requires k <= |data| / 2
    ensures forall e :: e in EventsUpTo(measure, data, k) ==>
      IsNote(e) && measure as real <= e.measure < measure as real + 1.0
  {
    if k > 0 {
      EventsInMeasure(measure, data, k - 1);
      PositionBounds(measure, k - 1, |data| / 2);
    }
  }

  /** The events of the first `k` tokens lie before slot `j` when `k <= j`. */
  lemma {:induction false} EventsBefore(measure: int, data: string, k: nat, j: nat)
    requires k <= j < |data| / 2
    ensures forall e :: e in EventsUpTo(measure, data, k) ==> e.measure < Position(measure, j, |data| / 2)
  {
    if k > 0 {
      EventsBefore(measure, data, k - 1, j);
      PositionIncreasing(measure, k - 1, j, |data| / 2);
    }
  }

  /** Events come in strictly increasing position. */
  lemma {:induction false} EventsIncreasing(measure: int, data: string, k: nat)
    requires k <= |data| / 2
    ensures Increasing(EventsUpTo(measure, data, k))
  {
    if k > 0 {
      var n := |data| / 2;
      EventsIncreasing(measure, data, k - 1);
      var prev := EventsUpTo(measure, data, k - 1);
      var tok := Token(data, k - 1);
      if tok != "00" {
        var pos := Position(measure, k - 1, n);
        EventsBefore(measure, data, k - 1, k - 1);
        AppendIncreasing(prev, BeatData(pos, tok));
      }
    }
  }

  /**
   * One channel-data line of payload length L yields exactly one event per
   * non-"00" token among its L / 2 tokens (so at most L / 2), each within its
   * measure, with an upper-case id, in strictly increasing position.
   */
  lemma LineEventsSpec(measure: int, data: string)
    ensures var ev := LineEvents(measure, data);
      var n := |data| / 2;
      |ev| == |NoteSlots(data, n)| <= n
      && (forall e :: e in ev ==> IsNote(e) && measure as real <= e.measure < measure as real + 1.0)
      && Increasing(ev)
      && (forall i :: 0 <= i < n && Token(data, i) != "00" ==>
            BeatData(Position(measure, i, n), Token(data, i)) in ev)
      && (forall e :: e in ev ==> exists i :: 0 <= i < n && SlotEvent(measure, data, i, e))
  {
    var n := |data| / 2;
    EventsCount(measure, data, n);
    EventsInMeasure(measure, data, n);
    EventsIncreasing(measure, data, n);
    EventsComplete(measure, data, n);
    EventsSound(measure, data, n);
  }

  /** The tokens of a payload do not depend on a trailing odd character. */
  lemma {:induction false} EventsIgnoreTail(measure: int, data: string, c: char, k: nat)
    requires |data| % 2 == 0 && k <= |data| / 2
    ensures EventsUpTo(measure, data + [c], k) == EventsUpTo(measure, data, k)
  {
    if k > 0 {
      var longer := data + [c];
      EventsIgnoreTail(measure, data, c, k - 1);
      assert |longer| / 2 == |data| / 2;
      assert longer[2 * (k - 1)..2 * (k - 1) + 2] == data[2 * (k - 1)..2 * (k - 1) + 2];
      assert Token(longer, k - 1) == Token(data, k - 1);
    }
  }

  /** An odd trailing character of a payload is ignored. */
  lemma OddTailIgnored(measure: int, data: string, c: char)
    requires |data| % 2 == 0
    ensures LineEvents(measure, data + [c]) == LineEvents(measure, data)
  {
    assert |data + [c]| / 2 == |data| / 2;
    EventsIgnoreTail(measure, data, c, |data| / 2);
  }
}
