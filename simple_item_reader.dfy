/**
 * SimpleItemReader: an iterator over a fixed list of five strings; every read
 * returns the next one, and null (None) once the list is used up.
 */
module Reader {
  import opened Wrappers

  const DATA_SET: seq<string> := ["1", "2", "3", "4", "5"]

  /** The results of `k` reads, starting with the iterator at `cursor`. */
  function Reads(data: seq<string>, cursor: nat, k: nat): (rs: seq<Option<string>>)
    ensures |rs| == k
    decreases k
  {
    if k == 0 then []
    else if cursor < |data| then [Some(data[cursor])] + Reads(data, cursor + 1, k - 1)
    else [None] + Reads(data, cursor, k - 1)
  }

  /** The items a sequence of reads delivered, nulls dropped. */
  function Delivered(rs: seq<Option<string>>): seq<string> {
    if rs == [] then []
    else if rs[0].Some? then [rs[0].value] + Delivered(rs[1..])
    else Delivered(rs[1..])
  }

  /** Reads in order: the i-th read from `cursor` returns element cursor + i
      while there is one, and None from then on. */
  lemma {:induction false} ReadsInOrder(data: seq<string>, cursor: nat, k: nat, i: nat)
    requires i < k
    ensures Reads(data, cursor, k)[i] == if cursor + i < |data| then Some(data[cursor + i]) else None
    decreases k
  {
    if i > 0 {
      if cursor < |data| {
        ReadsInOrder(data, cursor + 1, k - 1, i - 1);
      } else {
        ReadsInOrder(data, cursor, k - 1, i - 1);
      }
    }
  }

  /** Once used up, the reader returns None on every later read. */
  lemma {:induction false} ExhaustedStaysExhausted(data: seq<string>, cursor: nat, k: nat)
    requires cursor >= |data|
    ensures forall i :: 0 <= i < k ==> Reads(data, cursor, k)[i] == None
  {
    forall i | 0 <= i < k ensures Reads(data, cursor, k)[i] == None {
      ReadsInOrder(data, cursor, k, i);
    }
  }

  /** Enough reads deliver the rest of the data, each element exactly once
      and in order. */
  lemma {:induction false} DeliversRestOnce(data: seq<string>, cursor: nat, k: nat)
    requires cursor <= |data| && k >= |data| - cursor
    ensures Delivered(Reads(data, cursor, k)) == data[cursor..]
    decreases k
  {
    if k > 0 {
      var rs := Reads(data, cursor, k);
      if cursor < |data| {
        DeliversRestOnce(data, cursor + 1, k - 1);
        assert rs[1..] == Reads(data, cursor + 1, k - 1);
        assert data[cursor..] == [data[cursor]] + data[cursor + 1..];
      } else {
        DeliversRestOnce(data, cursor, k - 1);
        assert rs[1..] == Reads(data, cursor, k - 1);
      }
    }
  }

  /** From a fresh reader: "1" to "5" in order, then null forever; exactly
      five reads return an item. */
  lemma FreshReaderReads(k: nat)
    requires k >= 5
    ensures Reads(DATA_SET, 0, k)[..5] == [Some("1"), Some("2"), Some("3"), Some("4"), Some("5")]
    ensures forall i :: 5 <= i < k ==> Reads(DATA_SET, 0, k)[i] == None
    ensures Delivered(Reads(DATA_SET, 0, k)) == DATA_SET && |Delivered(Reads(DATA_SET, 0, k))| == 5
  {
    var rs := Reads(DATA_SET, 0, k);
    forall i | 0 <= i < k ensures rs[i] == if i < 5 then Some(DATA_SET[i]) else None {
      ReadsInOrder(DATA_SET, 0, k, i);
    }
    DeliversRestOnce(DATA_SET, 0, k);
  }

  class SimpleItemReader {
    const dataSet: seq<string>
    var cursor: nat

    /** The cursor never passes the end of the data. */
    ghost predicate Valid()
      reads this
    {
      cursor <= |dataSet|
    }

    /** The list is filled with "1" to "5" and the iterator starts before the first. */
    constructor ()
      ensures Valid() && dataSet == DATA_SET && cursor == 0
    {
      var list: seq<string> := [];
      list := list + ["1"];
      list := list + ["2"];
      list := list + ["3"];
      list := list + ["4"];
      list := list + ["5"];
      dataSet := list;
      cursor := 0;
    }

    /** read: the next element if there is one, else None; the cursor
        moves forward by one only when an element is returned. */
    method Read() returns (item: Option<string>)
      requires Valid()
      modifies this
      ensures Valid()
      ensures [item] == Reads(dataSet, old(cursor), 1)
      ensures forall k: nat :: Reads(dataSet, old(cursor), k + 1) == [item] + Reads(dataSet, cursor, k)
      ensures cursor == if old(cursor) < |dataSet| then old(cursor) + 1 else old(cursor)
    {
      if cursor < |dataSet| {
        item := Some(dataSet[cursor]);
        cursor := cursor + 1;
      } else {
        item := None;
      }
    }
  }
}
