/** The decode loop of the inbox handler: a walk over the received dictionary's tuples. */
module Inbox {
  import opened Wrappers
  import opened CStrings

  /** A dictionary key, an unsigned 32-bit integer. */
  type Key = k: int | 0 <= k < 0x1_0000_0000

  /** One tuple of the received dictionary, its value read as a C string. */
  datatype Pair = Pair(key: Key, value: CString)

  /** What the loop leaves behind: the global `message` and the local `sentiment`. */
  datatype Decoded = Decoded(message: Option<CString>, sentiment: CString)

  /** One pass through the `switch` on a tuple's key. Case 1 has no `break`, so it stores
      the value in `message` and then falls into case 2, which stores it in `sentiment`. */
  function ReadPair(d: Decoded, p: Pair): (r: Decoded)
    ensures p.key == 1 ==> r.message == Some(p.value) && r.sentiment == p.value
    ensures p.key == 2 ==> r.message == d.message && r.sentiment == p.value
    ensures p.key !in {1, 2} ==> r == d
  {
    var afterCase1 := if p.key == 1 then d.(message := Some(p.value)) else d;
    // no `break`: a key-1 tuple goes on into case 2
    if p.key == 1 || p.key == 2 then afterCase1.(sentiment := p.value) else afterCase1
  }

  /** The whole loop: the tuples in the order the iterator yields them, starting from the
      previous `message` and an empty `sentiment`. */
  function Decode(pairs: seq<Pair>, message: Option<CString>): Decoded
  {
    if pairs == [] then Decoded(message, "")
    else ReadPair(Decode(pairs[..|pairs| - 1], message), pairs[|pairs| - 1])
  }

  /** No tuple has a key in `keys`. */
  ghost predicate NoneWith(pairs: seq<Pair>, keys: set<Key>)
  {
    forall i :: 0 <= i < |pairs| ==> pairs[i].key !in keys
  }

  /** `j` is the index of the last tuple whose key is in `keys`. */
  ghost predicate IsLast(pairs: seq<Pair>, keys: set<Key>, j: int)
  {
    0 <= j < |pairs| && pairs[j].key in keys &&
    forall i :: j < i < |pairs| ==> pairs[i].key !in keys
  }

  /** The loop as the handler runs it, on the two variables it updates. */
  method ReadPairs(pairs: seq<Pair>, message: Option<CString>) returns (d: Decoded)
    ensures d == Decode(pairs, message)
  {
    var msg, sentiment: CString := message, "";
    var i := 0;
    while i < |pairs|
      invariant 0 <= i <= |pairs|
      invariant Decoded(msg, sentiment) == Decode(pairs[..i], message)
    {
      var t := pairs[i];
      if t.key == 1 {
        msg := Some(t.value);
      }
      // case 1 falls through into case 2
      if t.key == 1 || t.key == 2 {
        sentiment := t.value;
      }
      assert pairs[..i + 1][..i] == pairs[..i];
      i := i + 1;
    }
    assert pairs[..i] == pairs;
    d := Decoded(msg, sentiment);
  }

  /** `message` ends as the value of the last key-1 tuple, and keeps its previous value
      when there is none. */
  lemma {:induction false} MessageIsLastKeyOne(pairs: seq<Pair>, message: Option<CString>)
    ensures NoneWith(pairs, {1}) ==> Decode(pairs, message).message == message
    ensures forall j :: IsLast(pairs, {1}, j) ==> Decode(pairs, message).message == Some(pairs[j].value)
  {
    if pairs != [] {
      var n := |pairs| - 1;
      var init := pairs[..n];
      MessageIsLastKeyOne(init, message);
      var before := Decode(init, message);
      assert Decode(pairs, message) == ReadPair(before, pairs[n]);
      if pairs[n].key != 1 {
        assert Decode(pairs, message).message == before.message;
        forall j | IsLast(pairs, {1}, j) ensures IsLast(init, {1}, j) {
          assert init[j] == pairs[j];
        }
        if NoneWith(pairs, {1}) {
          assert forall i :: 0 <= i < n ==> init[i] == pairs[i];
        }
      } else {
        forall j | IsLast(pairs, {1}, j) ensures j == n { }
      }
    }
  }

  /** `sentiment` ends as the value of the last tuple keyed 1 or 2, and is empty when
      there is none. */
  lemma {:induction false} SentimentIsLastKeyOneOrTwo(pairs: seq<Pair>, message: Option<CString>)
    ensures NoneWith(pairs, {1, 2}) ==> Decode(pairs, message).sentiment == ""
    ensures forall j :: IsLast(pairs, {1, 2}, j) ==> Decode(pairs, message).sentiment == pairs[j].value
  {
    if pairs != [] {
      var n := |pairs| - 1;
      var init := pairs[..n];
      SentimentIsLastKeyOneOrTwo(init, message);
      var before := Decode(init, message);
      assert Decode(pairs, message) == ReadPair(before, pairs[n]);
      if pairs[n].key !in {1, 2} {
        assert Decode(pairs, message).sentiment == before.sentiment;
        forall j | IsLast(pairs, {1, 2}, j) ensures IsLast(init, {1, 2}, j) {
          assert init[j] == pairs[j];
        }
        if NoneWith(pairs, {1, 2}) {
          assert forall i :: 0 <= i < n ==> init[i] == pairs[i];
        }
      } else {
        forall j | IsLast(pairs, {1, 2}, j) ensures j == n { }
      }
    }
  }

  /** Decoding two dictionaries one after the other leaves `message` where decoding their
      concatenation would: the global carries over from one handler run to the next. */
  lemma {:induction false} DecodeAppendMessage(a: seq<Pair>, b: seq<Pair>, message: Option<CString>)
    ensures Decode(a + b, message).message == Decode(b, Decode(a, message).message).message
  {
    if b == [] {
      assert a + b == a;
    } else {
      var n := |b| - 1;
      DecodeAppendMessage(a, b[..n], message);
      assert (a + b)[..|a + b| - 1] == a + b[..n];
    }
  }
}
