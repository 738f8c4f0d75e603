/**
 * The message queue of an Android `Handler`, abstracted to a sequence of
 * pending messages in the order they were sent. A message carries its
 * `what` code and the delay it was sent with (0 for `sendEmptyMessage`).
 */
module MessageQueue {

  datatype Message = Message(what: int, delayMs: int)

  /** How many pending messages have code `what`. */
  function Count(q: seq<Message>, what: int): (n: nat)
    ensures n <= |q|
    ensures n == 0 <==> forall i :: 0 <= i < |q| ==> q[i].what != what
    ensures n == |q| <==> forall i :: 0 <= i < |q| ==> q[i].what == what
  {
    if q == [] then 0
    else Count(q[..|q| - 1], what) + (if q[|q| - 1].what == what then 1 else 0)
  }

  /** `r` is `q` with some of its messages left out, the rest in their order. */
  predicate IsSubsequence(r: seq<Message>, q: seq<Message>)
    decreases |q|
  {
    if r == [] then true
    else if q == [] then false
    else if r[|r| - 1] == q[|q| - 1] then IsSubsequence(r[..|r| - 1], q[..|q| - 1])
    else IsSubsequence(r, q[..|q| - 1])
  }

  /**
   * `Handler.removeMessages(what)`: every pending message with code `what`
   * is dropped; the others stay, in their order.
   */
  function RemoveMessages(q: seq<Message>, what: int): (r: seq<Message>)
    ensures Count(r, what) == 0
    ensures forall w {:trigger Count(r, w)} :: w != what ==> Count(r, w) == Count(q, w)
    ensures |r| == |q| - Count(q, what)
    ensures forall i :: 0 <= i < |r| ==> r[i] in q
  {
    if q == [] then []
    else
      var rest := RemoveMessages(q[..|q| - 1], what);
      if q[|q| - 1].what == what then rest else rest + [q[|q| - 1]]
  }

  /**
   * `removeMessages` keeps every other message, as often as it was pending
   * and in the order it was sent.
   */
  lemma {:induction false} RemoveMessagesKeepsOthers(q: seq<Message>, what: int)
    ensures forall m :: multiset(RemoveMessages(q, what))[m] == if m.what == what then 0 else multiset(q)[m]
    ensures IsSubsequence(RemoveMessages(q, what), q)
    decreases |q|
  {
    if q != [] {
      var front := q[..|q| - 1];
      var last := q[|q| - 1];
      assert q == front + [last];
      RemoveMessagesKeepsOthers(front, what);
      var rest := RemoveMessages(front, what);
      if last.what == what {
        SubsequenceOfLonger(rest, front, last);
      } else {
        assert (rest + [last])[..|rest|] == rest;
      }
    }
  }

  /** A subsequence of `q` is also one of `q` with a message appended. */
  lemma {:induction false} SubsequenceOfLonger(r: seq<Message>, q: seq<Message>, m: Message)
    requires IsSubsequence(r, q)
    ensures IsSubsequence(r, q + [m])
    decreases |q|, 1
  {
    var q' := q + [m];
    assert q'[..|q'| - 1] == q;
    if r != [] && r[|r| - 1] == m {
      SubsequenceShorter(r, q);
    }
  }

  /** Dropping the last message of a subsequence keeps it a subsequence. */
  lemma {:induction false} SubsequenceShorter(r: seq<Message>, q: seq<Message>)
    requires r != [] && IsSubsequence(r, q)
    ensures IsSubsequence(r[..|r| - 1], q)
    decreases |q|, 0
  {
    if r[|r| - 1] == q[|q| - 1] {
      if |r| > 1 {
        SubsequenceShorter(r[..|r| - 1], q[..|q| - 1]);
        assert r[..|r| - 1][..|r| - 2] == r[..|r| - 2];
        SubsequenceOfLonger(r[..|r| - 2], q[..|q| - 1], q[|q| - 1]);
        assert q[..|q| - 1] + [q[|q| - 1]] == q;
      }
    } else {
      SubsequenceShorter(r, q[..|q| - 1]);
      var r' := r[..|r| - 1];
      if r' != [] && r'[|r'| - 1] == q[|q| - 1] {
        assert IsSubsequence(r', q[..|q| - 1]);
        SubsequenceShorter(r', q[..|q| - 1]);
        SubsequenceOfLonger(r'[..|r'| - 1], q[..|q| - 1], q[|q| - 1]);
        assert q[..|q| - 1] + [q[|q| - 1]] == q;
      }
    }
  }

  /** Appending a message adds one to the count of its code and to no other. */
  lemma CountAppend(q: seq<Message>, m: Message, what: int)
    ensures Count(q + [m], what) == Count(q, what) + (if m.what == what then 1 else 0)
  {
  }

  /** Taking out the message at `i` removes one from the count of its code. */
  lemma {:induction false} CountRemoveAt(q: seq<Message>, i: nat, what: int)
    requires i < |q|
    ensures Count(q[..i] + q[i + 1..], what) == Count(q, what) - (if q[i].what == what then 1 else 0)
    decreases |q|
  {
    var r := q[..i] + q[i + 1..];
    if i < |q| - 1 {
      var front := q[..|q| - 1];
      CountRemoveAt(front, i, what);
      assert r[..|r| - 1] == front[..i] + front[i + 1..];
      assert r[|r| - 1] == q[|q| - 1];
    } else {
      assert r == q[..|q| - 1];
    }
  }
}
