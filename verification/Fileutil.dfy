/** base/Fileutil.cc: a file that retries partial writes. */
module Fileutil {

  /** How many of `len` bytes get through when the i-th and later answers are taken in turn, up to a zero answer. */
  function Retried(len: nat, answers: nat -> nat, i: nat): (n: nat)
    ensures n <= len
    decreases len
  {
    if len == 0 || answers(i) == 0 then 0
    else if answers(i) >= len then len
    else answers(i) + Retried(len - answers(i), answers, i + 1)
  }

  /** How many bytes `append` gets through: the first write may take none without ending it. */
  function Accepted(len: nat, answers: nat -> nat): nat {
    if answers(0) >= len then len else answers(0) + Retried(len - answers(0), answers, 1)
  }

  /** What `count` answers add up to, from the i-th on. */
  function Sum(answers: nat -> nat, i: nat, count: nat): nat
    decreases count
  {
    if count == 0 then 0 else answers(i) + Sum(answers, i + 1, count - 1)
  }

  /** A zero answer comes, after `count` others, before the answers add up to the length. */
  predicate StallsAfter(len: nat, answers: nat -> nat, i: nat, count: nat) {
    Sum(answers, i, count) < len && answers(i + count) == 0
  }

  /** Bytes are left over exactly when the stream stalls in time. */
  lemma {:induction false} LeftOverIff(len: nat, answers: nat -> nat, i: nat)
    ensures Retried(len, answers, i) < len <==> exists count: nat :: StallsAfter(len, answers, i, count)
    decreases len
  {
    if len > 0 && answers(i) == 0 {
      assert StallsAfter(len, answers, i, 0);
    } else if len > 0 {
      forall count: nat | StallsAfter(len, answers, i, count)
        ensures count > 0 && answers(i) < len && StallsAfter(len - answers(i), answers, i + 1, count - 1)
      {
      }
      if answers(i) < len {
        LeftOverIff(len - answers(i), answers, i + 1);
        if Retried(len, answers, i) < len {
          var count: nat :| StallsAfter(len - answers(i), answers, i + 1, count);
          assert StallsAfter(len, answers, i, count + 1);
        }
      }
    }
  }

  /** And then what got through is what the answers before the stall add up to. */
  lemma {:induction false} StalledAt(len: nat, answers: nat -> nat, i: nat, count: nat)
    requires StallsAfter(len, answers, i, count) && forall k | i <= k < i + count :: answers(k) > 0
    ensures Retried(len, answers, i) == Sum(answers, i, count)
    decreases count
  {
    if count > 0 {
      StalledAt(len - answers(i), answers, i + 1, count - 1);
    }
  }

  /** The first write is not a retry: it may take nothing. */
  lemma FirstWriteCounts(len: nat, answers: nat -> nat)
    ensures answers(0) >= len ==> Accepted(len, answers) == len
    ensures answers(0) < len ==> Accepted(len, answers) - answers(0) == Retried(len - answers(0), answers, 1)
  {
  }

  ghost predicate RetriesSucceed(answers: nat -> nat) {
    forall retry: nat | retry >= 1 :: answers(retry) > 0
  }

  /** `append` writes the whole message unless a retry takes nothing. */
  lemma AllUnlessStalled(len: nat, answers: nat -> nat)
    requires RetriesSucceed(answers)
    ensures Accepted(len, answers) == len
  {
    if answers(0) < len {
      LeftOverIff(len - answers(0), answers, 1);
    }
  }

  class AppendFile {
    /** Every byte the stream accepted, in order. */
    var bytes: string

    constructor ()
      ensures bytes == ""
    {
      bytes := "";
    }

    /** `fwrite_unlocked`: `answer` is how many bytes the stream is willing to take. */
    method Write(message: string, answer: nat) returns (n: nat)
      modifies this
      ensures n == if answer < |message| then answer else |message|
      ensures bytes == old(bytes) + message[..n]
    {
      n := if answer < |message| then answer else |message|;
      bytes := bytes + message[..n];
    }

    /** `append`. `answers(i)` is the stream's answer to the i-th write. */
    method Append(message: string, answers: nat -> nat) returns (n: nat)
      modifies this
      ensures n == Accepted(|message|, answers) <= |message| && bytes == old(bytes) + message[..n]
      ensures RetriesSucceed(answers) ==> n == |message|
    {
      hide RetriesSucceed;
      if RetriesSucceed(answers) {
        AllUnlessStalled(|message|, answers);
      }
      n := Write(message, answers(0));
      var remain, calls := |message| - n, 1;
      while remain > 0
        invariant n <= |message| && remain == |message| - n
        invariant bytes == old(bytes) + message[..n]
        invariant n + Retried(remain, answers, calls) == Accepted(|message|, answers)
        decreases remain
      {
        var x := Write(message[n..], answers(calls));
        if x == 0 {
          break;
        }
        assert message[..n + x] == message[..n] + message[n..][..x];
        n := n + x;
        remain := |message| - n;
        calls := calls + 1;
      }
    }
  }
}
