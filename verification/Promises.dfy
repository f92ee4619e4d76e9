/** What scripted answers promise about the messages in flight. */
module Promises {
  import opened Messages
  import opened Sums
  import opened Audit

  predicate ReplyFollows(script: Script, m: Msg)
  {
    && (m.StreamHealthChecked? ==>
          (match script.check(m.name, m.attempt)
           case Alive => m.error == "" && m.hasProducer
           case Dead => m.error == "" && !m.hasProducer
           case Failed(_) => m.error != ""))
    && (m.StreamRemovalCompleted? ==> (m.error == "" && m.removed <==> script.removal(m.name) == Removed))
  }

  /** What a message in flight will still add to the alive count. */
  function AliveDue(script: Script): Msg -> int
  {
    (m: Msg) => if IsFirst(m) then AliveAtAll(script)(m.name)
                else if IsSecond(m) then AliveAgain(script)(m.name) else 0
  }

  /** What a message in flight will still add to the removed count. */
  function RemovalDue(script: Script): Msg -> int
  {
    (m: Msg) => if m.RemoveStream? || m.StreamRemovalCompleted? then Counts(Removes(script))(m.name) else 0
  }

  /** How many failures a message in flight will still cause. */
  function FailureDue(script: Script): Msg -> int
  {
    (m: Msg) => if IsFirst(m) then FailsAtAll(script)(m.name)
                else if IsSecond(m) then FailsAgain(script)(m.name) else 0
  }

  lemma {:induction false} FirstChecksSum(self: string, delay: Duration, at: Time, streams: seq<string>,
                                          f: Msg -> int, g: string -> int)
    requires forall x :: x in streams ==> f(CheckStreamHealth(x, at, 1, self, delay)) == g(x)
    ensures Sum(f, FirstChecks(self, delay, at, streams)) == Sum(g, streams)
  {
    if streams != [] {
      var n := |streams| - 1;
      FirstChecksSum(self, delay, at, streams[..n], f, g);
      SumSnoc(f, FirstChecks(self, delay, at, streams[..n]),
              CheckStreamHealth(streams[n], at, 1, self, delay));
      SumSnoc(g, streams[..n], streams[n]);
      assert streams == streams[..n] + [streams[n]];
    }
  }

  /** What a scripted check reply settles now plus what it leaves due is what was promised. */
  lemma CheckReplyPays(self: string, script: Script, m: Msg)
    requires m.StreamHealthChecked? && ReplyFollows(script, m) && (m.attempt == 1 || m.attempt == 2)
    ensures AliveDue(script)(m) == (if m.error == "" && m.hasProducer then 1 else 0)
                                   + (if DeadReply(m, 1) then AliveDue(script)(SecondCheck(self, m)) else 0)
    ensures FailureDue(script)(m) == (if m.error != "" then 1 else 0)
                                     + (if DeadReply(m, 1) then FailureDue(script)(SecondCheck(self, m)) else 0)
  {
    var x := m.name;
    var again := SecondCheck(self, m);
    if m.attempt == 1 {
      var v := script.check(x, 1);
      assert AliveDue(script)(m) == AliveAtAll(script)(x) && FailureDue(script)(m) == FailsAtAll(script)(x);
      assert AliveDue(script)(again) == AliveAgain(script)(x) && FailureDue(script)(again) == FailsAgain(script)(x);
      assert AliveAtAll(script)(x) == if v == Alive then 1 else if v == Dead then AliveAgain(script)(x) else 0;
      assert FailsAtAll(script)(x) == if v == Alive then 0 else if v == Dead then FailsAgain(script)(x) else 1;
    } else {
      assert AliveDue(script)(m) == AliveAgain(script)(x) && FailureDue(script)(m) == FailsAgain(script)(x);
    }
  }
}
