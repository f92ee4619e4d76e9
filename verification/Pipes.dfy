/**
 * One requester's share of the system: its messages on their way to go2rtc (`requests`), the answers
 * on their way back (`replies`), the sends its current handler has not made yet (`out`), and its
 * sleeping goroutines. Weighted totals over a pipe are how in-flight work is counted.
 */
module Pipes {
  import opened Messages
  import opened Sums

  datatype Sleeper = Sleeper(check: Msg, wakeAt: Time)

  datatype Pipe = Pipe(replies: seq<Msg>, requests: seq<Msg>, out: seq<Msg>, sleepers: seq<Sleeper>)

  const EMPTY := Pipe([], [], [], [])

  function Flush(p: Pipe): Pipe
    requires p.out != []
  {
    p.(requests := p.requests + [p.out[0]], out := p.out[1..])
  }

  function Serve(p: Pipe, reply: Msg): Pipe
    requires p.requests != []
  {
    p.(replies := p.replies + [reply], requests := p.requests[1..])
  }

  function Wake(p: Pipe, i: nat): Pipe
    requires i < |p.sleepers|
  {
    p.(requests := p.requests + [p.sleepers[i].check], sleepers := p.sleepers[..i] + p.sleepers[i + 1..])
  }

  function Take(p: Pipe): Pipe
    requires p.replies != []
  {
    p.(replies := p.replies[1..])
  }

  function Emit(p: Pipe, msgs: seq<Msg>, sleepers: seq<Sleeper>): Pipe
  {
    p.(out := p.out + msgs, sleepers := p.sleepers + sleepers)
  }

  function Go2RTCMsgs(sends: seq<Send>): (msgs: seq<Msg>)
  {
    if sends == [] then []
    else (if sends[0].ToGo2RTC? then [sends[0].msg] else []) + Go2RTCMsgs(sends[1..])
  }

  function Sleepers(now: Time, checks: seq<Msg>): (sleepers: seq<Sleeper>)
    requires forall m :: m in checks ==> m.CheckStreamHealth?
  {
    seq(|checks|, i requires 0 <= i < |checks| => Sleeper(checks[i], now + checks[i].confirmAfter))
  }

  datatype Weights = Weights(reply: Msg -> int, request: Msg -> int, out: Msg -> int, sleep: Sleeper -> int)

  function Everywhere(f: Msg -> int): Weights { Weights(f, f, f, (s: Sleeper) => f(s.check)) }

  function Total(w: Weights, p: Pipe): int
  {
    Sum(w.reply, p.replies) + Sum(w.request, p.requests) + Sum(w.out, p.out) + Sum(w.sleep, p.sleepers)
  }

  lemma TotalFlush(w: Weights, p: Pipe)
    requires p.out != []
    ensures Total(w, Flush(p)) == Total(w, p) - w.out(p.out[0]) + w.request(p.out[0])
  {
    SumSnoc(w.request, p.requests, p.out[0]);
  }

  lemma TotalServe(w: Weights, p: Pipe, reply: Msg)
    requires p.requests != []
    ensures Total(w, Serve(p, reply)) == Total(w, p) - w.request(p.requests[0]) + w.reply(reply)
  {
    SumSnoc(w.reply, p.replies, reply);
  }

  lemma TotalWake(w: Weights, p: Pipe, i: nat)
    requires i < |p.sleepers|
    ensures Total(w, Wake(p, i)) == Total(w, p) - w.sleep(p.sleepers[i]) + w.request(p.sleepers[i].check)
  {
    SumSnoc(w.request, p.requests, p.sleepers[i].check);
    SumWithout(w.sleep, p.sleepers, i);
  }

  lemma TotalTake(w: Weights, p: Pipe)
    requires p.replies != []
    ensures Total(w, Take(p)) == Total(w, p) - w.reply(p.replies[0])
  {}

  lemma TotalEmit(w: Weights, p: Pipe, msgs: seq<Msg>, sleepers: seq<Sleeper>)
    ensures Total(w, Emit(p, msgs, sleepers)) == Total(w, p) + Sum(w.out, msgs) + Sum(w.sleep, sleepers)
  {
    SumAppend(w.out, p.out, msgs);
    SumAppend(w.sleep, p.sleepers, sleepers);
  }

  lemma TotalWithSleeper(f: Msg -> int, p: Pipe, s: Sleeper)
    ensures Total(Everywhere(f), Emit(p, [], [s])) == Total(Everywhere(f), p) + f(s.check)
  {
    TotalEmit(Everywhere(f), p, [], [s]);
    assert Sum(Everywhere(f).sleep, [s]) == f(s.check);
  }

  lemma TotalWithSend(f: Msg -> int, p: Pipe, m: Msg)
    ensures Total(Everywhere(f), Emit(p, [m], [])) == Total(Everywhere(f), p) + f(m)
  {
    TotalEmit(Everywhere(f), p, [m], []);
    assert Sum(f, [m]) == f(m);
  }

  lemma TotalIsNat(f: Msg -> int, p: Pipe)
    requires forall m :: f(m) >= 0
    ensures Total(Everywhere(f), p) >= 0
  {
    var w := Everywhere(f);
    assert forall s: Sleeper :: w.sleep(s) == f(s.check);
    SumIsNat(f, p.replies);
    SumIsNat(f, p.requests);
    SumIsNat(f, p.out);
    SumIsNat(w.sleep, p.sleepers);
  }

  lemma Go2RTCMsgsOfOne(send: Send)
    ensures Go2RTCMsgs([send]) == if send.ToGo2RTC? then [send.msg] else []
  {
    assert [send][1..] == [];
  }

  lemma SleepersOfOne(now: Time, check: Msg)
    requires check.CheckStreamHealth?
    ensures Sleepers(now, [check]) == [Sleeper(check, now + check.confirmAfter)]
  {}

  lemma EmitNothing(p: Pipe)
    ensures Emit(p, [], []) == p
  {}

  lemma Go2RTCMsgsOfAll(msgs: seq<Msg>)
    ensures Go2RTCMsgs(AllToGo2RTC(msgs)) == msgs
  {
    var sends := AllToGo2RTC(msgs);
    Go2RTCMsgsPointwise(sends, msgs);
  }

  lemma {:induction false} Go2RTCMsgsPointwise(sends: seq<Send>, msgs: seq<Msg>)
    requires |sends| == |msgs| && forall i :: 0 <= i < |sends| ==> sends[i] == ToGo2RTC(msgs[i])
    ensures Go2RTCMsgs(sends) == msgs
  {
    if sends != [] {
      Go2RTCMsgsPointwise(sends[1..], msgs[1..]);
    }
  }
}
