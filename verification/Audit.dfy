/**
 * The sequential reference: what a two-pass audit of a list finds when go2rtc's answers are fixed per
 * stream and attempt. It knows nothing of messages, counters or schedules.
 */
module Audit {
  import opened Messages
  import opened Sums
  import Go2RTC

  datatype Verdict = Alive | Dead | Failed(text: ErrorText)

  datatype Removal = Removed | Absent | NotRemoved(text: ErrorText)

  datatype Script = Script(check: (string, int) -> Verdict, removal: string -> Removal)

  /** `outside` answers the request `m` as the script says. */
  predicate Follows(script: Script, m: Msg, outside: Go2RTC.Outside)
  {
    && (m.CheckStreamHealth? ==>
          outside.health == match script.check(m.name, m.attempt)
                            case Alive => Ok(true)
                            case Dead => Ok(false)
                            case Failed(text) => Err(text))
    && (m.RemoveStream? ==>
          outside.removal == match script.removal(m.name)
                             case Removed => Ok(true)
                             case Absent => Ok(false)
                             case NotRemoved(text) => Err(text))
  }

  /** The script has no failing check. */
  ghost predicate ErrorFree(script: Script)
  {
    forall x, k :: !script.check(x, k).Failed?
  }

  function Select(list: seq<string>, p: string -> bool): seq<string>
  {
    if list == [] then [] else (if p(list[0]) then [list[0]] else []) + Select(list[1..], p)
  }

  /** The list without repeats. */
  function Once(list: seq<string>): seq<string>
  {
    if list == [] then [] else
    var rest := Once(list[1..]);
    if list[0] in rest then rest else [list[0]] + rest
  }

  function Says(script: Script, attempt: int, verdict: Verdict): string -> bool
  {
    x => script.check(x, attempt) == verdict
  }

  function Fails(script: Script, attempt: int): string -> bool { x => script.check(x, attempt).Failed? }

  function Removes(script: Script): string -> bool { x => script.removal(x) == Removed }

  /** Entries that look dead when first checked; only these are checked again. */
  function Suspects(script: Script, list: seq<string>): seq<string>
  {
    Select(list, Says(script, 1, Dead))
  }

  /** Entries with a producer in the first pass, and suspects with one in the second. */
  function AliveEntries(script: Script, list: seq<string>): nat
  {
    |Select(list, Says(script, 1, Alive))|
    + |Select(Suspects(script, list), Says(script, 2, Alive))|
  }

  /** Entries whose deciding check fails. */
  function FailedEntries(script: Script, list: seq<string>): nat
  {
    |Select(list, Fails(script, 1))|
    + |Select(Suspects(script, list), Fails(script, 2))|
  }

  /** Streams dead in both passes, each once: the ones to remove. */
  function Doomed(script: Script, list: seq<string>): seq<string>
  {
    Once(Select(Suspects(script, list), Says(script, 2, Dead)))
  }

  /** How many of them the removal request really removes. */
  function RemovedStreams(script: Script, list: seq<string>): nat
  {
    |Select(Doomed(script, list), Removes(script))|
  }

  // ---------- the same numbers entry by entry ----------

  predicate DeadTwice(script: Script, x: string)
  {
    script.check(x, 1) == Dead && script.check(x, 2) == Dead
  }

  /** What an entry that has been checked once without a producer will add to the alive count. */
  function AliveAgain(script: Script): string -> int { x => if script.check(x, 2) == Alive then 1 else 0 }

  function AliveAtAll(script: Script): string -> int
  {
    x => match script.check(x, 1)
         case Alive => 1
         case Dead => AliveAgain(script)(x)
         case Failed(_) => 0
  }

  function FailsAgain(script: Script): string -> int { x => if script.check(x, 2).Failed? then 1 else 0 }

  function FailsAtAll(script: Script): string -> int
  {
    x => match script.check(x, 1)
         case Alive => 0
         case Dead => FailsAgain(script)(x)
         case Failed(_) => 1
  }

  function Counts(p: string -> bool): string -> int { x => if p(x) then 1 else 0 }

  lemma SelectCons(x: string, rest: seq<string>, p: string -> bool)
    ensures Select([x] + rest, p) == (if p(x) then [x] else []) + Select(rest, p)
  {
    assert ([x] + rest)[1..] == rest;
  }

  lemma {:induction false} SelectMembers(list: seq<string>, p: string -> bool)
    ensures forall x :: x in Select(list, p) <==> x in list && p(x)
  {
    if list != [] {
      SelectMembers(list[1..], p);
    }
  }

  lemma {:induction false} SelectCounts(list: seq<string>, p: string -> bool)
    ensures |Select(list, p)| == Sum(Counts(p), list)
  {
    if list != [] {
      SelectCounts(list[1..], p);
    }
  }

  lemma {:induction false} OnceMembers(list: seq<string>)
    ensures Distinct(Once(list)) && forall x :: x in Once(list) <==> x in list
  {
    if list != [] {
      OnceMembers(list[1..]);
    }
  }

  lemma {:induction false} AliveEntriesIsSum(script: Script, list: seq<string>)
    ensures AliveEntries(script, list) == Sum(AliveAtAll(script), list)
  {
    if list != [] {
      var x, tail := list[0], list[1..];
      AliveEntriesIsSum(script, tail);
      SelectCons(x, Suspects(script, tail), Says(script, 2, Alive));
      var suspect := script.check(x, 1) == Dead;
      assert Suspects(script, list) == (if suspect then [x] else []) + Suspects(script, tail);
      assert suspect ==> AliveEntries(script, list) == AliveEntries(script, tail) + AliveAgain(script)(x);
      assert !suspect ==> Suspects(script, list) == Suspects(script, tail);
    }
  }

  lemma {:induction false} FailedEntriesIsSum(script: Script, list: seq<string>)
    ensures FailedEntries(script, list) == Sum(FailsAtAll(script), list)
  {
    if list != [] {
      var x, tail := list[0], list[1..];
      FailedEntriesIsSum(script, tail);
      SelectCons(x, Suspects(script, tail), Fails(script, 2));
      var suspect := script.check(x, 1) == Dead;
      assert Suspects(script, list) == (if suspect then [x] else []) + Suspects(script, tail);
      assert suspect ==> FailedEntries(script, list) == FailedEntries(script, tail) + FailsAgain(script)(x);
      assert !suspect ==> Suspects(script, list) == Suspects(script, tail);
    }
  }

  lemma DoomedMembers(script: Script, list: seq<string>)
    ensures Distinct(Doomed(script, list))
    ensures forall x :: x in Doomed(script, list) <==> x in list && DeadTwice(script, x)
  {
    SelectMembers(list, Says(script, 1, Dead));
    SelectMembers(Suspects(script, list), Says(script, 2, Dead));
    OnceMembers(Select(Suspects(script, list), Says(script, 2, Dead)));
  }

  /** Any repetition-free sequence of the doomed streams gives the audit's number of removals. */
  lemma RemovedStreamsIsSum(script: Script, list: seq<string>, removes: seq<string>)
    requires Distinct(removes) && forall x :: x in removes <==> x in list && DeadTwice(script, x)
    ensures RemovedStreams(script, list) == Sum(Counts(Removes(script)), removes)
  {
    DoomedMembers(script, list);
    SelectCounts(Doomed(script, list), Removes(script));
    SumOfSameMembers(Counts(Removes(script)), removes, Doomed(script, list));
  }
}
