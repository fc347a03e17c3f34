/** The request multiplexer over one debugging socket: evaluate, response, timeout and close in any order. */
module Devtools {

  datatype Answer = Answer(failed: bool, value: string)
  datatype Promise = Waiting | Resolved(value: string) | CommandFailed | TimedOut | Closed
  datatype Event = Evaluated | Message(id: nat, answer: Answer) | Timer(id: nat) | Close

  /** What an event does to a waiting request: only its own response, its own timer or the close settle it. */
  function Effect(e: Event, id: nat): Promise {
    match e
    case Evaluated => Waiting
    case Message(i, a) => if i != id then Waiting else if a.failed then CommandFailed else Resolved(a.value)
    case Timer(i) => if i == id then TimedOut else Waiting
    case Close => Closed
  }

  /** The effect of the first event, from position `from` on, that settles the request. */
  function First(log: seq<Event>, from: nat, id: nat): Promise
    decreases |log| - from
  {
    if from >= |log| then Waiting
    else if Effect(log[from], id).Waiting? then First(log, from + 1, id)
    else Effect(log[from], id)
  }

  lemma {:induction false} FirstAppend(log: seq<Event>, e: Event, from: nat, id: nat)
    requires from <= |log|
    ensures First(log + [e], from, id) == if First(log, from, id).Waiting? then Effect(e, id) else First(log, from, id)
    decreases |log| - from
  {
    if from < |log| {
      FirstAppend(log, e, from + 1, id);
    } else {
      assert First(log + [e], from + 1, id).Waiting?;
    }
  }

  /** Once settled, nothing that comes later changes a request: late responses, stray timers and the close reach
      nobody. */
  lemma {:induction false} SettledForGood(log: seq<Event>, more: seq<Event>, from: nat, id: nat)
    requires from <= |log| && !First(log, from, id).Waiting?
    ensures First(log + more, from, id) == First(log, from, id)
    decreases |log| - from
  {
    if Effect(log[from], id).Waiting? {
      SettledForGood(log, more, from + 1, id);
    }
  }

  /** A settled request was settled by exactly one event: a response with its id, its timer, or the close. */
  lemma {:induction false} SettledByItsOwn(log: seq<Event>, from: nat, id: nat) returns (j: nat)
    requires from <= |log| && !First(log, from, id).Waiting?
    ensures from <= j < |log| && match First(log, from, id)
      case Waiting => false
      case Resolved(value) => log[j] == Message(id, Answer(false, value))
      case CommandFailed => log[j].Message? && log[j].id == id && log[j].answer.failed
      case TimedOut => log[j] == Timer(id)
      case Closed => log[j] == Close
    ensures forall k :: from <= k < j ==>
      log[k] != Timer(id) && log[k] != Close && !(log[k].Message? && log[k].id == id)
    decreases |log| - from
  {
    if Effect(log[from], id).Waiting? {
      j := SettledByItsOwn(log, from + 1, id);
    } else {
      j := from;
    }
  }

  class Devtools {
    var sequence: nat
    var pending: set<nat>
    var timers: set<nat>
    var promises: map<nat, Promise>
    ghost var log: seq<Event>
    ghost var issued: map<nat, nat>

    /** Ids run from 1 to `sequence`; every promise is what the log says; pending, armed and waiting are the same
        ids. */
    ghost predicate Valid()
      reads this
    {
      (forall id :: id in promises <==> 1 <= id <= sequence) && issued.Keys == promises.Keys &&
      pending == timers &&
      (forall id :: id in promises ==> issued[id] <= |log| && promises[id] == First(log, issued[id], id)) &&
      (forall id :: id in pending <==> id in promises && promises[id].Waiting?)
    }

    constructor ()
      ensures Valid() && sequence == 0 && log == []
    {
      sequence, pending, timers, promises := 0, {}, {}, map[];
      log, issued := [], map[];
    }

    /** Every promise moves by the event just logged. */
    ghost predicate Moved(before: map<nat, Promise>, e: Event)
      reads this
    {
      promises.Keys == before.Keys && forall id :: id in before ==>
        promises[id] == if before[id].Waiting? then Effect(e, id) else before[id]
    }

    /** Each request gets an id never used before, is pending and has its timer armed. */
    method Evaluate() returns (id: nat)
      requires Valid()
      modifies this
      ensures Valid() && id == old(sequence) + 1 == sequence && id !in old(promises)
      ensures log == old(log) + [Evaluated] && issued == old(issued)[id := |log|]
      ensures pending == old(pending) + {id} && promises == old(promises)[id := Waiting]
    {
      sequence := sequence + 1;
      id := sequence;
      timers := timers + {id};
      pending := pending + {id};
      promises := promises[id := Waiting];
      log := log + [Evaluated];
      issued := issued[id := |log|];
      forall k | k in old(promises) ensures First(log, issued[k], k) == promises[k] {
        FirstAppend(old(log), Evaluated, old(issued)[k], k);
      }
    }

    /** A response settles its own request if that is still pending, and otherwise reaches nobody. */
    method OnMessage(id: nat, answer: Answer)
      requires Valid()
      modifies this`pending, this`timers, this`promises, this`log
      ensures Valid() && log == old(log) + [Message(id, answer)] && Moved(old(promises), Message(id, answer))
      ensures promises == if id !in old(pending) then old(promises)
        else if answer.failed then old(promises)[id := CommandFailed]
        else old(promises)[id := Resolved(answer.value)]
      ensures pending == old(pending) - {id}
    {
      log := log + [Message(id, answer)];
      if id in pending {
        pending := pending - {id};
        timers := timers - {id};
        promises := promises[id := if answer.failed then CommandFailed else Resolved(answer.value)];
      }
      Logged(old(log), old(promises), Message(id, answer));
    }

    /** Only an armed timer fires. */
    method OnTimeout(id: nat)
      requires Valid() && id in timers
      modifies this`pending, this`timers, this`promises, this`log
      ensures Valid() && log == old(log) + [Timer(id)] && Moved(old(promises), Timer(id))
      ensures pending == old(pending) - {id} && promises == old(promises)[id := TimedOut]
    {
      log := log + [Timer(id)];
      timers := timers - {id};
      pending := pending - {id};
      promises := promises[id := TimedOut];
      Logged(old(log), old(promises), Timer(id));
    }

    /** The close rejects every pending request and clears every timer. */
    method OnClose()
      requires Valid()
      modifies this`pending, this`timers, this`promises, this`log
      ensures Valid() && log == old(log) + [Close] && Moved(old(promises), Close) && pending == {}
      ensures promises.Keys == old(promises).Keys && forall id :: id in promises ==>
        promises[id] == if id in old(pending) then Closed else old(promises)[id]
    {
      log := log + [Close];
      var rest := pending;
      while rest != {}
        invariant log == old(log) + [Close] && rest <= old(pending) == pending && timers == rest &&
          promises.Keys == old(promises).Keys
        invariant forall k :: k in promises ==>
          promises[k] == if k in old(pending) - rest then Closed else old(promises)[k]
        decreases rest
      {
        var id :| id in rest;
        timers := timers - {id};
        promises := promises[id := Closed];
        rest := rest - {id};
      }
      pending := {};
      Logged(old(log), old(promises), Close);
    }

    lemma Logged(past: seq<Event>, before: map<nat, Promise>, e: Event)
      requires log == past + [e] && issued.Keys == before.Keys && Moved(before, e)
      requires forall id :: id in before ==> issued[id] <= |past| && before[id] == First(past, issued[id], id)
      ensures forall id :: id in promises ==> issued[id] <= |log| && promises[id] == First(log, issued[id], id)
    {
      forall id | id in promises ensures issued[id] <= |log| && promises[id] == First(log, issued[id], id) {
        FirstAppend(past, e, issued[id], id);
      }
    }
  }
}
